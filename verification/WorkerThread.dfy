/**
 The worker thread as written: loops over the store, the proof objects and the connection. Every
 path through it is a run of the machine in KernelWorker, so whatever holds of all runs holds of
 it; and it never leaves an execution unfinished except for the reasons named at Serve.

 The network and the kernel answer arbitrarily, and between any two actions a client may cancel
 and time may pass. `rounds` is the number of loop heads the thread passes before it is closed.
 */
module WorkerThread {
  import opened Wrappers
  import opened Lifecycle
  import opened KernelProof
  import opened Outputs
  import opened Storage
  import opened KernelWorker
  import opened WorkerSafety
  import opened WorkerRuns
  import Utf8

  /** How a part of the thread's work ends: in its loop, for good, with an exception, or to reconnect. */
  datatype Flow = GoOn | Ended | Threw | Again

  function EndOr(ok: bool): Flow {
    if ok then Ended else Threw
  }

  datatype Poll = Quiet | Disconnect | Got(event: KernelEvent)

  /** What others can have done to the row meanwhile, as far as the thread's branches depend on it. */
  predicate Kept(r: Record, q: Record) {
    (q.state == r.state || (r.state == Queued && q.state == Interrupted)) && (r.finalized ==> q.finalized)
  }

  /** When a transaction is not refused. */
  predicate Accepts(r: Record, op: Op) {
    match op
    case Move(to, _) => Allows(r.state, to) && (IsTerminal(to) ==> r.finalized)
    case SaveEvidence(_) => IsObserved(r.state)
    case Append(_) => !r.finalized
    case CountReconnect => r.state == Disconnected
    case _ => true
  }

  /** The row after an accepted transaction. */
  predicate Wrote(r: Record, op: Op, q: Record) {
    && (r.finalized || op.FinalizeOutput? ==> q.finalized)
    && if op.Move? then q.state == op.to else q.state == r.state || (r.state == Queued && q.state == Interrupted)
  }

  lemma OpFacts(r: Record, op: Op, now: nat)
    requires !op.Begin? && !op.Confirm? && !op.RequestCancel?
    ensures Apply(op, r, now).Ok? <==> Accepts(r, op)
    ensures Apply(op, r, now).Ok? ==> Wrote(r, op, Apply(op, r, now).value)
  {
  }

  /** The i-th entry starts the run or follows from the one before. */
  ghost predicate Follows(run: seq<Exec>, i: nat) {
    i < |run| && if i == 0 then Init(run[0]) else StepAt(run, i)
  }

  ghost predicate AllFollow(run: seq<Exec>) {
    run != [] && forall i: nat :: i < |run| ==> Follows(run, i)
  }

  lemma AllFollowIsRun(run: seq<Exec>)
    ensures AllFollow(run) <==> IsRun(run)
  {
    if AllFollow(run) {
      assert Follows(run, 0);
      assert forall i: nat :: 0 < i < |run| ==> (Follows(run, i) ==> StepAt(run, i));
    }
  }

  lemma AllFollowMore(run: seq<Exec>, x: Exec)
    requires AllFollow(run) && Step(run[|run| - 1], x)
    ensures AllFollow(run + [x])
  {
    forall i: nat | i < |run + [x]| ensures Follows(run + [x], i) {
      if i < |run| {
        assert Follows(run, i);
      }
    }
  }

  lemma RowIsSound(run: seq<Exec>)
    requires AllFollow(run)
    ensures Sound(run[|run| - 1].world.rec)
  {
    AllFollowIsRun(run);
    RunInv(run, |run| - 1);
  }

  /** A proof asked for nothing but an interrupt or a timeout. */
  predicate Stoppable(p: ProofState) {
    p.requested.Some? ==> p.requested.value.Interrupted? || p.requested.value.TimedOut?
  }

  lemma AwaitingIsSound(run: seq<Exec>, w: Watch)
    requires AllFollow(run) && run[|run| - 1].worker == Await(w)
    ensures Stoppable(w.proof)
  {
    AllFollowIsRun(run);
    RunInv(run, |run| - 1);
  }

  class KernelThread {
    const store: DurableStore
    const id: string
    var clock: nat
    var rounds: nat
    // the thread was closed; a transaction failed; an interrupt could not be delivered before confirmation
    var closed: bool
    var broken: bool
    var undelivered: bool
    // the run so far: what happened before this thread took the execution up, and since
    ghost const history: seq<Exec>
    ghost var run: seq<Exec>

    /** A thread takes up an execution whose history so far is given. */
    constructor (store: DurableStore, id: string, clock: nat, rounds: nat, ghost history: seq<Exec>)
      requires AllFollow(history) && id in store.executions
      requires var x := history[|history| - 1];
               x.worker == Idle && x.control == Idle && !x.booting && x.world.rec == store.executions[id] && x.world.clock == clock
      ensures Linked() && At(Idle) && run == history && this.history == history && this.store == store && this.id == id
      ensures !closed && !broken && !undelivered
    {
      this.store, this.id, this.clock, this.rounds := store, id, clock, rounds;
      closed, broken, undelivered := false, false, false;
      this.history := history;
      run := history;
    }

    ghost function Now(): Exec
      reads this
      requires run != []
    {
      run[|run| - 1]
    }

    /** The run goes on from the history; it is where the thread is, and its row is the stored one. */
    ghost predicate Linked()
      reads this, store
    {
      Tracking() && Now().world.rec == store.executions[id]
    }

    ghost predicate Tracking()
      reads this, store
    {
      && AllFollow(run) && history <= run
      && Now().control == Idle && !Now().booting
      && Now().world.clock == clock
      && id in store.executions
    }

    ghost predicate At(pc: Pc)
      reads this
    {
      run != [] && Now().worker == pc
    }

    function Row(): Record
      reads this, store
      requires id in store.executions
    {
      store.executions[id]
    }

    // ------------------------------------------------------------ moving the machine along

    ghost method Extend(x: Exec)
      requires AllFollow(run) && history <= run && Step(Now(), x)
      modifies this`run
      ensures run == old(run) + [x] && AllFollow(run) && history <= run
    {
      AllFollowMore(run, x);
      run := run + [x];
    }

    ghost method Go(w: World, q: Pc)
      requires Tracking() && PcStep(Now().world, Now().worker, w, q)
      requires w.rec == Row() && w.clock == clock
      modifies this`run
      ensures Linked() && At(q) && Now().world == w
    {
      Extend(Now().(world := w, worker := q));
    }

    /** The thread decides, reading the row. */
    ghost method Decide(q: Pc)
      requires Linked() && Decision(Row(), clock, Now().worker) == Some(q)
      modifies this`run
      ensures Linked() && At(q) && Now().world == old(Now().world)
    {
      Go(Now().world, q);
    }

    ghost method Raise(q: Pc)
      requires Linked() && Now().worker != Idle && q == Raised(Now().worker)
      modifies this`run
      ensures Linked() && At(q) && Now().world == old(Now().world)
    {
      Go(Now().world, q);
    }

    /** All writes are done. */
    ghost method Finish(q: Pc)
      requires Linked() && Now().worker.Do? && Now().worker.ops == [] && q == Now().worker.next
      modifies this`run
      ensures Linked() && At(q) && Now().world == old(Now().world)
    {
      Go(Now().world, q);
    }

    /** Other threads: a client cancels, time passes. */
    method Yield()
      requires Linked()
      modifies this`run, this`clock, store
      ensures Linked() && Now().worker == old(Now().worker) && Kept(old(Row()), Row())
    {
      var cancel := *;
      if cancel {
        var result := store.RequestExecutionCancel(id, clock);
        Extend(Now().(world := Now().world.(rec := result.value)));
      }
      var later: nat :| later >= clock;
      clock := later;
      Extend(Now().(world := Now().world.(clock := clock)));
    }

    method Stopping() returns (stop: bool)
      requires Linked() && (Now().worker.Top? || Now().worker.Recovering?)
      modifies this`run, this`rounds, this`closed
      ensures Linked() && Now().world == old(Now().world) && rounds <= old(rounds)
      ensures stop ==> closed && At(Idle)
      ensures !stop ==> rounds < old(rounds) && closed == old(closed) && Now() == old(Now())
    {
      if rounds == 0 {
        closed := true;
        Extend(Now().(worker := Idle));
        return true;
      }
      rounds := rounds - 1;
      return false;
    }

    // ------------------------------------------------------------ transactions

    /** One transaction; it may fail, and then says whether the store itself failed. */
    method Write(op: Op) returns (ok: bool)
      requires Linked() && Now().worker.Do? && Now().worker.ops != [] && Now().worker.ops[0] == op
      requires !op.Begin? && !op.Confirm? && !op.RequestCancel?
      modifies this`run, this`clock, this`broken, store
      ensures Linked() && (old(broken) ==> broken)
      ensures ok ==>
                At(old(Now().worker).(ops := old(Now().worker).ops[1..])) && Wrote(old(Row()), op, Row())
      ensures !ok ==>
                At(old(Now().worker).onError) && Kept(old(Row()), Row()) && (broken || !Accepts(Row(), op))
    {
      Yield();
      var fault := *;
      if fault {
        Break();
        return false;
      }
      ok := Transact(op);
    }

    /** The store fails. */
    method Break()
      requires Linked() && Now().worker.Do?
      modifies this`run, this`broken
      ensures Linked() && broken && At(old(Now().worker).onError)
    {
      broken := true;
      Raise(Now().worker.onError);
    }

    method Transact(op: Op) returns (ok: bool)
      requires Linked() && Now().worker.Do? && Now().worker.ops != [] && Now().worker.ops[0] == op
      requires !op.Begin? && !op.Confirm? && !op.RequestCancel?
      modifies this`run, store
      ensures Linked()
      ensures ok ==> At(old(Now().worker).(ops := old(Now().worker).ops[1..])) && Wrote(old(Row()), op, Row())
      ensures !ok ==> At(old(Now().worker).onError) && Row() == old(Row()) && !Accepts(Row(), op)
    {
      ghost var pc, w := Now().worker, Now().world;
      OpFacts(Row(), op, clock);
      var result := Perform(op);
      ok := result.Ok?;
      if ok {
        Go(Committed(w, op, result.value, pc.seen), pc.(ops := pc.ops[1..]));
      } else {
        Go(w, pc.onError);
      }
    }

    /** A single transaction. */
    method WriteOnly(op: Op) returns (ok: bool)
      requires Linked() && Now().worker.Do? && Now().worker.ops == [op]
      requires !op.Begin? && !op.Confirm? && !op.RequestCancel?
      modifies this`run, this`clock, this`broken, store
      ensures Linked() && (old(broken) ==> broken)
      ensures At(if ok then old(Now().worker).next else old(Now().worker).onError)
      ensures if ok then Wrote(old(Row()), op, Row()) else Kept(old(Row()), Row()) && (broken || !Accepts(Row(), op))
    {
      ok := Write(op);
      if ok {
        assert Now().worker.ops == [];
        Finish(Now().worker.next);
      }
    }

    method Perform(op: Op) returns (result: Result<Record, StoreError>)
      requires id in store.executions
      requires !op.Begin? && !op.Confirm? && !op.RequestCancel?
      modifies store
      ensures id in store.executions
      ensures result == Apply(op, old(Row()), clock) && Row() == if result.Ok? then result.value else old(Row())
    {
      match op {
        case Move(to, source) => result := store.TransitionExecution(id, to, source, clock);
        case SaveEvidence(o) => result := store.RecordEvidence(id, o, clock);
        case Append(output) => result := store.AppendOutput(id, output, clock);
        case FinalizeOutput => result := store.Finalize(id, clock);
        case MarkIncomplete => result := store.MarkOutputIncomplete(id, clock);
        case RequestTimeout => result := store.RequestExecutionTimeout(id, clock);
        case CountReconnect => result := store.IncrementReconnectCount(id, clock);
      }
    }

    // ------------------------------------------------------------ endings

    /** The execution is over, or the store failed. */
    predicate Settled()
      reads this, store
      requires id in store.executions
    {
      broken || IsTerminal(Row().state)
    }

    /** Why a thread may leave an execution: it is over, the store failed, or one of two known gaps. */
    predicate Over()
      reads this, store
      requires id in store.executions
    {
      Settled() || closed || (undelivered && Row().state == Dispatching)
    }

    predicate Recoverable()
      reads this, store
      requires id in store.executions
    {
      Row().state == Disconnected || IsTerminal(Row().state)
    }

    ghost predicate Left(flow: Flow)
      reads this, store
    {
      && Linked()
      && match flow
         case GoOn => false
         case Ended => At(Idle) && Over()
         case Threw => At(Failed)
         case Again => At(Recovering) && Recoverable()
    }

    /** An undelivered interrupt before confirmation leaves the execution dispatching, unless the store fails. */
    predicate Noted(flow: Flow)
      reads this, store
      requires id in store.executions
    {
      undelivered ==> (flow == Threw && broken) || (flow == Ended && (broken || Row().state == Dispatching))
    }

    /** finalize_output, then transition_execution. */
    method Close(to: State, source: Option<CompletionSource>) returns (ok: bool)
      requires Linked() && Now().worker.Do? && Now().worker.ops == Closing(to, source) && IsTerminal(to)
      modifies this`run, this`clock, this`broken, store
      ensures Linked() && (old(broken) ==> broken)
      ensures At(if ok then old(Now().worker).next else old(Now().worker).onError)
      ensures ok ==> Row().state == to
      ensures Allows(old(Row()).state, to) ==> Settled()
      ensures Allows(old(Row()).state, to) && old(Row()).state != Queued ==> ok || broken
    {
      ok := Write(FinalizeOutput);
      if ok {
        assert Now().worker.ops == [Move(to, source)];
        ok := WriteOnly(Move(to, source));
      }
    }

    /** _dispatch_failed */
    method DispatchFailed() returns (flow: Flow)
      requires Linked() && At(SendFailed) && (Row().state == Queued || Row().state == Dispatching || IsTerminal(Row().state))
      modifies this`run, this`clock, this`broken, store
      ensures Left(flow)
    {
      var ok := true;
      if Row().state == Queued {
        ok := DecideAndClose(Idle, Failed, Interrupted, Some(Live));
      } else if Row().state == Dispatching {
        ok := DecideAndClose(Idle, Failed, Unknown, Some(Live));
      } else {
        Decide(Idle);
      }
      flow := EndOr(ok);
    }

    /** Decide on a single transaction and make it. */
    method DecideAndWrite(ghost pc: Pc, op: Op) returns (ok: bool)
      requires Linked() && Decision(Row(), clock, Now().worker) == Some(pc) && pc.Do? && pc.ops == [op]
      requires !op.Begin? && !op.Confirm? && !op.RequestCancel?
      modifies this`run, this`clock, this`broken, store
      ensures Linked() && (old(broken) ==> broken) && At(if ok then pc.next else pc.onError)
      ensures if ok then Wrote(old(Row()), op, Row()) else Kept(old(Row()), Row()) && (broken || !Accepts(Row(), op))
    {
      Decide(pc);
      ok := WriteOnly(op);
    }

    /** Decide on an ending and write it. */
    method DecideAndClose(ghost next: Pc, ghost onError: Pc, to: State, source: Option<CompletionSource>) returns (ok: bool)
      requires Linked() && Decision(Row(), clock, Now().worker) == Some(Do(Closing(to, source), next, onError, None))
      requires IsTerminal(to) && Allows(Row().state, to)
      modifies this`run, this`clock, this`broken, store
      ensures Linked() && At(if ok then next else onError) && Settled() && (ok ==> Row().state == to)
      ensures old(Row()).state != Queued ==> ok || broken
      ensures old(broken) ==> broken
    {
      Decide(Do(Closing(to, source), next, onError, None));
      ok := Close(to, source);
    }

    /** _connection_lost, and the caller's check whether to recover. */
    method ConnectionLost(confirmed: bool) returns (flow: Flow)
      requires Linked() && At(Lost(confirmed)) && Row().state == LiveState(confirmed)
      modifies this`run, this`clock, this`broken, store
      ensures Left(flow)
    {
      if !confirmed {
        var closedIt := DecideAndClose(AfterLost, Failed, Unknown, Some(Live));
        if closedIt {
          Decide(Idle);
        }
        return EndOr(closedIt);
      }
      var ok := DecideAndWrite(Do([MarkIncomplete], LostMarked, Failed, None), MarkIncomplete);
      if !ok {
        return Threw;
      }
      flow := LostRunning();
    }

    method LostRunning() returns (flow: Flow)
      requires Linked() && At(LostMarked) && Row().state == Running
      modifies this`run, this`clock, this`broken, store
      ensures Left(flow)
    {
      var ok := DecideAndWrite(Do([Move(Disconnected, None)], AfterLost, Failed, None), Move(Disconnected, None));
      if !ok {
        return Threw;
      }
      Decide(Recovering);
      return Again;
    }

    /** _ambiguous_interrupt: it ends confirmed work, and leaves the execution dispatching exactly if it was. */
    method AmbiguousInterrupt() returns (flow: Flow)
      requires Linked() && At(Do([MarkIncomplete], AmbiguousMarked, Failed, None))
      requires Row().state == Running || Row().state == Dispatching || Row().state == Disconnected
      requires Row().state == Dispatching ==> undelivered
      modifies this`run, this`clock, this`broken, store
      ensures Left(flow) && flow != Again
      ensures flow == Threw ==> broken
      ensures flow == Ended ==> broken || (Row().state == Dispatching <==> old(Row()).state == Dispatching)
    {
      var ok := WriteOnly(MarkIncomplete);
      if !ok {
        return Threw;
      }
      flow := AmbiguousMiddle();
    }

    method AmbiguousMiddle() returns (flow: Flow)
      requires Linked() && At(AmbiguousMarked)
      requires Row().state == Running || Row().state == Dispatching || Row().state == Disconnected
      requires Row().state == Dispatching ==> undelivered
      modifies this`run, this`clock, this`broken, store
      ensures Left(flow) && flow != Again
      ensures flow == Threw ==> broken
      ensures flow == Ended ==> broken || (Row().state == Dispatching <==> old(Row()).state == Dispatching)
    {
      if Row().state == Running {
        var ok := DecideAndWrite(Do([Move(Disconnected, None)], AmbiguousDisconnected, Failed, None), Move(Disconnected, None));
        if !ok {
          return Threw;
        }
      } else {
        Decide(AmbiguousDisconnected);
      }
      flow := AmbiguousEnd();
    }

    method AmbiguousEnd() returns (flow: Flow)
      requires Linked() && At(AmbiguousDisconnected) && (Row().state == Disconnected || Row().state == Dispatching)
      requires Row().state == Dispatching ==> undelivered
      modifies this`run, this`clock, this`broken, store
      ensures Left(flow) && flow != Again
      ensures flow == Threw ==> broken
      ensures flow == Ended ==> broken || (Row().state == Dispatching <==> old(Row()).state == Dispatching)
    {
      var ok := true;
      if Row().state == Disconnected {
        ok := DecideAndClose(Idle, Failed, Unknown, Some(Live));
      } else {
        Decide(Idle);
      }
      flow := EndOr(ok);
    }

    /** _internal_failure: whatever the state, an execution that raised is brought to an end. */
    method InternalFailure()
      requires Linked() && At(Failed)
      modifies this`run, this`clock, this`broken, store
      ensures Linked() && At(Idle) && Settled()
      ensures old(broken) ==> broken
    {
      RowIsSound(run);
      if Row().state == Queued {
        var _ := DecideAndClose(Idle, Idle, Interrupted, Some(Live));
      } else if Row().state == Dispatching {
        var _ := DecideAndClose(Idle, Idle, Unknown, Some(Live));
      } else if Row().state == Running {
        FailRunning();
      } else if Row().state == Disconnected {
        Decide(Do([MarkIncomplete] + Closing(Unknown, Some(Live)), Idle, Idle, None));
        var _ := MarkAndClose(Some(Live));
      } else {
        Decide(Idle);
      }
    }

    method FailRunning()
      requires Linked() && At(Failed) && Row().state == Running
      modifies this`run, this`clock, this`broken, store
      ensures Linked() && At(Idle) && Settled()
      ensures old(broken) ==> broken
    {
      Decide(Do([MarkIncomplete, Move(Disconnected, None)], FailedDisconnected, Idle, None));
      var ok := Write(MarkIncomplete);
      if ok {
        FailMarked();
      }
    }

    method FailMarked()
      requires Linked() && At(Do([Move(Disconnected, None)], FailedDisconnected, Idle, None)) && Row().state == Running
      modifies this`run, this`clock, this`broken, store
      ensures Linked() && At(Idle) && Settled()
      ensures old(broken) ==> broken
    {
      var ok := WriteOnly(Move(Disconnected, None));
      if ok {
        var _ := DecideAndClose(Idle, Idle, Unknown, Some(Live));
      }
    }

    method MarkAndClose(source: Option<CompletionSource>) returns (ok: bool)
      requires Linked() && Row().state == Disconnected
      requires Now().worker.Do? && Now().worker.ops == [MarkIncomplete] + Closing(Unknown, source)
      modifies this`run, this`clock, this`broken, store
      ensures Linked() && Settled()
      ensures At(if ok then old(Now().worker).next else old(Now().worker).onError)
      ensures old(broken) ==> broken
    {
      ok := Write(MarkIncomplete);
      if ok {
        assert Now().worker.ops == Closing(Unknown, source);
        ok := Close(Unknown, source);
      }
    }

    /** _recovery_unknown */
    method RecoveryUnknown() returns (flow: Flow)
      requires Linked() && At(GiveUp) && Recoverable()
      modifies this`run, this`clock, this`broken, store
      ensures Left(flow)
    {
      if Row().state != Disconnected {
        Decide(Idle);
        return Ended;
      }
      Decide(Do([MarkIncomplete] + Closing(Unknown, Some(Recovery)), Idle, Failed, None));
      var ok := MarkAndClose(Some(Recovery));
      flow := EndOr(ok);
    }

    // ------------------------------------------------------------ storing what was observed

    /** confirm_dispatch; the loop's own deadline starts after it. */
    method ConfirmDispatch(ghost rest: seq<Op>, before: Option<nat>) returns (ok: bool, deadline: Option<nat>)
      requires Linked() && Row().state == Dispatching
      requires Now().worker.Do? && Now().worker.ops == [Confirm] + rest
      requires Now().worker.next.Top? ==> Now().worker.next.w.mode == LiveMode(before)
      modifies this`run, this`clock, this`broken, store
      ensures Linked() && (old(broken) ==> broken)
      ensures ok ==> Row().state == Running
      ensures ok ==> At(old(Now().worker).(ops := rest, next := Rearmed(old(Now().worker).next, deadline)))
      ensures !ok ==> At(old(Now().worker).onError)
    {
      Yield();
      deadline := before;
      var fault := *;
      if fault {
        Break();
        return false, deadline;
      }
      deadline := TransactConfirm(rest, before);
      return true, deadline;
    }

    method TransactConfirm(ghost rest: seq<Op>, before: Option<nat>) returns (deadline: Option<nat>)
      requires Linked() && Row().state == Dispatching
      requires Now().worker.Do? && Now().worker.ops == [Confirm] + rest
      requires Now().worker.next.Top? ==> Now().worker.next.w.mode == LiveMode(before)
      modifies this`run, store
      ensures Linked() && Row().state == Running
      ensures At(old(Now().worker).(ops := rest, next := Rearmed(old(Now().worker).next, deadline)))
    {
      ghost var pc, w := Now().worker, Now().world;
      assert pc.ops[0] == Confirm && pc.ops[1..] == rest;
      deadline := before;
      var result := store.ConfirmDispatch(id, clock);
      if result.value.timeout.Some? {
        var later: nat :| later >= clock;
        deadline := Some(later + result.value.timeout.value);
      }
      Go(w.(rec := result.value), pc.(ops := rest, next := Rearmed(pc.next, deadline)));
    }

    method StoreOutput(output: Option<Output>, ghost rest: seq<Op>) returns (ok: bool)
      requires Linked() && IsObserved(Row().state) && Now().worker.Do?
      requires Now().worker.ops == (if output.Some? then [Append(output.value)] else []) + rest
      modifies this`run, this`clock, this`broken, store
      ensures Linked() && (old(broken) ==> broken) && Row().state == old(Row()).state
      ensures At(if ok then old(Now().worker).(ops := rest) else old(Now().worker).onError)
    {
      ok := true;
      if output.Some? {
        ok := Write(Append(output.value));
      }
    }

    method StoreEvidence(o: Observation, ghost rest: seq<Op>) returns (ok: bool)
      requires Linked() && IsObserved(Row().state) && Now().worker.Do?
      requires Now().worker.ops == (if CarriesEvidence(o) then [SaveEvidence(o)] else []) + rest
      modifies this`run, this`clock, this`broken, store
      ensures Linked() && (old(broken) ==> broken) && Row().state == old(Row()).state
      ensures At(if ok then old(Now().worker).(ops := rest) else old(Now().worker).onError)
    {
      ok := true;
      if CarriesEvidence(o) {
        ok := Write(SaveEvidence(o));
      }
    }

    method StoreEnding(o: Observation, source: CompletionSource) returns (ok: bool)
      requires Linked() && IsObserved(Row().state) && Now().worker.Do?
      requires Now().worker.ops == if o.terminal.Some? then Closing(o.terminal.value, Some(source)) else []
      requires o.terminal.Some? ==> IsTerminal(o.terminal.value) && Allows(Row().state, o.terminal.value)
      modifies this`run, this`clock, this`broken, store
      ensures Linked() && (old(broken) ==> broken)
      ensures At(if ok then old(Now().worker).next else old(Now().worker).onError)
      ensures o.terminal.Some? ==> Settled()
      ensures o.terminal.None? ==> ok && Row().state == old(Row()).state
    {
      if o.terminal.None? {
        Finish(Now().worker.next);
        return true;
      }
      ok := Close(o.terminal.value, Some(source));
    }

    // ------------------------------------------------------------ _run_one

    /** transport.interrupt */
    method Deliver(ghost w: Watch) returns (ok: bool)
      requires Linked() && At(Poke(w)) && Row().state != Queued
      modifies this`run, this`clock, store
      ensures Linked() && Row().state == old(Row()).state
      ensures At(if ok then Await(w) else Do([MarkIncomplete], AmbiguousMarked, Failed, None))
    {
      Yield();
      ok := *;
      if ok {
        Go(Now().world, Await(w));
      } else {
        Go(Now().world, Do([MarkIncomplete], AmbiguousMarked, Failed, None));
      }
    }

    /** The head of the observation loop: notice the end, a requested interrupt or the deadline. */
    method LiveHead(proof: ExecutionProof, interruptSent: bool, deadline: Option<nat>, ghost via: Identity) returns (flow: Flow, sent: bool)
      requires !undelivered
      requires Linked() && At(Top(LiveWatch(proof.Value(), interruptSent, deadline, via)))
      requires Row().state == LiveState(proof.dispatchConfirmed)
      modifies this`run, this`clock, this`broken, this`undelivered, store, proof`requestedTerminal
      ensures flow.GoOn? ==> Linked() && At(Await(LiveWatch(proof.Value(), sent, deadline, via))) && Row().state == old(Row()).state
      ensures !flow.GoOn? ==> Left(flow)
      ensures if flow.GoOn? then !undelivered else Noted(flow)
    {
      Yield();
      sent := interruptSent;
      ghost var w := LiveWatch(proof.Value(), interruptSent, deadline, via);
      flow := GoOn;
      if Row().requested.Some? && !interruptSent {
        sent := true;
        flow := LiveInterrupt(proof, Row().requested.value, deadline, via);
      } else if Reached(deadline, clock) && !interruptSent {
        sent := true;
        flow := LiveTimeout(proof, deadline, via);
      } else {
        Decide(Await(w));
      }
    }

    /** Pass on what the row requests. */
    method LiveInterrupt(proof: ExecutionProof, target: State, deadline: Option<nat>, ghost via: Identity) returns (flow: Flow)
      requires !undelivered
      requires Linked() && At(Top(LiveWatch(proof.Value(), false, deadline, via))) && Row().requested == Some(target)
      requires Row().state == LiveState(proof.dispatchConfirmed)
      modifies this`run, this`clock, this`broken, this`undelivered, store, proof`requestedTerminal
      ensures flow.GoOn? ==> Linked() && At(Await(LiveWatch(proof.Value(), true, deadline, via))) && Row().state == old(Row()).state
      ensures !flow.GoOn? ==> Left(flow)
      ensures if flow.GoOn? then !undelivered else Noted(flow)
    {
      ghost var w := LiveWatch(proof.Value(), false, deadline, via);
      var ok := proof.RequestInterrupt(target);
      if !ok {
        Raise(Failed);
        return Threw;
      }
      Decide(Poke(Interrupting(w, target)));
      flow := DeliverLive(LiveWatch(proof.Value(), true, deadline, via));
    }

    /** The loop's own deadline has passed. */
    method LiveTimeout(proof: ExecutionProof, deadline: Option<nat>, ghost via: Identity) returns (flow: Flow)
      requires !undelivered
      requires Linked() && At(Top(LiveWatch(proof.Value(), false, deadline, via))) && Row().requested.None?
      requires Row().state == LiveState(proof.dispatchConfirmed) && Reached(deadline, clock)
      modifies this`run, this`clock, this`broken, this`undelivered, store, proof`requestedTerminal
      ensures flow.GoOn? ==> Linked() && At(Await(LiveWatch(proof.Value(), true, deadline, via))) && Row().state == old(Row()).state
      ensures !flow.GoOn? ==> Left(flow)
      ensures if flow.GoOn? then !undelivered else Noted(flow)
    {
      ghost var w := LiveWatch(proof.Value(), false, deadline, via);
      var ok := DecideAndWrite(Do([RequestTimeout], Poke(Interrupting(w, TimedOut)), Failed, None), RequestTimeout);
      if !ok {
        return Threw;
      }
      ok := proof.RequestInterrupt(TimedOut);
      flow := DeliverLive(LiveWatch(proof.Value(), true, deadline, via));
    }

    method DeliverLive(ghost w: Watch) returns (flow: Flow)
      requires !undelivered
      requires Linked() && At(Poke(w)) && (Row().state == Running || Row().state == Dispatching)
      modifies this`run, this`clock, this`broken, this`undelivered, store
      ensures flow.GoOn? ==> Linked() && At(Await(w)) && Row().state == old(Row()).state
      ensures !flow.GoOn? ==> Left(flow)
      ensures if flow.GoOn? then !undelivered else Noted(flow)
    {
      flow := GoOn;
      var delivered := Deliver(w);
      if !delivered {
        undelivered := Row().state == Dispatching;
        flow := AmbiguousInterrupt();
      }
    }

    /** The rest of the loop's body: wait for an event, and store what it says. */
    method LivePoll(proof: ExecutionProof, interruptSent: bool, deadline: Option<nat>, ghost via: Identity)
      returns (flow: Flow, rearmed: Option<nat>)
      requires Linked() && At(Await(LiveWatch(proof.Value(), interruptSent, deadline, via)))
      requires Row().state == LiveState(proof.dispatchConfirmed)
      modifies this`run, this`clock, this`broken, store, proof
      ensures flow.GoOn? ==> Linked() && At(Top(LiveWatch(proof.Value(), interruptSent, rearmed, via)))
      ensures flow.GoOn? ==> Row().state == LiveState(proof.dispatchConfirmed)
      ensures !flow.GoOn? ==> Left(flow)
    {
      Yield();
      ghost var w := LiveWatch(proof.Value(), interruptSent, deadline, via);
      AwaitingIsSound(run, w);
      rearmed := deadline;
      var poll: Poll := *;
      match poll {
        case Quiet =>
          Go(Now().world, Top(w));
          return GoOn, rearmed;
        case Disconnect =>
          Go(Now().world, Lost(proof.dispatchConfirmed));
          flow := ConnectionLost(proof.dispatchConfirmed);
        case Got(event) =>
          Go(Watched(Now().world, w, event), OnEvent(w, event));
          var o := proof.Observe(event);
          if !o.matched {
            return GoOn, rearmed;
          }
          flow, rearmed := LiveStore(w, event, o, deadline);
      }
    }

    method LiveStore(ghost w: Watch, event: KernelEvent, o: Observation, deadline: Option<nat>) returns (flow: Flow, rearmed: Option<nat>)
      requires Linked() && At(OnEvent(w, event)) && Matches(event, w.proof.messageId) && o == Report(w.proof, event)
      requires w.mode == LiveMode(deadline) && Row().state == LiveState(w.proof.confirmed) && Stoppable(w.proof)
      modifies this`run, this`clock, this`broken, store
      ensures flow.GoOn? ==> Linked() && At(Top(w.(proof := Observed(w.proof, event), mode := LiveMode(rearmed)))) && Row().state == Running
      ensures !flow.GoOn? ==> Left(flow)
    {
      EventOps(w, event);
      ReportFacts(w.proof, event);
      ghost var evidence := (if CarriesEvidence(o) then [SaveEvidence(o)] else []) + EventClosing(w, event);
      var output := Normalize(event);
      ghost var outputs := (if output.Some? then [Append(output.value)] else []) + evidence;
      rearmed := deadline;
      var ok := true;
      if o.confirm {
        ok, rearmed := ConfirmDispatch(outputs, deadline);
        if !ok {
          return Threw, rearmed;
        }
      } else {
        assert Now().worker.ops == outputs;
      }
      ok := StoreOutput(output, evidence);
      if !ok {
        return Threw, rearmed;
      }
      ok := StoreEvidence(o, EventClosing(w, event));
      if !ok {
        return Threw, rearmed;
      }
      ok := StoreEnding(o, Live);
      flow := if ok && o.terminal.None? then GoOn else EndOr(ok);
    }

    /** The observation loop of _run_one. */
    method ObserveLive(message: MsgId, ghost via: Identity) returns (flow: Flow)
      requires !undelivered
      requires Linked() && At(Top(LiveWatch(Fresh(message), false, None, via))) && Row().state == Dispatching
      modifies this`run, this`clock, this`rounds, this`closed, this`broken, this`undelivered, store
      ensures Left(flow)
      ensures Noted(flow)
    {
      var proof := new ExecutionProof(message);
      var interruptSent, deadline := false, None;
      while true
        invariant Linked() && fresh(proof) && At(Top(LiveWatch(proof.Value(), interruptSent, deadline, via)))
        invariant Row().state == LiveState(proof.dispatchConfirmed)
        invariant !undelivered
        decreases rounds
      {
        flow, interruptSent, deadline := LiveRound(proof, interruptSent, deadline, via);
        if flow != GoOn {
          return;
        }
      }
    }

    method LiveRound(proof: ExecutionProof, interruptSent: bool, deadline: Option<nat>, ghost via: Identity)
      returns (flow: Flow, sent: bool, rearmed: Option<nat>)
      requires !undelivered
      requires Linked() && At(Top(LiveWatch(proof.Value(), interruptSent, deadline, via)))
      requires Row().state == LiveState(proof.dispatchConfirmed)
      modifies this`run, this`clock, this`rounds, this`closed, this`broken, this`undelivered, store, proof
      ensures flow.GoOn? ==> Linked() && At(Top(LiveWatch(proof.Value(), sent, rearmed, via)))
      ensures flow.GoOn? ==> Row().state == LiveState(proof.dispatchConfirmed) && rounds < old(rounds)
      ensures !flow.GoOn? ==> Left(flow)
      ensures if flow.GoOn? then !undelivered else Noted(flow)
    {
      var stop := Stopping();
      if stop {
        return Ended, interruptSent, deadline;
      }
      flow, sent, rearmed := LiveTurn(proof, interruptSent, deadline, via);
    }

    method LiveTurn(proof: ExecutionProof, interruptSent: bool, deadline: Option<nat>, ghost via: Identity)
      returns (flow: Flow, sent: bool, rearmed: Option<nat>)
      requires !undelivered
      requires Linked() && At(Top(LiveWatch(proof.Value(), interruptSent, deadline, via)))
      requires Row().state == LiveState(proof.dispatchConfirmed)
      modifies this`run, this`clock, this`broken, this`undelivered, store, proof
      ensures flow.GoOn? ==> Linked() && At(Top(LiveWatch(proof.Value(), sent, rearmed, via)))
      ensures flow.GoOn? ==> Row().state == LiveState(proof.dispatchConfirmed)
      ensures !flow.GoOn? ==> Left(flow)
      ensures if flow.GoOn? then !undelivered else Noted(flow)
    {
      rearmed := deadline;
      flow, sent := LiveHead(proof, interruptSent, deadline, via);
      if flow == GoOn {
        flow, rearmed := LivePoll(proof, sent, deadline, via);
      }
    }

    /** _run_one: nothing happens unless the execution is queued. */
    method RunOne() returns (flow: Flow)
      requires !undelivered
      requires Linked() && At(Idle)
      modifies this`run, this`clock, this`rounds, this`closed, this`broken, this`undelivered, store
      ensures if old(Row()).state == Queued then Left(flow)
              else flow == Ended && Linked() && At(Idle) && Row().state == old(Row()).state
      ensures Noted(flow)
    {
      Yield();
      if Row().state != Queued {
        return Ended;
      }
      Extend(Now().(worker := Loaded));
      var code: Option<Bytes>;
      flow, code := LoadSource();
      if flow == GoOn {
        flow := Dispatch(code.value);
      }
    }

    /** The stored text, if the session still exists and the text is sound. */
    method LoadSource() returns (flow: Flow, code: Option<Bytes>)
      requires Linked() && At(Loaded) && Row().state == Queued
      modifies this`run, this`clock, this`broken, store
      ensures flow.GoOn? ==> code.Some? && Linked() && At(Prepared(code.value)) && Row().state == Queued
      ensures !flow.GoOn? ==> Left(flow)
    {
      Yield();
      var sessionFound := *;
      var source := store.ReadSource(id);
      if !sessionFound || (source.Ok? && !Utf8.WellFormed(source.value)) {
        Go(Now().world, Do(Closing(Interrupted, Some(Live)), Idle, Failed, None));
        var ok := Close(Interrupted, Some(Live));
        return EndOr(ok), None;
      }
      if source.Err? {
        Raise(Failed);
        return Threw, None;
      }
      Go(Now().world, Prepared(source.value));
      return GoOn, Some(source.value);
    }

    /** Connect, commit the dispatch, and only then send. */
    method Dispatch(code: Bytes) returns (flow: Flow)
      requires !undelivered
      requires Linked() && At(Prepared(code)) && Row().state == Queued
      modifies this`run, this`clock, this`rounds, this`closed, this`broken, this`undelivered, store
      ensures Left(flow)
      ensures Noted(flow)
    {
      Yield();
      var message: MsgId := *;
      var endpoint: string, kernel: string, jupyter: string := *, *, *;
      var via := Identity(Some(endpoint), Some(kernel), Some(jupyter));
      var connected: bool := *;
      var begun := false;
      if connected {
        begun := BeginDispatch(message, code, via);
      }
      if begun {
        flow := Send(message, code, via);
      } else {
        Raise(SendFailed);
        flow := DispatchFailed();
      }
    }

    method BeginDispatch(message: MsgId, code: Bytes, via: Identity) returns (ok: bool)
      requires Linked() && At(Prepared(code)) && via.endpoint.Some? && via.kernel.Some? && via.jupyter.Some?
      modifies this`run, store
      ensures Linked()
      ensures if ok then At(ToSend(message, code, via)) && Row().state == Dispatching
              else At(Prepared(code)) && Row() == old(Row())
    {
      var fault: bool := *;
      if fault {
        return false;
      }
      ghost var w := Now().world;
      var result := store.BeginDispatch(id, message, via);
      ok := result.Ok?;
      if ok {
        Go(w.(rec := result.value), ToSend(message, code, via));
      }
    }

    /** transport.send: when it raises, the request may or may not have left. */
    method Send(message: MsgId, code: Bytes, via: Identity) returns (flow: Flow)
      requires !undelivered
      requires Linked() && At(ToSend(message, code, via)) && Row().state == Dispatching
      modifies this`run, this`clock, this`rounds, this`closed, this`broken, this`undelivered, store
      ensures Left(flow)
      ensures Noted(flow)
    {
      Yield();
      ghost var sent := Now().world.(wire := Now().world.wire + [ExecuteRequest(message, code)]);
      var raised: bool := *;
      if raised {
        flow := SendRaises(message, code, via);
      } else {
        Go(sent, Top(LiveWatch(Fresh(message), false, None, via)));
        flow := ObserveLive(message, via);
      }
    }

    method SendRaises(message: MsgId, code: Bytes, via: Identity) returns (flow: Flow)
      requires Linked() && At(ToSend(message, code, via)) && Row().state == Dispatching
      modifies this`run, this`clock, this`broken, store
      ensures Left(flow)
    {
      var left: bool := *;
      if left {
        Go(Now().world.(wire := Now().world.wire + [ExecuteRequest(message, code)]), SendFailed);
      } else {
        Raise(SendFailed);
      }
      flow := DispatchFailed();
    }

    // ------------------------------------------------------------ _recover_one

    /** _recover_one: look the session up, reconnect, ask for kernel info, watch; never send the request again. */
    method RecoverOne() returns (flow: Flow)
      requires Linked() && At(Recovering) && Recoverable()
      modifies this`run, this`clock, this`rounds, this`closed, this`broken, store
      ensures Left(flow) && !flow.Again?
    {
      while true
        invariant Linked() && At(Recovering) && Recoverable()
        decreases rounds
      {
        var stop := Stopping();
        if stop {
          return Ended;
        }
        Yield();
        if Row().state != Disconnected {
          Decide(Idle);
          return Ended;
        }
        flow := Reconnect();
        if flow != Again {
          return;
        }
      }
    }

    /** What the lookup and the connection found. */
    ghost method Found(record: Record, found: Option<Identity>, infoId: MsgId)
      requires Linked() && At(Connecting(record))
      modifies this`run
      ensures Linked() && At(OnReconnect(record, found, infoId)) && Now().world == old(Now().world)
    {
      Go(Now().world, OnReconnect(record, found, infoId));
    }

    /** _restored_proof; not ok where restore raises. */
    method RestoredProof(record: Record) returns (ok: bool, proof: ExecutionProof)
      requires record.messageId.Some?
      ensures fresh(proof)
      ensures ok ==> proof.Value() == Restored(record.messageId.value, record.confirmed, record.evidence, record.errorValue, record.requested)
    {
      proof := new ExecutionProof(record.messageId.value);
      ok := proof.Restore(record.confirmed, record.evidence, record.errorValue, record.requested);
    }

    /** One attempt. */
    method Reconnect() returns (flow: Flow)
      requires Linked() && At(Recovering) && Row().state == Disconnected
      modifies this`run, this`clock, this`rounds, this`closed, this`broken, store
      ensures rounds <= old(rounds)
      ensures Left(flow)
    {
      var record := Row();
      Decide(Connecting(record));
      Yield();
      flow := Connect(record);
    }

    /** Only the kernel the request was sent to, in the session it was sent from, will do. */
    method Connect(record: Record) returns (flow: Flow)
      requires Linked() && At(Connecting(record)) && Row().state == Disconnected
      modifies this`run, this`clock, this`rounds, this`closed, this`broken, store
      ensures rounds <= old(rounds)
      ensures Left(flow)
    {
      var endpoint: Option<string> := *;
      var connected: bool := *;
      var kernel: string, jupyter: string := *, *;
      var via := Identity(endpoint, Some(kernel), Some(jupyter));
      if endpoint.None? || record.identity.endpoint != endpoint {
        Found(record, if endpoint.None? then None else Some(via), 0);
        flow := RecoveryUnknown();
        return;
      }
      if !connected {
        Go(Now().world, Recovering);
        return Again;
      }
      if record.identity != via {
        Found(record, Some(via), 0);
        flow := RecoveryUnknown();
        return;
      }
      flow := AskAndWatch(record, via);
    }

    method AskAndWatch(record: Record, via: Identity) returns (flow: Flow)
      requires Linked() && At(Connecting(record)) && Row().state == Disconnected
      requires record.identity == via && via.endpoint.Some? && via.kernel.Some? && via.jupyter.Some?
      modifies this`run, this`clock, this`rounds, this`closed, this`broken, store
      ensures rounds <= old(rounds)
      ensures Left(flow)
    {
      SnapshotIsDispatched(run, record);
      var infoId: MsgId := *;
      var idleProof := new KernelIdleProof(infoId);
      var restored, proof := RestoredProof(record);
      if !restored {
        Go(Now().world, Recovering);
        return Again;
      }
      Found(record, Some(via), infoId);
      flow := CountAndAsk(proof, idleProof, via);
    }

    method CountAndAsk(proof: ExecutionProof, idleProof: KernelIdleProof, ghost via: Identity) returns (flow: Flow)
      requires Linked() && Row().state == Disconnected
      requires At(Do([CountReconnect], SendInfo(RecoveryWatch(proof.Value(), false, idleProof.Value(), via)), Recovering, None))
      modifies this`run, this`clock, this`rounds, this`closed, this`broken, store, proof, idleProof
      ensures rounds <= old(rounds)
      ensures Left(flow)
    {
      var counted := WriteOnly(CountReconnect);
      if !counted {
        return Again;
      }
      flow := Ask(proof, idleProof, via);
    }

    /** Send the kernel-info request and watch. */
    method Ask(proof: ExecutionProof, idleProof: KernelIdleProof, ghost via: Identity) returns (flow: Flow)
      requires Linked() && At(SendInfo(RecoveryWatch(proof.Value(), false, idleProof.Value(), via))) && Row().state == Disconnected
      modifies this`run, this`clock, this`rounds, this`closed, this`broken, store, proof, idleProof
      ensures rounds <= old(rounds)
      ensures Left(flow)
    {
      Yield();
      ghost var w := RecoveryWatch(proof.Value(), false, idleProof.Value(), via);
      ghost var asked := Now().world.(wire := Now().world.wire + [KernelInfoRequest(idleProof.messageId)]);
      var raised: bool := *;
      if raised {
        var left: bool := *;
        Go(if left then asked else Now().world, Recovering);
        return Again;
      }
      Go(asked, Top(w));
      flow := ObserveRecovery(proof, idleProof, via);
    }

    /** The observation loop of _recover_one. */
    method ObserveRecovery(proof: ExecutionProof, idleProof: KernelIdleProof, ghost via: Identity) returns (flow: Flow)
      requires Linked() && At(Top(RecoveryWatch(proof.Value(), false, idleProof.Value(), via))) && Row().state == Disconnected
      modifies this`run, this`clock, this`rounds, this`closed, this`broken, store, proof, idleProof
      ensures rounds <= old(rounds)
      ensures Left(flow)
    {
      var interruptSent := false;
      while true
        invariant rounds <= old(rounds)
        invariant Linked() && At(Top(RecoveryWatch(proof.Value(), interruptSent, idleProof.Value(), via))) && Recoverable()
        decreases rounds
      {
        flow, interruptSent := RecoveryRound(proof, idleProof, interruptSent, via);
        if flow != GoOn {
          return;
        }
      }
    }

    method RecoveryRound(proof: ExecutionProof, idleProof: KernelIdleProof, interruptSent: bool, ghost via: Identity)
      returns (flow: Flow, sent: bool)
      requires Linked() && At(Top(RecoveryWatch(proof.Value(), interruptSent, idleProof.Value(), via))) && Recoverable()
      modifies this`run, this`clock, this`rounds, this`closed, this`broken, store, proof, idleProof
      ensures rounds <= old(rounds)
      ensures flow.GoOn? ==> Linked() && At(Top(RecoveryWatch(proof.Value(), sent, idleProof.Value(), via))) && Recoverable()
      ensures flow.GoOn? ==> rounds < old(rounds)
      ensures !flow.GoOn? ==> Left(flow)
    {
      var stop := Stopping();
      if stop {
        return Ended, interruptSent;
      }
      flow, sent := RecoveryTurn(proof, idleProof, interruptSent, via);
    }

    method RecoveryTurn(proof: ExecutionProof, idleProof: KernelIdleProof, interruptSent: bool, ghost via: Identity)
      returns (flow: Flow, sent: bool)
      requires Linked() && At(Top(RecoveryWatch(proof.Value(), interruptSent, idleProof.Value(), via))) && Recoverable()
      modifies this`run, this`clock, this`broken, store, proof, idleProof
      ensures flow.GoOn? ==> Linked() && At(Top(RecoveryWatch(proof.Value(), sent, idleProof.Value(), via))) && Recoverable()
      ensures !flow.GoOn? ==> Left(flow)
    {
      flow, sent := RecoveryHead(proof, idleProof, interruptSent, via);
      if flow == GoOn {
        flow := RecoveryPoll(proof, idleProof, sent, via);
      }
    }

    method RecoveryHead(proof: ExecutionProof, idleProof: KernelIdleProof, interruptSent: bool, ghost via: Identity)
      returns (flow: Flow, sent: bool)
      requires Linked() && At(Top(RecoveryWatch(proof.Value(), interruptSent, idleProof.Value(), via))) && Recoverable()
      modifies this`run, this`clock, this`broken, store, proof`requestedTerminal
      ensures flow.GoOn? ==> Linked() && At(Await(RecoveryWatch(proof.Value(), sent, idleProof.Value(), via))) && Row().state == Disconnected
      ensures !flow.GoOn? ==> Left(flow)
    {
      Yield();
      ghost var w := RecoveryWatch(proof.Value(), interruptSent, idleProof.Value(), via);
      sent := interruptSent;
      if Row().state != Disconnected {
        Decide(Idle);
        return Ended, sent;
      }
      var ok := RecoveryDeadline(w);
      if !ok {
        return Threw, sent;
      }
      flow, sent := RecoveryInterrupt(proof, idleProof, interruptSent, via);
    }

    /** Request a timeout once the durable deadline has passed. */
    method RecoveryDeadline(ghost w: Watch) returns (ok: bool)
      requires Linked() && At(Top(w)) && w.mode.RecoveryMode? && Row().state == Disconnected
      modifies this`run, this`clock, this`broken, store
      ensures !ok ==> Left(Threw)
      ensures ok ==> Linked() && Row().state == Disconnected && Decision(Row(), clock, Now().worker) == Some(AtReread(Row(), w))
      ensures ok ==> Now().worker.Top? || Now().worker.Reread?
    {
      ok := true;
      if Row().requested.None? && Reached(Row().deadline, clock) {
        ok := DecideAndWrite(Do([RequestTimeout], Reread(w), Failed, None), RequestTimeout);
      } else {
        RereadIsTop(Row(), clock, w);
      }
    }

    /** Pass on a requested interrupt, once. */
    method RecoveryInterrupt(proof: ExecutionProof, idleProof: KernelIdleProof, interruptSent: bool, ghost via: Identity)
      returns (flow: Flow, sent: bool)
      requires Linked() && Row().state == Disconnected
      requires var w := RecoveryWatch(proof.Value(), interruptSent, idleProof.Value(), via);
               Decision(Row(), clock, Now().worker) == Some(AtReread(Row(), w)) && (Now().worker.Top? || Now().worker.Reread?)
      modifies this`run, this`clock, this`broken, store, proof`requestedTerminal
      ensures flow.GoOn? ==> Linked() && At(Await(RecoveryWatch(proof.Value(), sent, idleProof.Value(), via))) && Row().state == Disconnected
      ensures !flow.GoOn? ==> Left(flow)
    {
      ghost var w := RecoveryWatch(proof.Value(), interruptSent, idleProof.Value(), via);
      sent := interruptSent;
      var requested := Row().requested;
      if requested.None? || interruptSent {
        Decide(Await(w));
        return GoOn, sent;
      }
      var ok := proof.RequestInterrupt(requested.value);
      if !ok {
        Raise(Failed);
        return Threw, sent;
      }
      sent := true;
      Decide(Poke(Interrupting(w, requested.value)));
      flow := GoOn;
      var delivered := Deliver(RecoveryWatch(proof.Value(), true, idleProof.Value(), via));
      if !delivered {
        flow := AmbiguousInterrupt();
      }
    }

    method RecoveryPoll(proof: ExecutionProof, idleProof: KernelIdleProof, interruptSent: bool, ghost via: Identity)
      returns (flow: Flow)
      requires Linked() && At(Await(RecoveryWatch(proof.Value(), interruptSent, idleProof.Value(), via))) && Row().state == Disconnected
      modifies this`run, this`clock, this`broken, store, proof, idleProof
      ensures flow.GoOn? ==> Linked() && At(Top(RecoveryWatch(proof.Value(), interruptSent, idleProof.Value(), via))) && Recoverable()
      ensures !flow.GoOn? ==> Left(flow)
    {
      Yield();
      ghost var w := RecoveryWatch(proof.Value(), interruptSent, idleProof.Value(), via);
      AwaitingIsSound(run, w);
      var poll: Poll := *;
      match poll {
        case Quiet =>
          Go(Now().world, Top(w));
          return GoOn;
        case Disconnect =>
          Go(Now().world, Recovering);
          return Again;
        case Got(event) =>
          Go(Watched(Now().world, w, event), OnEvent(w, event));
          flow := RecoveryEvent(w, event, proof, idleProof);
      }
    }

    method RecoveryEvent(ghost w: Watch, event: KernelEvent, proof: ExecutionProof, idleProof: KernelIdleProof)
      returns (flow: Flow)
      requires Linked() && At(OnEvent(w, event)) && Row().state == Disconnected && Stoppable(proof.Value())
      requires w == RecoveryWatch(proof.Value(), w.interruptSent, idleProof.Value(), w.via)
      modifies this`run, this`clock, this`broken, store, proof, idleProof
      ensures flow.GoOn? ==> Linked() && At(Top(RecoveryWatch(proof.Value(), w.interruptSent, idleProof.Value(), w.via))) && Recoverable()
      ensures !flow.GoOn? ==> Left(flow)
    {
      var o := proof.Observe(event);
      flow := GoOn;
      if o.matched {
        flow := RecoveryStore(w, event, o);
      }
      if flow == GoOn {
        var _ := idleProof.Observe(event);
        if idleProof.replyReceived && idleProof.idleReceived {
          flow := RecoveryUnknown();
        }
      }
    }

    method RecoveryStore(ghost w: Watch, event: KernelEvent, o: Observation) returns (flow: Flow)
      requires Linked() && At(OnEvent(w, event)) && Matches(event, w.proof.messageId) && o == Report(w.proof, event)
      requires w.mode.RecoveryMode? && Row().state == Disconnected && Stoppable(w.proof)
      modifies this`run, this`clock, this`broken, store
      ensures flow.GoOn? ==> Linked() && At(EventNext(w, event)) && o.terminal.None? && Row().state == Disconnected
      ensures !flow.GoOn? ==> Left(flow)
    {
      EventOps(w, event);
      ReportFacts(w.proof, event);
      ghost var evidence := (if CarriesEvidence(o) then [SaveEvidence(o)] else []) + EventClosing(w, event);
      var output := Normalize(event);
      assert Now().worker.ops == (if output.Some? then [Append(output.value)] else []) + evidence;
      var ok := StoreOutput(output, evidence);
      if !ok {
        return Threw;
      }
      ok := StoreEvidence(o, EventClosing(w, event));
      if !ok {
        return Threw;
      }
      ok := StoreEnding(o, Recovery);
      flow := if ok && o.terminal.None? then GoOn else EndOr(ok);
    }

    // ------------------------------------------------------------ the whole

    /**
     One work item, with the handler for exceptions. A queued or disconnected execution is brought
     to an end, unless the thread is closed, the store fails, or an interrupt cannot be delivered
     before the request is confirmed.
     */
    method Serve()
      requires !undelivered
      requires Linked() && At(Idle) && (Row().state == Queued || Row().state == Disconnected)
      modifies this`run, this`clock, this`rounds, this`closed, this`broken, this`undelivered, store
      ensures Linked() && At(Idle) && IsRun(run) && history <= run
      ensures closed || broken || if undelivered then Row().state == Dispatching else IsTerminal(Row().state)
    {
      var flow := Again;
      if Row().state == Queued {
        flow := RunOne();
      } else {
        Extend(Now().(worker := Recovering));
      }
      Conclude(flow);
      AllFollowIsRun(run);
    }

    /** Recovery, where _run_one went on with it, and the handler. */
    method Conclude(flow: Flow)
      requires Left(flow) && Noted(flow)
      modifies this`run, this`clock, this`rounds, this`closed, this`broken, store
      ensures Linked() && At(Idle)
      ensures closed || broken || if undelivered then Row().state == Dispatching else IsTerminal(Row().state)
    {
      var last := flow;
      if flow == Again {
        last := RecoverOne();
      }
      if last == Threw {
        InternalFailure();
      }
    }
  }

  function RecoveryWatch(proof: ProofState, interruptSent: bool, idle: (MsgId, bool, bool), via: Identity): Watch {
    Watch(proof, interruptSent, RecoveryMode(idle.0, (idle.1, idle.2)), via)
  }

  lemma RereadIsTop(r: Record, clock: nat, w: Watch)
    requires r.state == Disconnected && w.mode.RecoveryMode? && (r.requested.Some? || !Reached(r.deadline, clock))
    ensures AtTop(r, clock, w) == AtReread(r, w)
  {
  }

  lemma SnapshotIsDispatched(run: seq<Exec>, record: Record)
    requires AllFollow(run) && run[|run| - 1].worker == Connecting(record) && run[|run| - 1].world.rec.state == Disconnected
    ensures record.messageId.Some?
  {
    AllFollowIsRun(run);
    RunInv(run, |run| - 1);
  }

  /** A loop's locals as the machine's program point has them. */
  function LiveWatch(proof: ProofState, interruptSent: bool, deadline: Option<nat>, via: Identity): Watch {
    Watch(proof, interruptSent, LiveMode(deadline), via)
  }

  function LiveState(confirmed: bool): State {
    if confirmed then Running else Dispatching
  }

  lemma ReportFacts(p: ProofState, e: KernelEvent)
    requires Matches(e, p.messageId)
    ensures Report(p, e).confirm == !p.confirmed && Observed(p, e).confirmed
    ensures var to := Report(p, e).terminal;
            to.Some? && Stoppable(p) ==>
              IsTerminal(to.value) && Allows(Running, to.value) && Allows(Disconnected, to.value)
  {
  }

  /** The loop goes on with a new deadline. */
  function Rearmed(next: Pc, deadline: Option<nat>): Pc {
    if next.Top? then Top(next.w.(mode := LiveMode(deadline))) else next
  }

  lemma EventOps(w: Watch, e: KernelEvent)
    requires Matches(e, w.proof.messageId)
    ensures var o := Report(w.proof, e);
            var outputs := if Normalize(e).Some? then [Append(Normalize(e).value)] else [];
            var evidence := if CarriesEvidence(o) then [SaveEvidence(o)] else [];
            EventWrites(w, e) + EventClosing(w, e)
            == (if w.mode.LiveMode? && o.confirm then [Confirm] else []) + (outputs + (evidence + EventClosing(w, e)))
  {
  }
}