/**
 How an execution can be left behind: which steps of the machine end the worker's activity on an
 execution that is not over, what the completeness flag of an UNKNOWN execution says, and what a
 restart makes of an execution that was about to be closed.
 */
module Endings {
  import opened Wrappers
  import opened Lifecycle
  import opened KernelProof
  import opened Outputs
  import opened Storage
  import opened KernelWorker
  import opened WorkerSafety
  import opened WorkerRuns

  // ---------------------------------------------------------------- steps that abandon an execution

  /** The worker is closed at a loop head, where it would not have returned by itself. */
  ghost predicate IsClosing(x: Exec, y: Exec) {
    && (x.worker.Top? || x.worker.Recovering? || x.worker.Connecting?)
    && y == x.(worker := Idle)
    && Decision(x.world.rec, x.world.clock, x.worker) != Some(Idle)
  }

  /** An interrupt could not be delivered, and the request is not confirmed. */
  ghost predicate IsUndelivered(x: Exec, y: Exec) {
    x.worker.Poke? && x.world.rec.state == Dispatching && y == x.(worker := Do([MarkIncomplete], AmbiguousMarked, Failed, None))
  }

  ghost predicate Abandons(x: Exec, y: Exec) {
    IsClosing(x, y) || IsUndelivered(x, y)
  }

  /** The failure handler fails itself. */
  ghost predicate HandlerFails(x: Exec, y: Exec) {
    && y == x.(worker := Idle)
    && match x.worker
       case Failed => Decision(x.world.rec, x.world.clock, x.worker) != Some(Idle)
       case FailedDisconnected => Decision(x.world.rec, x.world.clock, x.worker) != Some(Idle)
       case Do(ops, next, onError, _) => onError == Idle && (ops != [] || next != Idle)
       case _ => false
  }

  // ---------------------------------------------------------------- where the worker can be, by state

  /** The state after writes that all succeed. */
  function StateBy(s: State, op: Op): State {
    match op
    case Confirm => Running
    case Move(to, _) => to
    case _ => s
  }

  function StateAfter(s: State, ops: seq<Op>): State
    decreases |ops|
  {
    if ops == [] then s else StateAfter(StateBy(s, ops[0]), ops[1..])
  }

  predicate OverOr(s: State, t: State) {
    s == t || IsTerminal(s)
  }

  predicate Watchable(s: State, w: Watch) {
    if w.mode.RecoveryMode? then OverOr(s, Disconnected)
    else if w.proof.confirmed then IsObserved(s) || IsTerminal(s)
    else OverOr(s, Dispatching)
  }

  /** In this state the worker may be at this point, outside the failure handler. */
  predicate Bound(s: State, pc: Pc)
    decreases pc
  {
    match pc
    case Idle => IsTerminal(s)
    case Loaded => OverOr(s, Queued)
    case Prepared(_) => OverOr(s, Queued)
    case ToSend(_, _, _) => OverOr(s, Dispatching)
    case SendFailed => s == Queued || OverOr(s, Dispatching)
    case Top(w) => Watchable(s, w)
    case Reread(w) => Watchable(s, w)
    case Poke(w) => Watchable(s, w)
    case Await(w) => Watchable(s, w)
    case SendInfo(w) => w.mode.RecoveryMode? && Watchable(s, w)
    case Lost(confirmed) => if confirmed then IsObserved(s) || IsTerminal(s) else OverOr(s, Dispatching)
    case LostMarked => IsObserved(s) || IsTerminal(s)
    case AfterLost => OverOr(s, Disconnected)
    case AmbiguousMarked => IsObserved(s) || IsTerminal(s)
    case AmbiguousDisconnected => OverOr(s, Disconnected)
    case Recovering => OverOr(s, Disconnected)
    case Connecting(_) => OverOr(s, Disconnected)
    case GiveUp => OverOr(s, Disconnected)
    case Failed => true
    case Do(ops, next, onError, _) =>
      && (onError.Failed? || (onError.Recovering? && OverOr(s, Disconnected) && (ops == [] || ops == [CountReconnect])))
      && !next.Do? && Bound(StateAfter(s, ops), next)
    case _ => false
  }

  /** The same inside the failure handler. */
  predicate HandlerBound(s: State, pc: Pc) {
    match pc
    case Failed => true
    case FailedDisconnected => OverOr(s, Disconnected)
    case Do(ops, next, onError, _) =>
      && onError == Idle
      && (next.FailedDisconnected? || next.Idle?)
      && (if next.Idle? then IsTerminal(StateAfter(s, ops)) else OverOr(StateAfter(s, ops), Disconnected))
    case _ => false
  }

  // ---------------------------------------------------------------- what others do to the state

  predicate Drifts(s: State, t: State) {
    t == s || IsTerminal(t) || (s == Running && t == Disconnected)
  }

  lemma {:induction false} StateAfterDrift(s: State, t: State, ops: seq<Op>)
    ensures StateAfter(t, ops) == StateAfter(s, ops) || (StateAfter(s, ops) == s && StateAfter(t, ops) == t)
    decreases |ops|
  {
    if ops != [] {
      StateAfterDrift(StateBy(s, ops[0]), StateBy(t, ops[0]), ops[1..]);
    }
  }

  lemma PointDrifts(s: State, t: State, pc: Pc)
    requires Drifts(s, t) && Bound(s, pc) && !pc.Do?
    ensures Bound(t, pc)
  {
  }

  lemma BoundDrifts(s: State, t: State, pc: Pc)
    requires Drifts(s, t) && Bound(s, pc)
    ensures Bound(t, pc)
  {
    if pc.Do? {
      StateAfterDrift(s, t, pc.ops);
      PointDrifts(StateAfter(s, pc.ops), StateAfter(t, pc.ops), pc.next);
    } else {
      PointDrifts(s, t, pc);
    }
  }

  lemma HandlerDrifts(s: State, t: State, pc: Pc)
    requires Drifts(s, t) && HandlerBound(s, pc)
    ensures HandlerBound(t, pc)
  {
    if pc.Do? {
      StateAfterDrift(s, t, pc.ops);
    }
  }

  /** What the controller thread writes. */
  predicate IsControlOp(op: Op) {
    op.MarkIncomplete? || op.FinalizeOutput? || (op.Move? && !op.to.Dispatching? && !op.to.Running? && !op.to.Queued? && !op.to.Created?)
  }

  predicate ControlWrites(pc: Pc) {
    pc.Do? ==> forall op <- pc.ops :: IsControlOp(op)
  }

  lemma CancelDrifts(r: Record, now: nat)
    ensures Apply(RequestCancel, r, now).Ok? && Drifts(r.state, Apply(RequestCancel, r, now).value.state)
    ensures Apply(RequestCancel, r, now).value.evidence == r.evidence
    ensures Apply(RequestCancel, r, now).value.messageId == r.messageId
  {
  }

  lemma ControlOpDrifts(op: Op, r: Record, now: nat)
    requires IsControlOp(op)
    ensures Apply(op, r, now).Ok? ==>
              && Drifts(r.state, Apply(op, r, now).value.state) && Apply(op, r, now).value.state == StateBy(r.state, op)
              && Apply(op, r, now).value.evidence == r.evidence && Apply(op, r, now).value.messageId == r.messageId
  {
  }

  /** A step of the controller thread. */
  lemma ControlDrifts(w: World, pc: Pc, v: World, q: Pc)
    requires (IsForcePoint(pc) || IsBootPoint(pc)) && ControlWrites(pc) && PcStep(w, pc, v, q)
    ensures Drifts(w.rec.state, v.rec.state) && v.rec.evidence == w.rec.evidence && v.rec.messageId == w.rec.messageId
  {
    if v.rec != w.rec {
      if pc.Do? {
        assert pc.ops[0] in pc.ops;
        ControlOpDrifts(pc.ops[0], w.rec, w.clock);
      } else {
        ControlDecides(w, pc, v, q);
      }
    }
  }

  lemma ControlDecides(w: World, pc: Pc, v: World, q: Pc)
    requires (IsForcePoint(pc) || IsBootPoint(pc)) && !pc.Do?
    ensures !ActionStep(w, pc, v, q)
  {
  }

  // ---------------------------------------------------------------- the worker's own steps

  lemma {:induction false} StateAfterConcat(s: State, xs: seq<Op>, ys: seq<Op>)
    ensures StateAfter(s, xs + ys) == StateAfter(StateAfter(s, xs), ys)
    decreases |xs|
  {
    if xs == [] {
      assert xs + ys == ys;
    } else {
      assert (xs + ys)[1..] == xs[1..] + ys;
      StateAfterConcat(StateBy(s, xs[0]), xs[1..], ys);
    }
  }

  lemma StateAfterOne(s: State, op: Op)
    ensures StateAfter(s, [op]) == StateBy(s, op)
  {
    assert [op][1..] == [];
  }

  lemma StateAfterClosing(s: State, to: State, source: Option<CompletionSource>)
    ensures StateAfter(s, Closing(to, source)) == to
    ensures StateAfter(s, [MarkIncomplete] + Closing(to, source)) == to
  {
    assert Closing(to, source)[1..] == [Move(to, source)];
    StateAfterOne(s, Move(to, source));
    assert ([MarkIncomplete] + Closing(to, source))[1..] == Closing(to, source);
  }

  lemma StateAfterEvent(s: State, w: Watch, e: KernelEvent)
    ensures StateAfter(s, EventWrites(w, e)) == if w.mode.LiveMode? && Report(w.proof, e).confirm then Running else s
  {
    var o := Report(w.proof, e);
    var confirms := if w.mode.LiveMode? && o.confirm then [Confirm] else [];
    var appends := if Normalize(e).Some? then [Append(Normalize(e).value)] else [];
    var saves := if CarriesEvidence(o) then [SaveEvidence(o)] else [];
    StateAfterConcat(s, confirms + appends, saves);
    StateAfterConcat(s, confirms, appends);
    StateAfterOne(s, Confirm);
    var t := StateAfter(s, confirms);
    if appends != [] {
      StateAfterOne(t, appends[0]);
    }
    if saves != [] {
      StateAfterOne(t, saves[0]);
    }
  }

  lemma EventBound(s: State, w: Watch, e: KernelEvent)
    requires Watchable(s, w)
    requires Report(w.proof, e).terminal.Some? ==> IsTerminal(Report(w.proof, e).terminal.value)
    ensures Bound(s, OnEvent(w, e))
  {
    if Matches(e, w.proof.messageId) {
      StateAfterConcat(s, EventWrites(w, e), EventClosing(w, e));
      StateAfterEvent(s, w, e);
      var o := Report(w.proof, e);
      if o.terminal.Some? {
        StateAfterClosing(StateAfter(s, EventWrites(w, e)), o.terminal.value, Some(if w.mode.LiveMode? then Live else Recovery));
      }
    }
  }

  /** A verdict is a terminal state, given what may have been requested. */
  lemma VerdictEnds(w: World, watch: Watch, e: KernelEvent)
    requires RequestOk(w, watch.proof.requested)
    ensures Report(watch.proof, e).terminal.Some? ==> IsTerminal(Report(watch.proof, e).terminal.value)
  {
  }

  lemma HeadBound(r: Record, clock: nat, w: Watch)
    requires Watchable(r.state, w)
    ensures Bound(r.state, AtTop(r, clock, w)) && (w.mode.RecoveryMode? ==> Bound(r.state, AtReread(r, w)))
  {
    StateAfterOne(r.state, RequestTimeout);
  }

  lemma LossBound(r: Record, clock: nat, pc: Pc)
    requires Bound(r.state, pc)
    requires pc.Lost? || pc.LostMarked? || pc.AfterLost? || pc.AmbiguousMarked? || pc.AmbiguousDisconnected?
    ensures Bound(r.state, Decision(r, clock, pc).value)
  {
    if pc.Lost? || pc.AmbiguousDisconnected? {
      GivenUpBound(r, clock, pc);
    } else {
      StateAfterOne(r.state, Move(Disconnected, None));
    }
  }

  lemma GivenUpBound(r: Record, clock: nat, pc: Pc)
    requires Bound(r.state, pc) && (pc.Lost? || pc.AmbiguousDisconnected?)
    ensures Bound(r.state, Decision(r, clock, pc).value)
  {
    StateAfterClosing(r.state, Unknown, Some(Live));
    StateAfterOne(r.state, MarkIncomplete);
  }

  lemma OtherBound(r: Record, clock: nat, pc: Pc)
    requires Bound(r.state, pc) && (pc.SendFailed? || pc.Recovering? || pc.GiveUp?)
    ensures Bound(r.state, Decision(r, clock, pc).value)
  {
    StateAfterClosing(r.state, Unknown, Some(Live));
    StateAfterClosing(r.state, Unknown, Some(Recovery));
    StateAfterClosing(r.state, Interrupted, Some(Live));
  }

  lemma DecisionBound(w: World, pc: Pc)
    requires PcOk(w, pc) && Bound(w.rec.state, pc) && !pc.Failed? && Decision(w.rec, w.clock, pc).Some?
    ensures Bound(w.rec.state, Decision(w.rec, w.clock, pc).value)
  {
    if pc.Top? || pc.Reread? {
      HeadBound(w.rec, w.clock, pc.w);
    } else if pc.SendFailed? || pc.Recovering? || pc.GiveUp? {
      OtherBound(w.rec, w.clock, pc);
    } else {
      LossBound(w.rec, w.clock, pc);
    }
  }

  lemma WriteBound(w: World, pc: Pc, v: World, q: Pc)
    requires pc.Do? && PcOk(w, pc) && DoStep(w, pc, v, q)
    requires Bound(w.rec.state, pc)
    ensures Bound(v.rec.state, q)
  {
    if pc.ops != [] && Apply(pc.ops[0], w.rec, w.clock).Ok? {
      FirstIsOrdinary(w, pc);
      OrdinaryState(pc.ops[0], w.rec, w.clock);
      ArmedBound(StateAfter(w.rec.state, pc.ops), pc.next, q.next, v.rec, w.clock);
      assert StateAfter(v.rec.state, q.ops) == StateAfter(w.rec.state, pc.ops);
    }
  }

  lemma FirstIsOrdinary(w: World, pc: Pc)
    requires pc.Do? && pc.ops != [] && PcOk(w, pc)
    ensures !pc.ops[0].Begin? && !pc.ops[0].RequestCancel?
  {
  }

  lemma OrdinaryState(op: Op, r: Record, now: nat)
    requires !op.Begin? && !op.RequestCancel?
    ensures Apply(op, r, now).Ok? ==> Apply(op, r, now).value.state == StateBy(r.state, op)
  {
  }

  lemma ArmedBound(s: State, next: Pc, armed: Pc, r: Record, clock: nat)
    requires Bound(s, next) && !next.Do? && (armed == next || Armed(next, armed, r, clock))
    ensures Bound(s, armed) && !armed.Do?
  {
  }

  lemma RaisedBound(s: State, pc: Pc)
    requires Bound(s, pc) && pc != Idle && !pc.Failed?
    ensures Bound(s, Raised(pc))
  {
  }

  lemma SendingBound(w: World, pc: Pc, v: World, q: Pc)
    requires Bound(w.rec.state, pc) && (pc.Loaded? || pc.Prepared? || pc.ToSend?) && ActionStep(w, pc, v, q)
    ensures Bound(v.rec.state, q)
  {
    StateAfterClosing(w.rec.state, Interrupted, Some(Live));
  }

  function LostPoint(w: Watch): Pc {
    if w.mode.LiveMode? then Lost(w.proof.confirmed) else Recovering
  }

  ghost predicate AwaitLeads(watch: Watch, q: Pc) {
    q == Top(watch) || q == LostPoint(watch) || exists e :: q == OnEvent(watch, e)
  }

  lemma AwaitCases(w: World, watch: Watch, v: World, q: Pc)
    requires ActionStep(w, Await(watch), v, q)
    ensures v.rec == w.rec && AwaitLeads(watch, q)
  {
  }

  lemma AwaitBound(w: World, watch: Watch, q: Pc)
    requires RequestOk(w, watch.proof.requested) && Watchable(w.rec.state, watch) && AwaitLeads(watch, q)
    ensures Bound(w.rec.state, q)
  {
    if q == Top(watch) || q == LostPoint(watch) {
      LostBound(w.rec.state, watch);
    } else {
      var e :| q == OnEvent(watch, e);
      SeenBound(w, watch, e);
    }
  }

  lemma SeenBound(w: World, watch: Watch, e: KernelEvent)
    requires RequestOk(w, watch.proof.requested) && Watchable(w.rec.state, watch)
    ensures Bound(w.rec.state, OnEvent(watch, e))
  {
    VerdictEnds(w, watch, e);
    EventBound(w.rec.state, watch, e);
  }

  lemma LostBound(s: State, w: Watch)
    requires Watchable(s, w)
    ensures Bound(s, Top(w)) && Bound(s, LostPoint(w))
  {
  }

  lemma PokeBound(w: World, watch: Watch, v: World, q: Pc)
    requires Watchable(w.rec.state, watch) && ActionStep(w, Poke(watch), v, q)
    requires w.rec.state == Dispatching ==> q == Await(watch)
    ensures Bound(v.rec.state, q)
  {
    StateAfterOne(w.rec.state, MarkIncomplete);
  }

  lemma ReconnectBound(w: World, pc: Pc, v: World, q: Pc)
    requires Bound(w.rec.state, pc) && (pc.Connecting? || pc.SendInfo?) && ActionStep(w, pc, v, q)
    ensures Bound(v.rec.state, q)
  {
    if pc.Connecting? && q != Recovering {
      var found, infoId :| q == OnReconnect(pc.snapshot, found, infoId);
      FoundBound(w.rec.state, pc.snapshot, found, infoId);
    }
  }

  lemma FoundBound(s: State, snapshot: Record, found: Option<Identity>, infoId: MsgId)
    requires OverOr(s, Disconnected)
    ensures Bound(s, OnReconnect(snapshot, found, infoId))
  {
    StateAfterOne(s, CountReconnect);
  }

  lemma ActionBound(w: World, pc: Pc, v: World, q: Pc)
    requires PcOk(w, pc) && Bound(w.rec.state, pc) && !pc.Do? && ActionStep(w, pc, v, q)
    requires pc.Poke? && w.rec.state == Dispatching ==> q == Await(pc.w)
    ensures Bound(v.rec.state, q)
  {
    if pc.Loaded? || pc.Prepared? || pc.ToSend? {
      SendingBound(w, pc, v, q);
    } else if pc.Poke? {
      PokeBound(w, pc.w, v, q);
    } else if pc.Await? {
      AwaitCases(w, pc.w, v, q);
      AwaitBound(w, pc.w, q);
    } else {
      ReconnectBound(w, pc, v, q);
    }
  }

  /** The worker's own steps keep to the table, but for an interrupt that is not delivered before confirmation. */
  lemma WorkerBound(w: World, pc: Pc, v: World, q: Pc)
    requires PcOk(w, pc) && Bound(w.rec.state, pc) && pc != Idle && !pc.Failed? && PcStep(w, pc, v, q)
    requires !(pc.Poke? && w.rec.state == Dispatching && q.Do?)
    ensures Bound(v.rec.state, q)
  {
    if v == w && q == Raised(pc) {
      RaisedBound(w.rec.state, pc);
    } else if v == w && Decision(w.rec, w.clock, pc) == Some(q) {
      DecisionBound(w, pc);
    } else if pc.Do? {
      WriteBound(w, pc, v, q);
    } else {
      ActionBound(w, pc, v, q);
    }
  }

  // ---------------------------------------------------------------- nothing is left without a cause

  /** The handler's transactions go through. */
  lemma HandlerMoves(w: World, pc: Pc, v: World, q: Pc)
    requires PcOk(w, pc) && HandlerBound(w.rec.state, pc) && pc.Do? && DoStep(w, pc, v, q)
    requires pc.ops != [] ==> q != Idle
    ensures if q == Idle then IsTerminal(v.rec.state) else HandlerBound(v.rec.state, q) || Bound(v.rec.state, q)
  {
    if pc.ops != [] && Apply(pc.ops[0], w.rec, w.clock).Ok? {
      FirstIsOrdinary(w, pc);
      OrdinaryState(pc.ops[0], w.rec, w.clock);
      assert StateAfter(v.rec.state, q.ops) == StateAfter(w.rec.state, pc.ops);
    }
  }

  lemma HandlerDecides(r: Record, clock: nat, pc: Pc)
    requires (pc.Failed? || (pc.FailedDisconnected? && HandlerBound(r.state, pc))) && r.state != Created
    ensures Decision(r, clock, pc).Some?
    ensures var q := Decision(r, clock, pc).value; if q == Idle then IsTerminal(r.state) else HandlerBound(r.state, q)
  {
    StateAfterClosing(r.state, Unknown, Some(Live));
    StateAfterClosing(r.state, Interrupted, Some(Live));
    assert [MarkIncomplete, Move(Disconnected, None)][1..] == [Move(Disconnected, None)];
    StateAfterOne(r.state, Move(Disconnected, None));
  }

  lemma HandlerSteps(x: Exec, y: Exec)
    requires Inv(x) && HandlerBound(x.world.rec.state, x.worker) && !HandlerFails(x, y)
    requires PcStep(x.world, x.worker, y.world, y.worker) && y.control == x.control && y.booting == x.booting
    ensures var s := y.world.rec.state;
            if y.worker == Idle then IsTerminal(s) else HandlerBound(s, y.worker) || Bound(s, y.worker)
  {
    if x.worker.Do? {
      if y.world == x.world && y.worker == Raised(x.worker) {
        assert y == x.(worker := Idle);
      } else {
        HandlerMoves(x.world, x.worker, y.world, y.worker);
      }
    } else {
      HandlerNeverActs(x.world, x.worker, y.world, y.worker);
      HandlerDecides(x.world.rec, x.world.clock, x.worker);
    }
  }

  lemma HandlerNeverActs(w: World, pc: Pc, v: World, q: Pc)
    requires pc.Failed? || pc.FailedDisconnected?
    ensures !ActionStep(w, pc, v, q)
  {
  }

  /** Waiting to be taken up, or over. */
  predicate Settled(s: State) {
    s == Queued || s == Disconnected || IsTerminal(s)
  }

  predicate BootInPlace(s: State, control: Pc) {
    && (control == Idle ==> Settled(s))
    && (control.Do? ==> Settled(StateAfter(s, control.ops)))
  }

  predicate WorkerInPlace(s: State, worker: Pc) {
    if worker == Idle then Settled(s) else Bound(s, worker) || HandlerBound(s, worker)
  }

  /** The worker and the controller are where the state allows. */
  predicate InPlace(x: Exec) {
    && ControlWrites(x.control)
    && if x.booting then BootInPlace(x.world.rec.state, x.control) else WorkerInPlace(x.world.rec.state, x.worker)
  }

  lemma WorkerStaysInPlace(x: Exec, y: Exec)
    requires Inv(x) && InPlace(x) && !x.booting && !Abandons(x, y) && !HandlerFails(x, y)
    requires PcStep(x.world, x.worker, y.world, y.worker) && y.control == x.control && y.booting == x.booting
    requires x.worker != Idle
    ensures InPlace(y)
  {
    if HandlerBound(x.world.rec.state, x.worker) {
      HandlerSteps(x, y);
    } else {
      WorkerBound(x.world, x.worker, y.world, y.worker);
    }
  }

  lemma WorkerDrifts(s: State, t: State, worker: Pc)
    requires WorkerInPlace(s, worker) && Drifts(s, t)
    ensures WorkerInPlace(t, worker)
  {
    if worker != Idle {
      if Bound(s, worker) {
        BoundDrifts(s, t, worker);
      } else {
        HandlerDrifts(s, t, worker);
      }
    }
  }

  lemma BootDrifts(s: State, t: State, control: Pc)
    requires BootInPlace(s, control) && Drifts(s, t)
    ensures BootInPlace(t, control)
  {
    if control.Do? {
      StateAfterDrift(s, t, control.ops);
    }
  }

  lemma ReconcileWrites(r: Record)
    requires r.state != Created
    ensures ControlWrites(OnReconcile(r)) && BootInPlace(r.state, OnReconcile(r))
  {
    StateAfterClosing(r.state, Unknown, Some(Recovery));
    var verdict := RestartVerdict(r.evidence, r.requested);
    if verdict.Some? {
      StateAfterClosing(r.state, verdict.value, Some(DurableEvidence));
    }
    assert [MarkIncomplete, Move(Disconnected, None)][1..] == [Move(Disconnected, None)];
    StateAfterOne(r.state, Move(Disconnected, None));
    StateAfterOne(r.state, MarkIncomplete);
  }

  lemma BootStaysInPlace(x: Exec, y: Exec)
    requires Inv(x) && InPlace(x) && x.booting
    requires PcStep(x.world, x.control, y.world, y.control) && y.worker == x.worker && y.booting == x.booting
    ensures InPlace(y)
  {
    if x.control.Reconcile? {
      ReconcileWrites(x.world.rec);
      ControlDecides(x.world, x.control, y.world, y.control);
    } else if x.control.Do? && y.control != Raised(x.control) {
      BootWritesInPlace(x.world, x.control, y.world, y.control);
    }
  }

  lemma BootWritesInPlace(w: World, pc: Pc, v: World, q: Pc)
    requires pc.Do? && IsBootPoint(pc) && ControlWrites(pc) && BootInPlace(w.rec.state, pc) && DoStep(w, pc, v, q)
    ensures ControlWrites(q) && BootInPlace(v.rec.state, q)
  {
    if pc.ops != [] && Apply(pc.ops[0], w.rec, w.clock).Ok? {
      assert pc.ops[0] in pc.ops && forall op <- pc.ops[1..] :: op in pc.ops;
      ControlOpDrifts(pc.ops[0], w.rec, w.clock);
      assert StateAfter(v.rec.state, q.ops) == StateAfter(w.rec.state, pc.ops);
    }
  }

  lemma ForceWrites(w: World, pc: Pc, v: World, q: Pc)
    requires IsForcePoint(pc) && ControlWrites(pc) && PcStep(w, pc, v, q)
    ensures ControlWrites(q)
  {
    if pc.Do? {
      assert forall op <- pc.ops[if pc.ops == [] then 0 else 1..] :: op in pc.ops;
    } else {
      ForceNeverActs(w, pc, v, q);
      ForceDecisionWrites(w.rec, w.clock, pc);
    }
  }

  lemma ForceDecisionWrites(r: Record, clock: nat, pc: Pc)
    requires IsForcePoint(pc) && !pc.Do?
    ensures Decision(r, clock, pc).Some? ==> ControlWrites(Decision(r, clock, pc).value)
  {
  }

  lemma ControlStaysInPlace(x: Exec, y: Exec)
    requires Inv(x) && InPlace(x)
    requires PcStep(x.world, x.control, y.world, y.control) && y.worker == x.worker && y.booting == x.booting
    ensures InPlace(y)
  {
    if x.booting {
      BootStaysInPlace(x, y);
    } else {
      ForceWrites(x.world, x.control, y.world, y.control);
      ControlDrifts(x.world, x.control, y.world, y.control);
      WorkerDrifts(x.world.rec.state, y.world.rec.state, x.worker);
    }
  }

  lemma CancelStaysInPlace(x: Exec, y: Exec)
    requires InPlace(x) && Apply(RequestCancel, x.world.rec, x.world.clock) == Ok(y.world.rec)
    requires y == x.(world := x.world.(rec := y.world.rec))
    ensures InPlace(y)
  {
    CancelDrifts(x.world.rec, x.world.clock);
    if x.booting {
      BootDrifts(x.world.rec.state, y.world.rec.state, x.control);
    } else {
      WorkerDrifts(x.world.rec.state, y.world.rec.state, x.worker);
    }
  }

  lemma OutsideStaysInPlace(x: Exec, y: Exec)
    requires Inv(x) && InPlace(x) && OutsideStep(x, y) && !Abandons(x, y)
    ensures InPlace(y)
  {
    if Apply(RequestCancel, x.world.rec, x.world.clock) == Ok(y.world.rec) && y == x.(world := x.world.(rec := y.world.rec)) {
      CancelStaysInPlace(x, y);
    } else if (x.worker.Top? || x.worker.Recovering? || x.worker.Connecting?) && y == x.(worker := Idle) {
      DecisionBound(x.world, x.worker);
    }
  }

  lemma StepStaysInPlace(x: Exec, y: Exec)
    requires Inv(x) && InPlace(x) && Step(x, y) && !Abandons(x, y) && !HandlerFails(x, y)
    ensures InPlace(y)
  {
    if OutsideStep(x, y) {
      OutsideStaysInPlace(x, y);
    } else if PcStep(x.world, x.control, y.world, y.control) && y.worker == x.worker && y.booting == x.booting {
      ControlStaysInPlace(x, y);
    } else {
      WorkerStaysInPlace(x, y);
    }
  }

  ghost predicate LeavesAt(run: seq<Exec>, k: nat)
    requires 0 < k < |run|
  {
    Abandons(run[k - 1], run[k]) || HandlerFails(run[k - 1], run[k])
  }

  lemma {:induction false} RunStaysInPlace(run: seq<Exec>, n: nat)
    requires IsRun(run) && n < |run|
    requires forall k :: 0 < k <= n ==> !LeavesAt(run, k)
    ensures InPlace(run[n])
  {
    if n == 0 {
      StartInPlace(run);
    } else {
      RunStaysInPlace(run, n - 1);
      RunInv(run, n - 1);
      StepOfRun(run, n);
      assert !LeavesAt(run, n);
      StepStaysInPlace(run[n - 1], run[n]);
    }
  }

  lemma StartInPlace(run: seq<Exec>)
    requires IsRun(run)
    ensures InPlace(run[0])
  {
    var session, at, source, hash, key, timeout :| run[0].world.rec == NewRecord(session, at, source, hash, key, timeout);
  }

  lemma NotInPlace(run: seq<Exec>, n: nat)
    requires IsRun(run) && n < |run| && !InPlace(run[n])
    ensures exists k :: 0 < k <= n && LeavesAt(run, k)
  {
    if forall k :: 0 < k <= n ==> !LeavesAt(run, k) {
      RunStaysInPlace(run, n);
    }
  }

  /**
   An execution is found DISPATCHING or RUNNING with no worker on it, in a controller that is up,
   only if the worker was closed at a loop head, an interrupt could not be delivered before
   confirmation, or the failure handler failed.
   */
  lemma LeftHasCause(run: seq<Exec>, n: nat) returns (k: nat)
    requires IsRun(run) && n < |run| && !run[n].booting && run[n].worker == Idle
    requires run[n].world.rec.state == Dispatching || run[n].world.rec.state == Running
    ensures 0 < k <= n && LeavesAt(run, k)
  {
    if !InPlace(run[n]) {
      NotInPlace(run, n);
    }
    k :| 0 < k <= n && LeavesAt(run, k);
  }

  // ---------------------------------------------------------------- the completeness flag of an UNKNOWN execution

  predicate GivesUp(op: Op) {
    op.Move? && op.to.Unknown?
  }

  /** The controller thread lowers the flag before it gives an execution up. */
  predicate MarksFirst(complete: bool, pc: Pc) {
    complete ==>
      match pc
      case ForceMarked => false
      case ForceDisconnected => false
      case Do(ops, next, onError, _) =>
        && ((next.ForceMarked? || next.ForceDisconnected? || exists op <- ops :: GivesUp(op)) ==> ops != [] && ops[0] == MarkIncomplete)
        && !onError.ForceMarked? && !onError.ForceDisconnected?
      case _ => true
  }

  ghost predicate ControlOk(x: Exec) {
    ControlWrites(x.control) && MarksFirst(x.world.rec.complete, x.control)
  }

  lemma ControlPointOk(r: Record, clock: nat, pc: Pc)
    requires (IsForcePoint(pc) || IsBootPoint(pc)) && !pc.Do? && MarksFirst(r.complete, pc) && r.state != Created
    ensures MarksFirst(r.complete, Raised(pc))
    ensures Decision(r, clock, pc).Some? ==>
              ControlWrites(Decision(r, clock, pc).value) && MarksFirst(r.complete, Decision(r, clock, pc).value)
  {
    if pc.Reconcile? {
      ReconcileWrites(r);
      ReconcileMarks(r);
    } else {
      ForcePointMarks(r, clock, pc);
    }
  }

  lemma ReconcileMarks(r: Record)
    ensures MarksFirst(r.complete, OnReconcile(r))
  {
    var verdict := RestartVerdict(r.evidence, r.requested);
    if r.state == Dispatching {
      assert OnReconcile(r).ops[0] == MarkIncomplete;
    } else if IsObserved(r.state) && verdict.Some? {
      assert !GivesUp(FinalizeOutput) && !GivesUp(Move(verdict.value, Some(DurableEvidence)));
    }
  }

  lemma ForcePointMarks(r: Record, clock: nat, pc: Pc)
    requires IsForcePoint(pc) && !pc.Do? && MarksFirst(r.complete, pc)
    ensures Decision(r, clock, pc).Some? ==>
              ControlWrites(Decision(r, clock, pc).value) && MarksFirst(r.complete, Decision(r, clock, pc).value)
  {
  }

  lemma ControlWriteOk(w: World, pc: Pc, v: World, q: Pc)
    requires pc.Do? && (IsForcePoint(pc) || IsBootPoint(pc)) && DoStep(w, pc, v, q)
    requires ControlWrites(pc) && MarksFirst(w.rec.complete, pc)
    ensures ControlWrites(q) && MarksFirst(v.rec.complete, q)
  {
    if pc.ops != [] && Apply(pc.ops[0], w.rec, w.clock).Ok? {
      assert pc.ops[0] in pc.ops && forall op <- pc.ops[1..] :: op in pc.ops;
      ControlOpFlag(pc.ops[0], w.rec, w.clock);
    }
  }

  lemma ControlOpFlag(op: Op, r: Record, now: nat)
    requires IsControlOp(op)
    ensures Apply(op, r, now).Ok? ==> Apply(op, r, now).value.complete == (r.complete && op != MarkIncomplete)
  {
  }

  lemma ControlStepOk(x: Exec, y: Exec)
    requires Inv(x) && ControlOk(x)
    requires PcStep(x.world, x.control, y.world, y.control)
    ensures ControlOk(y)
  {
    if x.control.Do? {
      if !(y.world == x.world && y.control == x.control.onError) {
        ControlWriteOk(x.world, x.control, y.world, y.control);
      }
    } else {
      ControlDecides(x.world, x.control, y.world, y.control);
      ControlPointOk(x.world.rec, x.world.clock, x.control);
    }
  }

  lemma {:induction false} RunControlOk(run: seq<Exec>, n: nat)
    requires IsRun(run) && n < |run|
    ensures ControlOk(run[n])
  {
    if n > 0 {
      RunControlOk(run, n - 1);
      RunInv(run, n - 1);
      StepOfRun(run, n);
      NextControlOk(run[n - 1], run[n]);
    }
  }

  lemma NextControlOk(x: Exec, y: Exec)
    requires Inv(x) && ControlOk(x) && Step(x, y)
    ensures ControlOk(y)
  {
    StepGrows(x, y);
    if PcStep(x.world, x.control, y.world, y.control) && y.worker == x.worker && y.booting == x.booting {
      ControlStepOk(x, y);
    }
  }

  lemma MoveEnters(op: Op, r: Record, now: nat)
    requires Apply(op, r, now).Ok? && r.state != Unknown && Apply(op, r, now).value.state == Unknown
    ensures GivesUp(op) && (r.state == Dispatching || r.state == Disconnected) && Apply(op, r, now).value.complete == r.complete
  {
  }

  predicate AboutToGiveUp(pc: Pc) {
    pc.Do? && pc.ops != [] && GivesUp(pc.ops[0])
  }

  lemma ThreadEnters(w: World, pc: Pc, v: World, q: Pc)
    requires WorldOk(w) && PcStep(w, pc, v, q) && w.rec.state != Unknown && v.rec.state == Unknown
    ensures AboutToGiveUp(pc)
    ensures v.rec.complete <==> w.rec.state == Dispatching && w.rec.complete
  {
    if pc.Do? {
      MoveEnters(pc.ops[0], w.rec, w.clock);
      if w.rec.state == Disconnected {
        assert w.rec.journal[|w.rec.journal| - 1] == Disconnected;
      }
    }
  }

  /**
   An execution that becomes UNKNOWN keeps its completeness flag if and only if it was DISPATCHING
   and flagged complete; and it is the worker that gives it up, since the controller thread, at a
   restart or a forced stop, lowers the flag first.
   */
  lemma EnteringUnknown(run: seq<Exec>, n: nat)
    requires IsRun(run) && 0 < n < |run|
    ensures KeepsFlag(run[n - 1], run[n])
  {
    RunMarks(run, n - 1);
    StepOfRun(run, n);
    StepKeepsFlag(run[n - 1], run[n]);
  }

  predicate KeepsFlag(x: Exec, y: Exec) {
    var r, q := x.world.rec, y.world.rec;
    r.state != Unknown && q.state == Unknown ==>
      && (q.complete <==> r.state == Dispatching && r.complete)
      && (q.complete ==> AboutToGiveUp(x.worker))
  }

  lemma RunMarks(run: seq<Exec>, n: nat)
    requires IsRun(run) && n < |run|
    ensures WorldOk(run[n].world) && MarksFirst(run[n].world.rec.complete, run[n].control)
  {
    RunInv(run, n);
    RunControlOk(run, n);
  }

  lemma StepKeepsFlag(x: Exec, y: Exec)
    requires WorldOk(x.world) && MarksFirst(x.world.rec.complete, x.control) && Step(x, y)
    ensures KeepsFlag(x, y)
  {
    if x.world.rec.state != Unknown && y.world.rec.state == Unknown {
      if PcStep(x.world, x.worker, y.world, y.worker) {
        ThreadEnters(x.world, x.worker, y.world, y.worker);
      } else {
        ThreadEnters(x.world, x.control, y.world, y.control);
        assert x.control.ops[0] in x.control.ops;
      }
    }
  }

  // ---------------------------------------------------------------- a crash just before the closing writes

  lemma IdleNeverSteps(w: World, v: World, q: Pc)
    ensures !PcStep(w, Idle, v, q)
  {
  }

  lemma BootStepKeepsEvidence(x: Exec, y: Exec)
    requires Inv(x) && ControlOk(x) && Step(x, y) && x.booting && y.booting
    ensures y.world.rec.evidence == x.world.rec.evidence && y.world.rec.messageId == x.world.rec.messageId
  {
    IdleNeverSteps(x.world, y.world, y.worker);
    if PcStep(x.world, x.control, y.world, y.control) {
      ControlDrifts(x.world, x.control, y.world, y.control);
    } else if Apply(RequestCancel, x.world.rec, x.world.clock) == Ok(y.world.rec) {
      CancelDrifts(x.world.rec, x.world.clock);
    }
  }

  lemma {:induction false} BootKeepsEvidence(run: seq<Exec>, k: nat, m: nat)
    requires IsRun(run) && k <= m < |run| && forall j | k <= j <= m :: run[j].booting
    ensures run[m].world.rec.evidence == run[k].world.rec.evidence && run[m].world.rec.messageId == run[k].world.rec.messageId
    decreases m
  {
    if k < m {
      BootKeepsEvidence(run, k, m - 1);
      NextBootKeepsEvidence(run, m);
    }
  }

  lemma NextBootKeepsEvidence(run: seq<Exec>, m: nat)
    requires IsRun(run) && 0 < m < |run| && run[m - 1].booting && run[m].booting
    ensures run[m].world.rec.evidence == run[m - 1].world.rec.evidence
    ensures run[m].world.rec.messageId == run[m - 1].world.rec.messageId
  {
    RunInv(run, m - 1);
    RunControlOk(run, m - 1);
    StepOfRun(run, m);
    BootStepKeepsEvidence(run[m - 1], run[m]);
  }

  /** The request a proof object must have held to reach the verdict, if the evidence shows an interrupt. */
  function AskedBy(to: State): Option<State> {
    if to.Interrupted? || to.TimedOut? then Some(to) else None
  }

  predicate IsVerdict(s: State) {
    s.Finished? || s.Error? || s.Interrupted? || s.TimedOut?
  }

  /**
   A crash after the evidence is saved and before the closing writes: whatever happens until the
   restarted controller gets to the row, it closes it with the verdict the worker had if and only
   if the durable request is the one that verdict answers, or the evidence does not show an interrupt.
   */
  lemma CrashBeforeClosing(run: seq<Exec>, k: nat, m: nat, to: State, source: CompletionSource, seen: Option<Sighting>)
    requires IsRun(run) && k < m < |run| && IsVerdict(to)
    requires run[k].worker == Do(Closing(to, Some(source)), Idle, Failed, seen)
    requires run[k + 1] == run[k].(worker := Idle, control := Reconcile, booting := true)
    requires forall j | k < j <= m :: run[j].booting
    requires run[m].control == Reconcile && IsObserved(run[m].world.rec.state)
    ensures var r := run[m].world.rec;
            OnReconcile(r) == Do(Closing(to, Some(DurableEvidence)), Idle, Reconcile, None)
            <==> r.requested == AskedBy(to) || r.evidence.status == Some(ReplyOk) || !ShowsInterrupt(r.evidence)
  {
    PendingAt(run, k, to, source, seen);
    ObservedAt(run, m);
    BootKeepsEvidence(run, k + 1, m);
    VerdictOfClosing(run[m].world.rec.evidence, to, run[m].world.rec.requested);
  }

  lemma PendingAt(run: seq<Exec>, k: nat, to: State, source: CompletionSource, seen: Option<Sighting>)
    requires IsRun(run) && k < |run| && run[k].worker == Do(Closing(to, Some(source)), Idle, Failed, seen)
    ensures Justified(run[k].world, run[k].world.rec.evidence, to) || (to.Interrupted? && run[k].world.rec.messageId.None?)
    ensures ReplyHasStatus(run[k].world.rec.evidence)
  {
    RunInv(run, k);
    PendingClosing(run[k].world, to, Some(source), seen);
  }

  lemma ObservedAt(run: seq<Exec>, m: nat)
    requires IsRun(run) && m < |run| && IsObserved(run[m].world.rec.state)
    ensures run[m].world.rec.messageId.Some? && RequestOk(run[m].world, run[m].world.rec.requested)
  {
    RunInv(run, m);
  }

  lemma PendingClosing(w: World, to: State, source: Option<CompletionSource>, seen: Option<Sighting>)
    requires PcOk(w, Do(Closing(to, source), Idle, Failed, seen))
    ensures Justified(w, w.rec.evidence, to) || (to.Interrupted? && w.rec.messageId.None?)
  {
    var v, r := w.rec.evidence, w.rec;
    assert Closing(to, source)[0] == FinalizeOutput && Closing(to, source)[1..] == [Move(to, source)];
    assert OpsOk(w, v, r.complete, r.outputs, [Move(to, source)], seen);
    assert [Move(to, source)][0] == Move(to, source);
  }

  lemma VerdictOfClosing(v: Evidence, to: State, requested: Option<State>)
    requires IsVerdict(to) && v.reply && v.idle && ReplyHasStatus(v)
    requires to.Finished? <==> v.status == Some(ReplyOk)
    requires to.Interrupted? || to.TimedOut? ==> ShowsInterrupt(v)
    requires requested.Some? ==> requested.value.Interrupted? || requested.value.TimedOut?
    ensures RestartVerdict(v, requested) == Some(to) <==> requested == AskedBy(to) || v.status == Some(ReplyOk) || !ShowsInterrupt(v)
  {
    match v.status.value
    case ReplyOk =>
    case ReplyError =>
    case ReplyAborted =>
  }
}
