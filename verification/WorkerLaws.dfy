/**
 More promises for every run of the machine in KernelWorker: what confirms a dispatch, from when the
 deadline counts, what the worker serves before it waits, what makes an execution UNKNOWN, how often
 the kernel is asked for its info, and which journals there are.
 */
module WorkerLaws {
  import opened Wrappers
  import opened Lifecycle
  import opened KernelProof
  import opened Outputs
  import opened Storage
  import opened KernelWorker
  import opened WorkerSafety
  import opened WorkerRuns

  // ---------------------------------------------------------------- confirmation

  /** The watched messages answer the request of the row. */
  predicate AllAnswer(w: World) {
    forall e <- w.watched :: e.message.parent.Some? && e.message.parent == w.rec.messageId
  }

  /** A confirming write is pending only once a message was watched. */
  predicate ConfirmsLate(w: World, pc: Pc) {
    pc.Do? && Confirm in pc.ops ==> w.watched != []
  }

  predicate Heeded(w: World) {
    AllAnswer(w) && (w.rec.confirmed ==> w.watched != [])
  }

  lemma DecisionNeverConfirms(r: Record, clock: nat, pc: Pc)
    ensures Decision(r, clock, pc).Some? && Decision(r, clock, pc).value.Do? ==> Confirm !in Decision(r, clock, pc).value.ops
  {
  }

  lemma RaisedIsPlain(w: World, pc: Pc)
    requires PcOk(w, pc)
    ensures !Raised(pc).Do?
  {
  }

  lemma OpHeeds(op: Op, r: Record, now: nat)
    requires !op.Begin? && Apply(op, r, now).Ok?
    ensures Apply(op, r, now).value.messageId == r.messageId
    ensures Apply(op, r, now).value.confirmed ==> r.confirmed || op == Confirm
  {
  }

  /** A write takes the first of the list and leaves the others; without one the thread goes on elsewhere. */
  lemma DoLeads(w: World, pc: Pc, v: World, q: Pc)
    requires PcOk(w, pc) && pc.Do? && DoStep(w, pc, v, q)
    ensures v.watched == w.watched && v.wire == w.wire
    ensures if q.Do? then
              && pc.ops != [] && q.ops == pc.ops[1..] && !pc.ops[0].Begin?
              && Apply(pc.ops[0], w.rec, w.clock) == Ok(v.rec) && (q.next.SendInfo? <==> pc.next.SendInfo?)
            else v == w && (q == pc.onError || (pc.ops == [] && q == pc.next))
  {
  }

  lemma WriteHeeds(w: World, pc: Pc, v: World, q: Pc)
    requires PcOk(w, pc) && Heeded(w) && ConfirmsLate(w, pc) && pc.Do? && DoStep(w, pc, v, q)
    ensures Heeded(v) && ConfirmsLate(v, q) && w.watched == v.watched
  {
    DoLeads(w, pc, v, q);
    if q.Do? {
      OpHeeds(pc.ops[0], w.rec, w.clock);
      FirstOrLater(pc.ops);
    }
  }

  lemma FirstOrLater(ops: seq<Op>)
    requires ops != []
    ensures forall op :: op in ops <==> op == ops[0] || op in ops[1..]
  {
    assert ops == [ops[0]] + ops[1..];
  }

  lemma EventHeeds(w: World, watch: KernelWorker.Watch, e: KernelEvent)
    requires Heeded(w) && Some(watch.proof.messageId) == w.rec.messageId
    ensures Heeded(Watched(w, watch, e)) && ConfirmsLate(Watched(w, watch, e), OnEvent(watch, e))
  {
    var v := Watched(w, watch, e);
    assert forall x :: x in w.watched + [e] <==> x in w.watched || x == e;
  }

  lemma BeginHeeds(w: World, pc: Pc, v: World, q: Pc)
    requires WorldOk(w) && PcOk(w, pc) && Heeded(w) && pc.Prepared? && ActionStep(w, pc, v, q)
    ensures Heeded(v) && ConfirmsLate(v, q) && w.watched <= v.watched
  {
  }

  lemma PlainHeeds(w: World, pc: Pc, v: World, q: Pc)
    requires Heeded(w) && !pc.Do? && !pc.Prepared? && !pc.Await? && ActionStep(w, pc, v, q)
    ensures Heeded(v) && ConfirmsLate(v, q) && w.watched <= v.watched
  {
    assert v.rec == w.rec && v.watched == w.watched;
  }

  lemma AwaitHeeds(w: World, pc: Pc, v: World, q: Pc)
    requires PcOk(w, pc) && Heeded(w) && pc.Await? && ActionStep(w, pc, v, q)
    ensures Heeded(v) && ConfirmsLate(v, q) && w.watched <= v.watched
  {
    if e :| v == Watched(w, pc.w, e) && q == OnEvent(pc.w, e) {
      EventHeeds(w, pc.w, e);
    }
  }

  lemma ActHeeds(w: World, pc: Pc, v: World, q: Pc)
    requires WorldOk(w) && PcOk(w, pc) && Heeded(w) && !pc.Do? && ActionStep(w, pc, v, q)
    ensures Heeded(v) && ConfirmsLate(v, q) && w.watched <= v.watched
  {
    if pc.Prepared? {
      BeginHeeds(w, pc, v, q);
    } else if pc.Await? {
      AwaitHeeds(w, pc, v, q);
    } else {
      PlainHeeds(w, pc, v, q);
    }
  }

  lemma PcStepHeeds(w: World, pc: Pc, v: World, q: Pc)
    requires WorldOk(w) && PcOk(w, pc) && Heeded(w) && ConfirmsLate(w, pc) && PcStep(w, pc, v, q)
    ensures Heeded(v) && ConfirmsLate(v, q) && w.watched <= v.watched
  {
    RaisedIsPlain(w, pc);
    DecisionNeverConfirms(w.rec, w.clock, pc);
    if ActionStep(w, pc, v, q) {
      if pc.Do? {
        WriteHeeds(w, pc, v, q);
      } else {
        ActHeeds(w, pc, v, q);
      }
    }
  }

  predicate HeededBoth(x: Exec) {
    Heeded(x.world) && ConfirmsLate(x.world, x.worker) && ConfirmsLate(x.world, x.control)
  }

  lemma OutsideHeeds(x: Exec, y: Exec)
    requires Inv(x) && HeededBoth(x) && OutsideStep(x, y)
    ensures HeededBoth(y)
  {
    if Apply(RequestCancel, x.world.rec, x.world.clock) == Ok(y.world.rec) && y == x.(world := x.world.(rec := y.world.rec)) {
      assert y.world.rec.messageId == x.world.rec.messageId && y.world.rec.confirmed == x.world.rec.confirmed;
    }
  }

  lemma StepHeeds(x: Exec, y: Exec)
    requires Inv(x) && HeededBoth(x) && Step(x, y)
    ensures HeededBoth(y)
  {
    if PcStep(x.world, x.worker, y.world, y.worker) && y.control == x.control {
      PcStepHeeds(x.world, x.worker, y.world, y.worker);
    } else if PcStep(x.world, x.control, y.world, y.control) && y.worker == x.worker {
      PcStepHeeds(x.world, x.control, y.world, y.control);
    } else {
      OutsideHeeds(x, y);
    }
  }

  lemma {:induction false} RunHeeds(run: seq<Exec>, i: nat)
    requires IsRun(run) && i < |run|
    ensures HeededBoth(run[i])
  {
    if i > 0 {
      RunHeeds(run, i - 1);
      RunInv(run, i - 1);
      StepOfRun(run, i);
      StepHeeds(run[i - 1], run[i]);
    }
  }

  /** In every run a dispatch is confirmed only after the kernel sent a message that answers this very request. */
  lemma ConfirmedByMessage(run: seq<Exec>, i: nat)
    requires IsRun(run) && i < |run| && run[i].world.rec.confirmed
    ensures run[i].world.rec.messageId.Some?
    ensures exists e <- run[i].world.watched :: e.message.parent == run[i].world.rec.messageId
  {
    RunHeeds(run, i);
    assert run[i].world.watched[0] in run[i].world.watched;
  }

  // ---------------------------------------------------------------- the deadline

  /** At step k the dispatch is confirmed, and the deadline is set that far from then. */
  ghost predicate ArmedAt(run: seq<Exec>, k: nat, deadline: nat)
    requires 0 < k < |run|
  {
    var r, q := run[k - 1].world.rec, run[k].world.rec;
    !r.confirmed && q.confirmed && q.timeout.Some? && deadline == run[k - 1].world.clock + q.timeout.value
  }

  lemma WriteArms(op: Op, r: Record, now: nat)
    requires Sound(r) && Apply(op, r, now).Ok?
    ensures var q := Apply(op, r, now).value;
            if op == Confirm then
              !r.confirmed && q.confirmed && q.deadline == if r.timeout.Some? then Some(now + r.timeout.value) else None
            else q.deadline == r.deadline && q.confirmed == r.confirmed
  {
  }

  /** The dispatch is confirmed, and the deadline set with it; or neither changes. */
  predicate Arms(w: World, v: World) {
    if v.rec.confirmed == w.rec.confirmed then v.rec.deadline == w.rec.deadline
    else v.rec.confirmed && v.rec.deadline == if w.rec.timeout.Some? then Some(w.clock + w.rec.timeout.value) else None
  }

  lemma PcStepArms(w: World, pc: Pc, v: World, q: Pc)
    requires Sound(w.rec) && PcStep(w, pc, v, q)
    ensures Arms(w, v)
  {
    if v.rec != w.rec {
      match pc
      case Prepared(_) => WriteArms(Begin(q.id, q.via), w.rec, w.clock);
      case Do(ops, _, _, _) => WriteArms(ops[0], w.rec, w.clock);
    }
  }

  lemma StepArms(x: Exec, y: Exec)
    requires Inv(x) && Step(x, y)
    ensures Arms(x.world, y.world)
  {
    if PcStep(x.world, x.worker, y.world, y.worker) {
      PcStepArms(x.world, x.worker, y.world, y.worker);
    } else if PcStep(x.world, x.control, y.world, y.control) {
      PcStepArms(x.world, x.control, y.world, y.control);
    } else if Apply(RequestCancel, x.world.rec, x.world.clock) == Ok(y.world.rec) {
      WriteArms(RequestCancel, x.world.rec, x.world.clock);
    }
  }

  ghost predicate WasArmed(run: seq<Exec>, i: nat, deadline: nat) {
    exists k :: 0 < k <= i && k < |run| && ArmedAt(run, k, deadline)
  }

  /**
   In every run the deadline is the execution's timeout counted from the confirmation of its dispatch:
   confirmed work with a timeout has that deadline, and nothing else has one.
   */
  lemma {:induction false} DeadlineCountsFromConfirmation(run: seq<Exec>, i: nat)
    requires IsRun(run) && i < |run|
    ensures var r := run[i].world.rec;
            && (r.deadline.Some? <==> r.confirmed && r.timeout.Some?)
            && (r.deadline.Some? ==> WasArmed(run, i, r.deadline.value))
  {
    if i > 0 {
      DeadlineCountsFromConfirmation(run, i - 1);
      RunInv(run, i - 1);
      StepOfRun(run, i);
      StepArms(run[i - 1], run[i]);
      StepGrows(run[i - 1], run[i]);
      var r, q := run[i - 1].world.rec, run[i].world.rec;
      if q.confirmed != r.confirmed {
        assert q.deadline.Some? ==> ArmedAt(run, i, q.deadline.value);
      } else if r.deadline.Some? {
        var k :| 0 < k <= i - 1 && k < |run| && ArmedAt(run, k, r.deadline.value);
        assert ArmedAt(run, k, q.deadline.value);
      }
    }
  }

  // ---------------------------------------------------------------- what is served before waiting

  predicate Passed(deadline: Option<nat>, clock: nat) {
    deadline.Some? && deadline.value <= clock
  }

  /**
   The worker starts to wait for a message only when it has passed on a requested interrupt and a
   deadline that has gone by, and never for a live execution that is over or a recovered one that is no
   longer disconnected.
   */
  lemma WaitsOnlyWhenServed(x: Exec, y: Exec)
    requires Step(x, y) && y.worker.Await? && x.worker != y.worker && !x.worker.Do?
    ensures (x.worker.Top? || x.worker.Reread? || x.worker.Poke?) && y.worker.w == x.worker.w
    ensures var r, w := x.world.rec, y.worker.w;
            && (!x.worker.Poke? ==> r.requested.None? || w.interruptSent)
            && (x.worker.Top? && w.mode.LiveMode? ==>
                  !IsTerminal(r.state) && (w.interruptSent || !Passed(w.mode.deadline, x.world.clock)))
            && (x.worker.Top? && w.mode.RecoveryMode? ==>
                  r.state == Disconnected && (r.requested.Some? || !Passed(r.deadline, x.world.clock)))
  {
    WaitDecision(x.world, x.worker, y.world, y.worker);
  }

  lemma WaitDecision(w: World, pc: Pc, v: World, q: Pc)
    requires PcStep(w, pc, v, q) && q.Await? && pc != q && !pc.Do?
    ensures (pc.Poke? && q == Await(pc.w)) || ((pc.Top? || pc.Reread?) && Decision(w.rec, w.clock, pc) == Some(q))
  {
    if ActionStep(w, pc, v, q) {
      ActionWaits(w, pc, v, q);
    }
  }

  lemma ActionWaits(w: World, pc: Pc, v: World, q: Pc)
    requires ActionStep(w, pc, v, q) && q.Await? && !pc.Do?
    ensures pc.Poke? && q == Await(pc.w)
  {
    match pc
    case Await(watch) =>
      if e :| q == OnEvent(watch, e) {
        assert false;
      }
    case _ =>
  }

  /** An interrupt is passed on once per connection, and as what the row requests, where no timeout was passed on before. */
  lemma InterruptsOnce(x: Exec, y: Exec)
    requires Step(x, y) && y.worker.Poke? && (x.worker.Top? || x.worker.Reread?)
    ensures !x.worker.w.interruptSent && y.worker.w.interruptSent && x.world.rec.requested.Some?
    ensures y.worker.w.proof.requested
            == if x.worker.w.proof.requested == Some(TimedOut) then Some(TimedOut) else x.world.rec.requested
  {
  }

  // ---------------------------------------------------------------- what makes an execution UNKNOWN

  /** Among the writes still to be made is the move to UNKNOWN. */
  predicate Condemns(pc: Pc) {
    pc.Do? && exists op <- pc.ops :: op.Move? && op.to == Unknown
  }

  /**
   The points from which a thread gives an execution up: a send that failed and a connection lost before
   confirmation, an interrupt that could not be delivered, recovery giving up, the failure handler, a
   restart of a row that was sent and not confirmed, and a forced stop.
   */
  predicate MayCondemn(s: State, pc: Pc) {
    match pc
    case SendFailed => s == Dispatching
    case Lost(confirmed) => !confirmed && s == Dispatching
    case AmbiguousDisconnected => s == Disconnected
    case GiveUp => s == Disconnected
    case Failed => s == Dispatching || s == Disconnected
    case FailedDisconnected => s == Disconnected
    case Reconcile => s == Dispatching
    case ForceDisconnected => s == Dispatching || s == Disconnected
    case _ => false
  }

  lemma DecisionCondemns(w: World, pc: Pc)
    requires WorldOk(w) && PcOk(w, pc) && Decision(w.rec, w.clock, pc).Some? && Condemns(Decision(w.rec, w.clock, pc).value)
    ensures MayCondemn(w.rec.state, pc)
  {
    if pc.Reconcile? {
      ReconcileCondemns(w);
    }
  }

  lemma ReconcileCondemns(w: World)
    requires WorldOk(w) && Condemns(OnReconcile(w.rec))
    ensures w.rec.state == Dispatching
  {
    assert RestartVerdict(w.rec.evidence, w.rec.requested) != Some(Unknown);
  }

  lemma EventNeverCondemns(w: World, watch: KernelWorker.Watch, e: KernelEvent)
    requires RequestOk(w, watch.proof.requested)
    ensures !Condemns(OnEvent(watch, e))
  {
    assert Report(watch.proof, e).terminal != Some(Unknown);
    forall op <- EventWrites(watch, e) ensures !op.Move? {
    }
  }

  lemma ActionCondemns(w: World, pc: Pc, v: World, q: Pc)
    requires PcOk(w, pc) && !pc.Do? && ActionStep(w, pc, v, q)
    ensures !Condemns(q)
  {
    match pc
    case Await(watch) =>
      if e :| v == Watched(w, watch, e) && q == OnEvent(watch, e) {
        EventNeverCondemns(w, watch, e);
      }
    case _ =>
  }

  lemma WriteCondemns(w: World, pc: Pc, v: World, q: Pc)
    requires PcOk(w, pc) && pc.Do? && PcStep(w, pc, v, q) && Condemns(q)
    ensures Condemns(pc)
  {
    RaisedIsPlain(w, pc);
    DoLeads(w, pc, v, q);
    FirstOrLater(pc.ops);
  }

  lemma PointCondemns(w: World, pc: Pc, v: World, q: Pc)
    requires WorldOk(w) && PcOk(w, pc) && !pc.Do? && PcStep(w, pc, v, q) && Condemns(q)
    ensures MayCondemn(w.rec.state, pc)
  {
    RaisedIsPlain(w, pc);
    if ActionStep(w, pc, v, q) {
      ActionCondemns(w, pc, v, q);
    } else {
      DecisionCondemns(w, pc);
    }
  }

  lemma PcStepCondemns(w: World, pc: Pc, v: World, q: Pc)
    requires WorldOk(w) && PcOk(w, pc) && PcStep(w, pc, v, q) && Condemns(q) && !Condemns(pc)
    ensures MayCondemn(w.rec.state, pc)
  {
    if pc.Do? {
      WriteCondemns(w, pc, v, q);
    } else {
      PointCondemns(w, pc, v, q);
    }
  }

  /** At step k a thread gives the execution up. */
  ghost predicate CondemnedAt(run: seq<Exec>, k: nat)
    requires 0 < k < |run|
  {
    var s := run[k - 1].world.rec.state;
    || (!Condemns(run[k - 1].worker) && Condemns(run[k].worker) && MayCondemn(s, run[k - 1].worker))
    || (!Condemns(run[k - 1].control) && Condemns(run[k].control) && MayCondemn(s, run[k - 1].control))
  }

  ghost predicate WasCondemned(run: seq<Exec>, i: nat) {
    exists k :: 0 < k <= i && k < |run| && CondemnedAt(run, k)
  }

  lemma StepCondemns(x: Exec, y: Exec)
    requires Inv(x) && Step(x, y)
    ensures Condemns(y.worker) && !Condemns(x.worker) ==> MayCondemn(x.world.rec.state, x.worker)
    ensures Condemns(y.control) && !Condemns(x.control) ==> MayCondemn(x.world.rec.state, x.control)
  {
    if Condemns(y.worker) && !Condemns(x.worker) {
      PcStepCondemns(x.world, x.worker, y.world, y.worker);
    }
    if Condemns(y.control) && !Condemns(x.control) {
      PcStepCondemns(x.world, x.control, y.world, y.control);
    }
  }

  lemma EndsUnknown(x: Exec, y: Exec)
    requires Inv(x) && Step(x, y) && x.world.rec.state != Unknown && y.world.rec.state == Unknown
    ensures Condemns(x.worker) || Condemns(x.control)
  {
    if PcStep(x.world, x.worker, y.world, y.worker) {
      WriteEndsUnknown(x.world, x.worker, y.world, y.worker);
    } else if PcStep(x.world, x.control, y.world, y.control) {
      WriteEndsUnknown(x.world, x.control, y.world, y.control);
    }
  }

  lemma WriteEndsUnknown(w: World, pc: Pc, v: World, q: Pc)
    requires PcOk(w, pc) && PcStep(w, pc, v, q) && w.rec.state != Unknown && v.rec.state == Unknown
    ensures Condemns(pc)
  {
    if pc.Do? {
      DoLeads(w, pc, v, q);
      OpEndsUnknown(pc.ops[0], w.rec, w.clock);
      assert pc.ops[0] in pc.ops;
    } else {
      OthersKeepState(w, pc, v, q);
    }
  }

  lemma OpEndsUnknown(op: Op, r: Record, now: nat)
    requires Apply(op, r, now).Ok? && r.state != Unknown && Apply(op, r, now).value.state == Unknown
    ensures op.Move? && op.to == Unknown
  {
  }

  lemma OthersKeepState(w: World, pc: Pc, v: World, q: Pc)
    requires PcStep(w, pc, v, q) && !pc.Do? && v.rec.state != w.rec.state
    ensures v.rec.state == Dispatching
  {
    match pc
    case Prepared(_) =>
    case _ =>
  }

  lemma {:induction false} CondemnedBefore(run: seq<Exec>, i: nat)
    requires IsRun(run) && i < |run|
    requires Condemns(run[i].worker) || Condemns(run[i].control)
    ensures WasCondemned(run, i)
  {
    if i > 0 {
      RunInv(run, i - 1);
      StepOfRun(run, i);
      StepCondemns(run[i - 1], run[i]);
      if Condemns(run[i - 1].worker) || Condemns(run[i - 1].control) {
        CondemnedBefore(run, i - 1);
        var k :| 0 < k <= i - 1 && k < |run| && CondemnedAt(run, k);
        assert CondemnedAt(run, k);
      } else {
        assert CondemnedAt(run, i);
      }
    }
  }

  /**
   In every run an execution is UNKNOWN only because a thread gave it up at one of the points above. So a
   connection lost after the dispatch was confirmed does not do it, nor does a restart, nor any message.
   */
  lemma {:induction false} UnknownHasCause(run: seq<Exec>, i: nat)
    requires IsRun(run) && i < |run| && run[i].world.rec.state == Unknown
    ensures WasCondemned(run, i)
  {
    if i > 0 {
      RunInv(run, i - 1);
      StepOfRun(run, i);
      if run[i - 1].world.rec.state == Unknown {
        UnknownHasCause(run, i - 1);
      } else {
        EndsUnknown(run[i - 1], run[i]);
        CondemnedBefore(run, i - 1);
      }
      var k :| 0 < k <= i - 1 && k < |run| && CondemnedAt(run, k);
      assert CondemnedAt(run, k);
    }
  }

  // ---------------------------------------------------------------- asking for kernel info

  function InfoRequests(wire: seq<Wire>): nat {
    if wire == [] then 0
    else InfoRequests(wire[..|wire| - 1]) + if wire[|wire| - 1].KernelInfoRequest? then 1 else 0
  }

  /** The next request for kernel info has been counted and not been sent. */
  function Counted(pc: Pc): nat {
    if pc.SendInfo? || (pc.Do? && pc.next.SendInfo? && pc.ops == []) then 1 else 0
  }

  /** Before the request is sent it is counted. */
  predicate CountsFirst(pc: Pc) {
    pc.Do? && pc.next.SendInfo? ==> pc.ops == [] || pc.ops == [CountReconnect]
  }

  predicate InfoOk(w: World, pc: Pc) {
    InfoRequests(w.wire) + Counted(pc) <= w.rec.reconnects && CountsFirst(pc)
  }

  lemma OpCounts(op: Op, r: Record, now: nat)
    requires Apply(op, r, now).Ok?
    ensures Apply(op, r, now).value.reconnects == r.reconnects + if op == CountReconnect then 1 else 0
  {
    match op
    case RequestCancel =>
    case Confirm =>
    case Move(_, _) =>
    case _ =>
  }

  lemma SentInfo(wire: seq<Wire>, m: Wire)
    ensures InfoRequests(wire + [m]) == InfoRequests(wire) + if m.KernelInfoRequest? then 1 else 0
  {
    assert (wire + [m])[..|wire|] == wire;
  }

  lemma WriteCounts(w: World, pc: Pc, v: World, q: Pc)
    requires PcOk(w, pc) && InfoOk(w, pc) && pc.Do? && DoStep(w, pc, v, q)
    ensures InfoOk(v, q)
  {
    DoLeads(w, pc, v, q);
    if q.Do? {
      OpCounts(pc.ops[0], w.rec, w.clock);
    }
  }

  lemma DecisionCounts(r: Record, clock: nat, pc: Pc)
    requires Decision(r, clock, pc).Some?
    ensures Counted(Decision(r, clock, pc).value) == 0 && CountsFirst(Decision(r, clock, pc).value)
  {
  }

  lemma SendingCounts(w: World, pc: Pc, v: World, q: Pc)
    requires InfoOk(w, pc) && (pc.ToSend? || pc.SendInfo?) && ActionStep(w, pc, v, q)
    ensures InfoOk(v, q)
  {
    if pc.ToSend? {
      SentInfo(w.wire, ExecuteRequest(pc.id, pc.code));
    } else {
      SentInfo(w.wire, KernelInfoRequest(pc.w.mode.infoId));
    }
  }

  lemma ReconnectCounts(r: Record, found: Option<Identity>, infoId: MsgId)
    ensures Counted(OnReconnect(r, found, infoId)) == 0 && CountsFirst(OnReconnect(r, found, infoId))
  {
  }

  lemma EventCounts(watch: KernelWorker.Watch, e: KernelEvent)
    ensures Counted(OnEvent(watch, e)) == 0 && CountsFirst(OnEvent(watch, e))
  {
  }

  lemma QuietCounts(w: World, pc: Pc, v: World, q: Pc)
    requires !pc.Do? && !pc.ToSend? && !pc.SendInfo? && ActionStep(w, pc, v, q)
    ensures v.wire == w.wire && v.rec.reconnects == w.rec.reconnects && Counted(q) == 0 && CountsFirst(q)
  {
    match pc
    case Await(watch) =>
      if e :| v == Watched(w, watch, e) && q == OnEvent(watch, e) {
        EventCounts(watch, e);
      }
    case Connecting(snapshot) =>
      if found, infoId :| q == OnReconnect(snapshot, found, infoId) {
        ReconnectCounts(snapshot, found, infoId);
      }
    case _ =>
  }

  lemma ActionCounts(w: World, pc: Pc, v: World, q: Pc)
    requires InfoOk(w, pc) && !pc.Do? && ActionStep(w, pc, v, q)
    ensures InfoOk(v, q)
  {
    if pc.ToSend? || pc.SendInfo? {
      SendingCounts(w, pc, v, q);
    } else {
      QuietCounts(w, pc, v, q);
    }
  }

  lemma WorkerCounts(w: World, pc: Pc, v: World, q: Pc)
    requires PcOk(w, pc) && InfoOk(w, pc) && PcStep(w, pc, v, q)
    ensures InfoOk(v, q)
  {
    RaisedIsPlain(w, pc);
    if ActionStep(w, pc, v, q) {
      if pc.Do? {
        WriteCounts(w, pc, v, q);
      } else {
        ActionCounts(w, pc, v, q);
      }
    } else if Decision(w.rec, w.clock, pc) == Some(q) {
      DecisionCounts(w.rec, w.clock, pc);
    }
  }

  /** The controller thread asks for nothing. */
  lemma ControlCounts(w: World, pc: Pc, v: World, q: Pc)
    requires PcOk(w, pc) && (IsForcePoint(pc) || IsBootPoint(pc)) && PcStep(w, pc, v, q)
    ensures v.wire == w.wire && v.rec.reconnects >= w.rec.reconnects
  {
    if pc.Do? && DoStep(w, pc, v, q) {
      DoLeads(w, pc, v, q);
      if q.Do? {
        OpCounts(pc.ops[0], w.rec, w.clock);
      }
    }
  }

  lemma OutsideCounts(x: Exec, y: Exec)
    requires Inv(x) && InfoOk(x.world, x.worker) && OutsideStep(x, y)
    ensures InfoOk(y.world, y.worker)
  {
    if Apply(RequestCancel, x.world.rec, x.world.clock) == Ok(y.world.rec) {
      OpCounts(RequestCancel, x.world.rec, x.world.clock);
    }
  }

  lemma StepCounts(x: Exec, y: Exec)
    requires Inv(x) && InfoOk(x.world, x.worker) && Step(x, y)
    ensures InfoOk(y.world, y.worker)
  {
    if PcStep(x.world, x.worker, y.world, y.worker) && y.control == x.control {
      WorkerCounts(x.world, x.worker, y.world, y.worker);
    } else if PcStep(x.world, x.control, y.world, y.control) && y.worker == x.worker {
      ControlCounts(x.world, x.control, y.world, y.control);
    } else {
      OutsideCounts(x, y);
    }
  }

  lemma {:induction false} RunCounts(run: seq<Exec>, i: nat)
    requires IsRun(run) && i < |run|
    ensures InfoOk(run[i].world, run[i].worker)
  {
    if i > 0 {
      RunCounts(run, i - 1);
      RunInv(run, i - 1);
      StepOfRun(run, i);
      StepCounts(run[i - 1], run[i]);
    }
  }

  /** In every run the kernel is asked for its info at most once per counted reconnect. */
  lemma AskedOncePerReconnect(run: seq<Exec>, i: nat)
    requires IsRun(run) && i < |run|
    ensures InfoRequests(run[i].world.wire) <= run[i].world.rec.reconnects
  {
    RunCounts(run, i);
  }

  // ---------------------------------------------------------------- the journals there are

  /** What may follow DISCONNECTED, and what may follow RUNNING. */
  predicate IsAnEnding(s: State) {
    s == Finished || s == Error || s == Interrupted || s == TimedOut
  }

  /** Every lifecycle, spelled out. */
  predicate IsLifecycle(j: seq<State>) {
    || j == [Created, Queued]
    || j == [Created, Queued, Interrupted]
    || j == [Created, Queued, Dispatching]
    || j == [Created, Queued, Dispatching, Unknown]
    || j == [Created, Queued, Dispatching, Running]
    || (|j| == 5 && j[..4] == [Created, Queued, Dispatching, Running] && (IsAnEnding(j[4]) || j[4] == Disconnected))
    || (|j| == 6 && j[..5] == [Created, Queued, Dispatching, Running, Disconnected] && (IsAnEnding(j[5]) || j[5] == Unknown))
  }

  lemma PathIsLifecycle(j: seq<State>)
    requires IsPath(j) && NeverResumes(j) && |j| >= 2
    ensures IsLifecycle(j)
  {
    PathClimbs(j, 0);
    assert Allows(j[0], j[1]);
    if |j| > 2 {
      assert Allows(j[1], j[2]);
    }
    if |j| > 3 {
      assert Allows(j[2], j[3]);
    }
    if |j| > 4 {
      assert Allows(j[3], j[4]);
      assert j[..4] == [j[0], j[1], j[2], j[3]];
    }
    if |j| > 5 {
      assert Allows(j[4], j[5]);
      assert j[..5] == [j[0], j[1], j[2], j[3], j[4]];
    }
  }

  /** In every run the journal is one of these, and ends in the state of the row. */
  lemma JournalIsLifecycle(run: seq<Exec>, i: nat)
    requires IsRun(run) && i < |run|
    ensures IsLifecycle(run[i].world.rec.journal)
    ensures run[i].world.rec.journal[|run[i].world.rec.journal| - 1] == run[i].world.rec.state
  {
    JournalIsPath(run, i);
    RunInv(run, i);
    PathIsLifecycle(run[i].world.rec.journal);
  }
}
