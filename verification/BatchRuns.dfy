/** The promises of a batch, for every run of the machine in Batch: who is sent, in which order, and what a finished batch says. */
module BatchRuns {
  import opened Wrappers
  import opened Lifecycle
  import opened KernelProof
  import opened Storage
  import opened KernelWorker
  import opened WorkerSafety
  import opened WorkerRuns
  import opened Batch
  import opened Endings

  // ---------------------------------------------------------------- who is abandoned, and why

  /** Where a member may be: in its place, unless the batch is being stopped or is over. */
  predicate MemberPlace(b: Batch, i: nat)
    requires i < |b.members|
  {
    var x := b.members[i];
    && ControlWrites(x.control)
    && if x.booting then BootInPlace(x.world.rec.state, x.control)
       else if b.pc.Inside? && b.pc.position == i then Bound(x.world.rec.state, x.worker)
       else if b.pc.Stopping? || b.pc.StoppingOne? || (b.pc.Resting? && IsOver(b.state)) then true
       else Settled(x.world.rec.state)
  }

  lemma EntryBound(s: State)
    requires Settled(s)
    ensures Bound(s, EntryPoint(s))
  {
  }

  lemma RunStepPlaces(b: Batch, c: Batch, i: nat)
    requires BatchInv(b) && RunStep(b, c) && i < |b.members|
    requires MemberPlace(b, i) && i !in b.left
    ensures |c.members| == |b.members| && MemberPlace(c, i) && i !in c.left
  {
    var x := b.members[i];
    assert x in b.members;
    match b.pc
    case At(p, _) =>
      if p == i { EntryBound(x.world.rec.state); }
    case _ =>
  }

  lemma EscalatePlaces(b: Batch, c: Batch, i: nat)
    requires EscalateStep(b, c) && i < |b.members| && MemberPlace(b, i) && i !in b.left
    ensures |c.members| == |b.members| && MemberPlace(c, i) && i !in c.left
  {
  }

  /** A member's own steps keep its worker where the state allows, unless they abandon it. */
  lemma MemberStaysBound(x: Exec, y: Exec)
    requires Inv(x) && MemberStep(x, y) && !Abandons(x, y) && !x.booting
    requires Bound(x.world.rec.state, x.worker) && ControlWrites(x.control)
    ensures Bound(y.world.rec.state, y.worker) && ControlWrites(y.control) && !y.booting
  {
    if OutsideStep(x, y) {
      OutsideStaysBound(x, y);
    } else if PcStep(x.world, x.control, y.world, y.control) && y.worker == x.worker && y.booting == x.booting {
      ForceWrites(x.world, x.control, y.world, y.control);
      ControlDrifts(x.world, x.control, y.world, y.control);
      BoundDrifts(x.world.rec.state, y.world.rec.state, x.worker);
    } else {
      IdleNeverSteps(x.world, y.world, y.worker);
      WorkerBound(x.world, x.worker, y.world, y.worker);
    }
  }

  lemma OutsideStaysBound(x: Exec, y: Exec)
    requires Inv(x) && OutsideStep(x, y) && !Abandons(x, y) && !x.booting && !y.booting
    requires x.worker.Idle? ==> y.worker.Idle?
    requires Bound(x.world.rec.state, x.worker) && ControlWrites(x.control)
    ensures Bound(y.world.rec.state, y.worker) && ControlWrites(y.control)
  {
    if Apply(RequestCancel, x.world.rec, x.world.clock) == Ok(y.world.rec) && y == x.(world := x.world.(rec := y.world.rec)) {
      CancelDrifts(x.world.rec, x.world.clock);
      BoundDrifts(x.world.rec.state, y.world.rec.state, x.worker);
    } else if (x.worker.Top? || x.worker.Recovering? || x.worker.Connecting?) && y == x.(worker := Idle) {
      DecisionBound(x.world, x.worker);
    }
  }

  /** The state of a member nobody works on only drifts. */
  lemma IdleMemberDrifts(x: Exec, y: Exec)
    requires Inv(x) && MemberStep(x, y) && ControlWrites(x.control) && x.worker.Idle?
    ensures Drifts(x.world.rec.state, y.world.rec.state)
    ensures !x.booting ==> ControlWrites(y.control)
  {
    IdleNeverSteps(x.world, y.world, y.worker);
    if PcStep(x.world, x.control, y.world, y.control) {
      ControlDrifts(x.world, x.control, y.world, y.control);
      if !x.booting {
        ForceWrites(x.world, x.control, y.world, y.control);
      }
    } else if Apply(RequestCancel, x.world.rec, x.world.clock) == Ok(y.world.rec) {
      CancelDrifts(x.world.rec, x.world.clock);
    }
  }

  lemma BootingMemberStays(x: Exec, y: Exec)
    requires Inv(x) && MemberStep(x, y) && x.booting && InPlace(x)
    ensures ControlWrites(y.control)
    ensures if y.booting then BootInPlace(y.world.rec.state, y.control) else Settled(y.world.rec.state)
  {
    if PcStep(x.world, x.control, y.world, y.control) && y.worker == x.worker && y.booting == x.booting {
      BootStaysInPlace(x, y);
    } else {
      IdleNeverSteps(x.world, y.world, y.worker);
      if Apply(RequestCancel, x.world.rec, x.world.clock) == Ok(y.world.rec) {
        CancelDrifts(x.world.rec, x.world.clock);
        BootDrifts(x.world.rec.state, y.world.rec.state, x.control);
      }
    }
  }

  lemma MemberStepPlaces(b: Batch, c: Batch, i: nat)
    requires BatchInv(b) && i < |b.members| && |c.members| == |b.members|
    requires MemberStep(b.members[i], c.members[i]) && c == b.(members := b.members[i := c.members[i]])
    requires MemberPlace(b, i) && i !in b.left && !Abandons(b.members[i], c.members[i])
    ensures MemberPlace(c, i) && i !in c.left
  {
    var x, y := b.members[i], c.members[i];
    assert x in b.members && ActiveOk(b, i);
    if x.booting {
      BootingMemberStays(x, y);
    } else if b.pc.Inside? && b.pc.position == i {
      MemberStaysBound(x, y);
    } else {
      StoppedMemberStays(b, i, x, y);
    }
  }

  lemma StoppedMemberStays(b: Batch, i: nat, x: Exec, y: Exec)
    requires BatchInv(b) && i < |b.members| && x == b.members[i] && MemberStep(x, y) && !x.booting
    requires MemberPlace(b, i) && !(b.pc.Inside? && b.pc.position == i)
    ensures ControlWrites(y.control) && !y.booting
    ensures b.pc.Stopping? || b.pc.StoppingOne? || (b.pc.Resting? && IsOver(b.state)) || Settled(y.world.rec.state)
  {
    assert x in b.members && ActiveOk(b, i);
    if x.worker.Idle? {
      IdleMemberDrifts(x, y);
    } else if PcStep(x.world, x.control, y.world, y.control) {
      ForceWrites(x.world, x.control, y.world, y.control);
    }
  }

  lemma CancelPlaces(b: Batch, c: Batch, i: nat)
    requires CancelAll(b, c) && i < |b.members| && MemberPlace(b, i) && i !in b.left
    ensures MemberPlace(c, i) && i !in c.left
  {
    var x, y := b.members[i], c.members[i];
    assert CancelsMember(x, y);
    CancelDrifts(x.world.rec, x.world.clock);
    if x.booting {
      BootDrifts(x.world.rec.state, y.world.rec.state, x.control);
    } else if b.pc.Inside? && b.pc.position == i {
      BoundDrifts(x.world.rec.state, y.world.rec.state, x.worker);
    }
  }

  lemma BatchStepPlaces(b: Batch, c: Batch, i: nat)
    requires BatchInv(b) && BatchStep(b, c) && i < |b.members|
    requires MemberPlace(b, i) && i !in b.left
    requires |c.members| == |b.members| && !Abandons(b.members[i], c.members[i])
    ensures MemberPlace(c, i) && i !in c.left
  {
    if RunStep(b, c) {
      RunStepPlaces(b, c, i);
    } else if EscalateStep(b, c) {
      EscalatePlaces(b, c, i);
    } else if c == b.(members := seq(|b.members|, k requires 0 <= k < |b.members| => Crash(b.members[k])), pc := Resting) {
    } else if !IsOver(b.state) && c == b.(state := BatchCancelling, cancelSeen := true) {
    } else {
      var k :| 0 <= k < |b.members| && MemberStep(b.members[k], c.members[k]) && c == b.(members := b.members[k := c.members[k]]);
      if k == i {
        MemberStepPlaces(b, c, i);
      }
    }
  }

  lemma SameCount(b: Batch, c: Batch)
    requires AnyStep(b, c)
    ensures |c.members| == |b.members| && b.left <= c.left && c.continueOnError == b.continueOnError
  {
  }

  /** At step k of the run, member i is abandoned. */
  ghost predicate AbandonedAt(run: seq<Batch>, i: nat, k: nat)
    requires 0 < k < |run|
  {
    i < |run[k - 1].members| && i < |run[k].members| && Abandons(run[k - 1].members[i], run[k].members[i])
  }

  /**
   The worker was closed while it was at member i, or an interrupt for member i could not be
   delivered before its request was confirmed, so that _ambiguous_interrupt left it dispatching.
   */
  ghost predicate WasAbandoned(run: seq<Batch>, n: nat, i: nat) {
    exists k :: 0 < k <= n && k < |run| && AbandonedAt(run, i, k)
  }

  lemma StartPlaces(b: Batch, i: nat)
    requires BatchInit(b) && i < |b.members|
    ensures MemberPlace(b, i) && i !in b.left
  {
    var x := b.members[i];
    assert x in b.members;
    var session, at, source, hash, key, timeout :| x.world.rec == NewRecord(session, at, source, hash, key, timeout);
  }

  lemma {:induction false} RunPlaces(run: seq<Batch>, n: nat, i: nat)
    requires IsAnyRun(run) && n < |run| && i < |run[n].members|
    requires !WasAbandoned(run, n, i)
    ensures MemberPlace(run[n], i) && i !in run[n].left
  {
    if n == 0 {
      StartPlaces(run[0], i);
    } else {
      AnyRunStep(run, n);
      SameCount(run[n - 1], run[n]);
      RunPlaces(run, n - 1, i);
      BatchRunInv(run, n - 1);
      assert !AbandonedAt(run, i, n);
      if BatchStep(run[n - 1], run[n]) {
        BatchStepPlaces(run[n - 1], run[n], i);
      } else {
        CancelPlaces(run[n - 1], run[n], i);
      }
    }
  }

  /** The loop goes past a member that is not over only if one of these two steps happened to it. */
  lemma LeftWasAbandoned(run: seq<Batch>, n: nat, i: nat)
    requires IsAnyRun(run) && n < |run| && i < |run[n].members| && i in run[n].left
    ensures WasAbandoned(run, n, i)
  {
    if !WasAbandoned(run, n, i) {
      RunPlaces(run, n, i);
    }
  }

  // ---------------------------------------------------------------- who is sent, and when

  predicate IsBegun(x: Exec) {
    x.world.rec.messageId.Some?
  }

  lemma PcStepBegins(w: World, pc: Pc, v: World, q: Pc)
    requires PcStep(w, pc, v, q) && WorldOk(w) && PcOk(w, pc) && w.rec.messageId.None? && v.rec.messageId.Some?
    ensures pc.Prepared? && w.rec.state == Queued
  {
    if pc.Do? {
      FirstIsOrdinary(w, pc);
      OrdinaryId(pc.ops[0], w.rec, w.clock);
    }
  }

  lemma OrdinaryId(op: Op, r: Record, now: nat)
    requires !op.Begin?
    ensures Apply(op, r, now).Ok? ==> Apply(op, r, now).value.messageId == r.messageId
  {
  }

  /** A member's dispatch begins only from the queue, while nobody has cancelled it. */
  lemma MemberBegins(x: Exec, y: Exec)
    requires Inv(x) && MemberStep(x, y) && !IsBegun(x) && IsBegun(y)
    ensures x.worker.Prepared? && x.world.rec.state == Queued && !x.world.rec.cancelled
  {
    if PcStep(x.world, x.worker, y.world, y.worker) {
      PcStepBegins(x.world, x.worker, y.world, y.worker);
    } else if PcStep(x.world, x.control, y.world, y.control) {
      PcStepBegins(x.world, x.control, y.world, y.control);
    } else {
      OrdinaryId(RequestCancel, x.world.rec, x.world.clock);
    }
  }

  lemma StepBegins(b: Batch, c: Batch, j: nat)
    requires BatchInv(b) && AnyStep(b, c) && j < |b.members| && |c.members| == |b.members|
    requires !IsBegun(b.members[j]) && IsBegun(c.members[j])
    ensures PassedBefore(b, j) && b.members[j].world.rec.state == Queued && !b.members[j].world.rec.cancelled
  {
    if CancelAll(b, c) {
      assert CancelsMember(b.members[j], c.members[j]);
      OrdinaryId(RequestCancel, b.members[j].world.rec, b.members[j].world.clock);
    } else {
      MemberMoved(b, c, j);
      assert b.members[j] in b.members && ActiveOk(b, j);
      MemberBegins(b.members[j], c.members[j]);
    }
  }

  /** Only a member's own step changes its row. */
  lemma MemberMoved(b: Batch, c: Batch, j: nat)
    requires BatchStep(b, c) && j < |b.members| && |c.members| == |b.members|
    requires c.members[j].world != b.members[j].world
    ensures MemberStep(b.members[j], c.members[j])
  {
    if RunStep(b, c) {
      RunStepKeepsWorlds(b, c, j);
    }
  }

  lemma RunStepKeepsWorlds(b: Batch, c: Batch, j: nat)
    requires RunStep(b, c) && j < |b.members| && |c.members| == |b.members|
    ensures c.members[j].world == b.members[j].world
  {
    match b.pc
    case At(_, _) =>
    case Stopping(_) =>
    case _ =>
  }

  lemma RowStays(b: Batch, c: Batch, j: nat)
    requires BatchInv(b) && AnyStep(b, c) && j < |b.members| && |c.members| == |b.members|
    ensures var r, q := b.members[j].world.rec, c.members[j].world.rec;
            (r.state == Finished ==> q.state == Finished) && (r.state != Queued ==> q.state != Queued)
  {
    assert b.members[j] in b.members;
    if CancelAll(b, c) {
      assert CancelsMember(b.members[j], c.members[j]);
    } else if c.members[j].world != b.members[j].world {
      MemberMoved(b, c, j);
      StepGrows(b.members[j], c.members[j]);
      StepInv(b.members[j], c.members[j]);
      if b.members[j].world.rec.state != Queued {
        NeverBackInQueue(b.members[j].world.rec, c.members[j].world.rec);
      }
    }
  }

  /** At step k member j's dispatch begins, after a cancel of the batch was accepted and before its own was committed. */
  ghost predicate LateAt(run: seq<Batch>, j: nat, k: nat)
    requires 0 < k < |run|
  {
    && j < |run[k - 1].members| && j < |run[k].members|
    && !IsBegun(run[k - 1].members[j]) && IsBegun(run[k].members[j])
    && run[k - 1].cancelSeen && !run[k - 1].members[j].world.rec.cancelled
  }

  ghost predicate BegunLate(run: seq<Batch>, n: nat, j: nat) {
    exists k :: 0 < k <= n && k < |run| && LateAt(run, j, k)
  }

  lemma {:induction false} Order(run: seq<Batch>, n: nat, i: nat, j: nat)
    requires IsAnyRun(run) && n < |run| && i < j < |run[n].members| && !run[n].continueOnError
    requires IsBegun(run[n].members[j])
    ensures Done(run[n], i) || BegunLate(run, n, j)
    decreases n, 1
  {
    if n == 0 {
      StartIsUnbegun(run[0], j);
    } else {
      AnyRunStep(run, n);
      SameCount(run[n - 1], run[n]);
      BatchRunInv(run, n - 1);
      OrderStep(run, n, i, j);
      RowStays(run[n - 1], run[n], i);
    }
  }

  lemma {:induction false} OrderStep(run: seq<Batch>, n: nat, i: nat, j: nat)
    requires IsAnyRun(run) && 0 < n < |run| && i < j < |run[n].members| && !run[n].continueOnError
    requires IsBegun(run[n].members[j])
    requires AnyStep(run[n - 1], run[n]) && BatchInv(run[n - 1])
    requires |run[n - 1].members| == |run[n].members| && run[n - 1].continueOnError == run[n].continueOnError
    ensures Done(run[n - 1], i) || BegunLate(run, n, j)
    decreases n, 0
  {
    if IsBegun(run[n - 1].members[j]) {
      Order(run, n - 1, i, j);
    } else {
      StepBegins(run[n - 1], run[n], j);
      assert Passed(run[n - 1], i);
      assert run[n - 1].cancelSeen ==> LateAt(run, j, n);
    }
  }

  lemma StartIsUnbegun(b: Batch, j: nat)
    requires BatchInit(b) && j < |b.members|
    ensures !IsBegun(b.members[j])
  {
    assert b.members[j] in b.members;
  }

  lemma SentIsBegun(run: seq<Batch>, n: nat, j: nat)
    requires IsAnyRun(run) && n < |run| && j < |run[n].members| && Executes(run[n].members[j].world.wire) > 0
    ensures IsBegun(run[n].members[j])
  {
    BatchRunInv(run, n);
    assert run[n].members[j] in run[n].members;
  }

  /**
   The stop policy, across crashes, restarts and cancels: without continue-on-error a member is
   sent only after every earlier member is FINISHED, but for an earlier member that was abandoned,
   and but for a member whose dispatch began between the cancel of the batch and its own.
   */
  lemma SentInOrder(run: seq<Batch>, n: nat, i: nat, j: nat)
    requires IsAnyRun(run) && n < |run| && !run[n].continueOnError
    requires i < j < |run[n].members| && Executes(run[n].members[j].world.wire) > 0
    ensures run[n].members[i].world.rec.state == Finished || WasAbandoned(run, n, i) || BegunLate(run, n, j)
  {
    SentIsBegun(run, n, j);
    Order(run, n, i, j);
    if i in run[n].left {
      LeftWasAbandoned(run, n, i);
    }
  }

  /** When a cancel is one step, no member is in the queue once it was accepted. */
  lemma {:induction false} CancelEmptiesQueue(run: seq<Batch>, n: nat, j: nat)
    requires IsAtomicRun(run) && n < |run| && j < |run[n].members| && run[n].cancelSeen
    ensures run[n].members[j].world.rec.state != Queued
  {
    if n > 0 {
      AtomicRunIsAny(run);
      assert AtomicStepAt(run, n);
      SameCount(run[n - 1], run[n]);
      BatchRunInv(run, n - 1);
      if run[n - 1].cancelSeen {
        CancelEmptiesQueue(run, n - 1, j);
        RowStays(run[n - 1], run[n], j);
      } else {
        assert CancelsMember(run[n - 1].members[j], run[n].members[j]);
      }
    }
  }

  lemma NeverLate(run: seq<Batch>, n: nat, j: nat)
    requires IsAtomicRun(run) && n < |run|
    ensures !BegunLate(run, n, j)
  {
    AtomicRunIsAny(run);
    forall k | 0 < k <= n && k < |run| ensures !LateAt(run, j, k) {
      if j < |run[k - 1].members| && j < |run[k].members| && run[k - 1].cancelSeen {
        CancelEmptiesQueue(run, k - 1, j);
        NotBegunAt(run, k, j);
      }
    }
  }

  lemma NotBegunAt(run: seq<Batch>, k: nat, j: nat)
    requires IsAnyRun(run) && 0 < k < |run| && j < |run[k - 1].members| && j < |run[k].members|
    requires run[k - 1].members[j].world.rec.state != Queued
    ensures IsBegun(run[k].members[j]) ==> IsBegun(run[k - 1].members[j])
  {
    AnyRunStep(run, k);
    SameCount(run[k - 1], run[k]);
    BatchRunInv(run, k - 1);
    StepBeginsQueued(run[k - 1], run[k], j);
  }

  lemma StepBeginsQueued(b: Batch, c: Batch, j: nat)
    requires BatchInv(b) && AnyStep(b, c) && j < |b.members| && |c.members| == |b.members|
    ensures IsBegun(c.members[j]) && !IsBegun(b.members[j]) ==> b.members[j].world.rec.state == Queued
  {
    if !IsBegun(b.members[j]) && IsBegun(c.members[j]) {
      StepBegins(b, c, j);
    }
  }

  /** When a cancel is one step the order holds after it too. */
  lemma SentInOrderAtomic(run: seq<Batch>, n: nat, i: nat, j: nat)
    requires IsAtomicRun(run) && n < |run| && !run[n].continueOnError
    requires i < j < |run[n].members| && Executes(run[n].members[j].world.wire) > 0
    ensures run[n].members[i].world.rec.state == Finished || WasAbandoned(run, n, i)
  {
    AtomicRunIsAny(run);
    SentInOrder(run, n, i, j);
    NeverLate(run, n, j);
  }

  /** So the members sent form a prefix, unless one was abandoned. */
  lemma SentIsPrefix(run: seq<Batch>, n: nat, i: nat, j: nat)
    requires IsAtomicRun(run) && n < |run| && !run[n].continueOnError
    requires i < j < |run[n].members| && Executes(run[n].members[j].world.wire) > 0
    ensures Executes(run[n].members[i].world.wire) == 1 || WasAbandoned(run, n, i)
  {
    SentInOrderAtomic(run, n, i, j);
    AtomicRunIsAny(run);
    BatchRunInv(run, n);
    assert run[n].members[i] in run[n].members;
  }

  /** A batch reported finished consists of finished members, but for members that were abandoned. */
  lemma FinishedBatch(run: seq<Batch>, n: nat, i: nat)
    requires IsAnyRun(run) && n < |run| && run[n].state == BatchFinished && i < |run[n].members|
    ensures run[n].members[i].world.rec.state == Finished || WasAbandoned(run, n, i)
  {
    BatchRunInv(run, n);
    assert Done(run[n], i);
    if i in run[n].left {
      LeftWasAbandoned(run, n, i);
    }
  }
}
