/**
 A batch: members run one after another on one worker thread. The machine of KernelWorker does
 the work of each member; this module adds the batch row, _run_batch with its own program
 points, a client's cancel in its separate transactions, and crashes that hit every member.
 */
module Batch {
  import opened Wrappers
  import opened Lifecycle
  import opened KernelProof
  import opened Storage
  import opened KernelWorker
  import opened WorkerSafety
  import opened WorkerRuns

  datatype BatchState = BatchQueued | BatchRunning | BatchCancelling | BatchFinished | BatchError | BatchInterrupted

  predicate IsOver(s: BatchState) {
    s.BatchFinished? || s.BatchError? || s.BatchInterrupted?
  }

  /** set_batch_state: a terminal batch row never changes; any other is overwritten. */
  function Set(current: BatchState, to: BatchState): BatchState {
    if IsOver(current) then current else to
  }

  datatype BatchPc =
    | Resting
    | Opened
    | MarkRunning
    | At(position: nat, sawFailure: bool)
    | Inside(position: nat, sawFailure: bool)
    | Judged(position: nat, failed: bool, sawFailure: bool)
    | Stopping(position: nat)
    | StoppingOne(position: nat)
    | Tail(sawFailure: bool)
    | Conclude(final: BatchState)

  /**
   left: positions at which the loop went on although the member is not terminal; BatchRuns shows
   why that happens. cancelSeen: a cancel was ever accepted.
   */
  datatype Batch = Batch(
    state: BatchState, continueOnError: bool, members: seq<Exec>, pc: BatchPc, left: set<nat>, cancelSeen: bool)

  predicate Failed(s: State) {
    IsTerminal(s) && s != Finished
  }

  /** Any step of a member that is not started by the batch: writes, observations, cancels, time, force. */
  ghost predicate MemberStep(x: Exec, y: Exec) {
    && Step(x, y)
    && (x.worker.Idle? ==> y.worker.Idle?)
    && (y.booting ==> x.booting)
    && !x.worker.Failed?
  }

  function Crash(x: Exec): Exec {
    x.(worker := Idle, control := Reconcile, booting := true)
  }

  function StopPoint(s: State): Pc {
    if s == Queued then Do(Closing(Interrupted, Some(Live)), Idle, Pc.Failed, None) else Idle
  }

  function EntryPoint(s: State): Pc {
    if s == Disconnected then Recovering else if s == Queued then Loaded else Idle
  }

  /** One step of _run_batch. */
  ghost predicate RunStep(b: Batch, c: Batch) {
    match b.pc
    case Resting =>
      !IsOver(b.state) && (forall x <- b.members :: !x.booting) && c == b.(pc := Opened)
    case Opened =>
      c == b.(pc := if IsOver(b.state) then Resting else if b.state == BatchQueued then MarkRunning else At(0, false))
    case MarkRunning => c == b.(state := Set(b.state, BatchRunning), pc := At(0, false))
    case At(p, saw) =>
      if p < |b.members| then
        var x := b.members[p];
        c == b.(members := b.members[p := x.(worker := EntryPoint(x.world.rec.state))], pc := Inside(p, saw))
      else c == b.(pc := Tail(saw))
    case Inside(p, saw) =>
      && p < |b.members| && b.members[p].worker == Idle
      && var s := b.members[p].world.rec.state;
         c == b.(pc := Judged(p, Failed(s), saw || Failed(s)), left := if IsTerminal(s) then b.left else b.left + {p})
    case Judged(p, failed, saw) =>
      c == b.(pc := if failed && !b.continueOnError && b.state != BatchCancelling then Stopping(p + 1) else At(p + 1, saw))
    case Stopping(p) =>
      if p < |b.members| then
        var x := b.members[p];
        c == b.(members := b.members[p := x.(worker := StopPoint(x.world.rec.state))], pc := StoppingOne(p))
      else c == b.(state := Set(b.state, BatchError), pc := Resting)
    case StoppingOne(p) => p < |b.members| && b.members[p].worker == Idle && c == b.(pc := Stopping(p + 1))
    case Tail(saw) =>
      c == b.(pc := Conclude(if b.state == BatchCancelling then BatchInterrupted else if saw then BatchError else BatchFinished))
    case Conclude(final) => c == b.(state := Set(b.state, final), pc := Resting)
  }

  /** An exception inside a member's activity reaches _batch_internal_failure, not the member's own handler. */
  ghost predicate EscalateStep(b: Batch, c: Batch) {
    && (b.pc.Inside? || b.pc.StoppingOne?) && b.pc.position < |b.members|
    && b.members[b.pc.position].worker.Failed?
    && c == b.(members := b.members[b.pc.position := b.members[b.pc.position].(worker := Idle)], pc := Stopping(0))
  }

  ghost predicate BatchStep(b: Batch, c: Batch) {
    || RunStep(b, c)
    || EscalateStep(b, c)
    // request_batch_cancel marks the batch; the members' own cancels follow one by one
    || (!IsOver(b.state) && c == b.(state := BatchCancelling, cancelSeen := true))
    || (|c.members| == |b.members|
        && exists i :: 0 <= i < |b.members| && MemberStep(b.members[i], c.members[i])
                       && c == b.(members := b.members[i := c.members[i]]))
    || c == b.(members := seq(|b.members|, i requires 0 <= i < |b.members| => Crash(b.members[i])), pc := Resting)
  }

  ghost predicate BatchInit(b: Batch) {
    && b.state == BatchQueued && b.pc == Resting && b.left == {} && !b.cancelSeen
    && forall x <- b.members :: Init(x)
  }

  // ---------------------------------------------------------------- what every step keeps

  predicate Done(b: Batch, i: nat)
    requires i < |b.members|
  {
    b.members[i].world.rec.state == Finished || i in b.left
  }

  /** The batch may go past member i. */
  predicate Passed(b: Batch, i: nat)
    requires i < |b.members|
  {
    Done(b, i) || b.cancelSeen || b.continueOnError
  }

  predicate PassedBefore(b: Batch, p: nat) {
    forall i | 0 <= i < p && i < |b.members| :: Passed(b, i)
  }

  predicate DoneBefore(b: Batch, p: nat) {
    forall i | 0 <= i < p && i < |b.members| :: Done(b, i)
  }

  predicate BatchPcOk(b: Batch) {
    match b.pc
    case At(p, saw) => PassedBefore(b, p) && (!saw ==> DoneBefore(b, p))
    case Inside(p, saw) => p < |b.members| && PassedBefore(b, p) && (!saw ==> DoneBefore(b, p))
    case Judged(p, failed, saw) =>
      p < |b.members| && PassedBefore(b, p) && (failed || Done(b, p)) && (!saw ==> !failed && DoneBefore(b, p + 1))
    case StoppingOne(p) => p < |b.members|
    case Tail(saw) => !saw ==> DoneBefore(b, |b.members|)
    case Conclude(final) => IsOver(final) && (final == BatchFinished ==> DoneBefore(b, |b.members|))
    case _ => true
  }

  /** Only the member the batch is at has a live activity; while it is being stopped it cannot send. */
  predicate ActiveOk(b: Batch, i: nat)
    requires i < |b.members|
  {
    && (b.members[i].worker.Idle? || ((b.pc.Inside? || b.pc.StoppingOne?) && b.pc.position == i))
    && (b.pc.StoppingOne? && b.pc.position == i ==> IsStopPoint(b.members[i].worker))
  }

  predicate IsStopPoint(pc: Pc) {
    pc.Idle? || pc.Failed? || (pc.Do? && pc.next.Idle? && pc.onError.Failed?)
  }

  /** Nothing here looks inside a member beyond its state, its wire and whether it is active. */
  predicate Policy(b: Batch) {
    && (forall i | 0 <= i < |b.members| :: ActiveOk(b, i))
    && (forall i | 0 <= i < |b.members| :: Executes(b.members[i].world.wire) > 0 ==> PassedBefore(b, i))
    && BatchPcOk(b)
    && (b.state == BatchCancelling ==> b.cancelSeen)
    && (b.state == BatchFinished ==> DoneBefore(b, |b.members|))
  }

  ghost predicate BatchInv(b: Batch) {
    && (forall x <- b.members :: Inv(x))
    && (b.pc != Resting ==> forall x <- b.members :: !x.booting)
    && Policy(b)
  }

  lemma SendsOnlyWhenActive(x: Exec, y: Exec)
    requires Inv(x) && Step(x, y) && !x.worker.ToSend?
    ensures Executes(y.world.wire) == Executes(x.world.wire)
  {
    StepSends(x, y);
    if y.world.wire != x.world.wire {
      var id :| y.world.wire == x.world.wire + [KernelInfoRequest(id)];
      ExecutesAfterInfo(x.world.wire, id);
    }
  }

  lemma FinishedStays(x: Exec, y: Exec)
    requires Inv(x) && Step(x, y)
    ensures x.world.rec.state == Finished ==> y.world.rec.state == Finished
  {
    StepGrows(x, y);
  }

  /** Facts about passed members survive any change that keeps finished members finished. */
  predicate Keeps(b: Batch, c: Batch) {
    && |c.members| == |b.members|
    && b.left <= c.left && (b.cancelSeen ==> c.cancelSeen) && c.continueOnError == b.continueOnError
    && forall i | 0 <= i < |b.members| :: b.members[i].world.rec.state == Finished ==> c.members[i].world.rec.state == Finished
  }

  lemma KeepsBefore(b: Batch, c: Batch, p: nat)
    requires Keeps(b, c)
    ensures PassedBefore(b, p) ==> PassedBefore(c, p)
    ensures DoneBefore(b, p) ==> DoneBefore(c, p)
  {
    forall i | 0 <= i < p && i < |b.members|
      ensures Passed(b, i) ==> Passed(c, i)
      ensures Done(b, i) ==> Done(c, i)
    {
    }
  }

  lemma PcKept(b: Batch, c: Batch)
    requires BatchPcOk(b) && Keeps(b, c) && c.pc == b.pc
    ensures BatchPcOk(c)
    ensures DoneBefore(b, |b.members|) ==> DoneBefore(c, |c.members|)
  {
    KeepsBefore(b, c, |b.members|);
    if b.pc.At? || b.pc.Inside? || b.pc.Judged? {
      KeepsBefore(b, c, b.pc.position);
      KeepsBefore(b, c, b.pc.position + 1);
    }
  }

  /** What a member's own step can change, as far as the policy is concerned. */
  predicate Follows(x: Exec, y: Exec) {
    && (x.world.rec.state == Finished ==> y.world.rec.state == Finished)
    && (x.worker.Idle? ==> y.worker.Idle?)
    && (IsStopPoint(x.worker) ==> IsStopPoint(y.worker))
    && (Executes(y.world.wire) > 0 ==> Executes(x.world.wire) > 0 || !IsStopPoint(x.worker))
    && (y.booting ==> x.booting)
  }

  lemma MemberFollows(x: Exec, y: Exec)
    requires Inv(x) && MemberStep(x, y)
    ensures Inv(y) && Follows(x, y)
  {
    StepInv(x, y);
    FinishedStays(x, y);
    if IsStopPoint(x.worker) {
      StopStep(x, y);
    }
    if !x.worker.ToSend? {
      SendsOnlyWhenActive(x, y);
    }
  }

  lemma StopStep(x: Exec, y: Exec)
    requires MemberStep(x, y) && IsStopPoint(x.worker)
    ensures IsStopPoint(y.worker)
  {
  }

  lemma PolicyFollows(b: Batch, c: Batch, i: nat)
    requires Policy(b) && i < |b.members| && |c.members| == |b.members|
    requires Follows(b.members[i], c.members[i]) && c == b.(members := b.members[i := c.members[i]])
    ensures Policy(c)
  {
    assert Keeps(b, c);
    PcKept(b, c);
    forall k | 0 <= k < |c.members|
      ensures ActiveOk(c, k)
      ensures Executes(c.members[k].world.wire) > 0 ==> PassedBefore(c, k)
    {
      assert ActiveOk(b, k);
      KeepsBefore(b, c, k);
    }
  }

  lemma MemberStepKeeps(b: Batch, c: Batch, i: nat)
    requires BatchInv(b) && i < |b.members| && |c.members| == |b.members|
    requires MemberStep(b.members[i], c.members[i]) && c == b.(members := b.members[i := c.members[i]])
    ensures BatchInv(c)
  {
    assert b.members[i] in b.members;
    MemberFollows(b.members[i], c.members[i]);
    PolicyFollows(b, c, i);
    MembersAfter(b, c, i);
  }

  lemma MembersAfter(b: Batch, c: Batch, i: nat)
    requires i < |b.members| && |c.members| == |b.members| && c.members == b.members[i := c.members[i]]
    ensures forall x <- c.members :: x == c.members[i] || x in b.members
  {
    forall x <- c.members ensures x == c.members[i] || x in b.members {
      var k :| 0 <= k < |c.members| && c.members[k] == x;
      assert k != i ==> x == b.members[k];
    }
  }

  lemma EnterInv(x: Exec)
    requires Inv(x) && x.worker.Idle? && !x.booting
    ensures Inv(x.(worker := EntryPoint(x.world.rec.state)))
    ensures Inv(x.(worker := StopPoint(x.world.rec.state)))
  {
    if x.world.rec.state == Queued {
      NeverDispatched(x.world.rec);
      UndispatchedOk(x.world);
    }
  }

  // ---------------------------------------------------------------- steps of the batch itself

  /** c differs from b at most in the program point, the batch row and the bookkeeping. */
  predicate SameMembers(b: Batch, c: Batch) {
    && c.members == b.members && c.continueOnError == b.continueOnError
    && b.left <= c.left && (b.cancelSeen ==> c.cancelSeen)
  }

  lemma PointKeeps(b: Batch, c: Batch)
    requires BatchInv(b) && SameMembers(b, c)
    requires forall i | 0 <= i < |c.members| :: ActiveOk(c, i)
    requires BatchPcOk(c)
    requires c.state == BatchCancelling ==> c.cancelSeen
    requires c.state == BatchFinished ==> DoneBefore(c, |c.members|)
    requires c.pc != Resting ==> forall x <- c.members :: !x.booting
    ensures BatchInv(c)
  {
    assert Keeps(b, c);
    forall i | 0 <= i < |c.members| ensures Executes(c.members[i].world.wire) > 0 ==> PassedBefore(c, i) {
      KeepsBefore(b, c, i);
    }
  }

  lemma Outside(b: Batch)
    requires BatchInv(b) && !b.pc.Inside? && !b.pc.StoppingOne?
    ensures forall x <- b.members :: x.worker.Idle?
    ensures forall i | 0 <= i < |b.members| :: b.members[i].worker.Idle?
  {
    forall x <- b.members ensures x.worker.Idle? {
      var i :| 0 <= i < |b.members| && b.members[i] == x;
      assert ActiveOk(b, i);
    }
    forall i | 0 <= i < |b.members| ensures b.members[i].worker.Idle? {
      assert ActiveOk(b, i);
    }
  }

  lemma ExtendBefore(b: Batch, p: nat)
    requires p < |b.members|
    ensures PassedBefore(b, p) && Passed(b, p) ==> PassedBefore(b, p + 1)
    ensures DoneBefore(b, p) && Done(b, p) ==> DoneBefore(b, p + 1)
  {
  }

  lemma AllBefore(b: Batch, p: nat)
    requires p >= |b.members|
    ensures DoneBefore(b, p) ==> DoneBefore(b, |b.members|)
    ensures PassedBefore(b, p) ==> PassedBefore(b, |b.members|)
  {
  }

  /** Entering or stopping member p: only its activity changes. */
  lemma EnterKeeps(b: Batch, c: Batch, p: nat)
    requires BatchInv(b) && p < |b.members|
    requires (b.pc.At? || b.pc.Stopping?) && b.pc.position == p && RunStep(b, c)
    ensures BatchInv(c)
  {
    Outside(b);
    var x := b.members[p];
    assert x in b.members;
    EnterInv(x);
    MembersAfter(b, c, p);
    EnterPolicy(b, c, p);
  }

  lemma EnterPolicy(b: Batch, c: Batch, p: nat)
    requires Policy(b) && p < |b.members|
    requires (b.pc.At? || b.pc.Stopping?) && b.pc.position == p && RunStep(b, c)
    ensures Policy(c)
  {
    assert Keeps(b, c);
    forall i | 0 <= i < |c.members|
      ensures ActiveOk(c, i)
      ensures Executes(c.members[i].world.wire) > 0 ==> PassedBefore(c, i)
    {
      assert ActiveOk(b, i);
      KeepsBefore(b, c, i);
    }
    KeepsBefore(b, c, p);
    KeepsBefore(b, c, |b.members|);
  }

  lemma InsideKeeps(b: Batch, c: Batch)
    requires BatchInv(b) && RunStep(b, c)
    requires b.pc.Inside? || b.pc.StoppingOne?
    ensures BatchInv(c)
  {
    var p := b.pc.position;
    assert Keeps(b, c);
    forall i | 0 <= i < |c.members| ensures ActiveOk(c, i) {
      assert ActiveOk(b, i);
    }
    KeepsBefore(b, c, p);
    KeepsBefore(b, c, |b.members|);
    ExtendBefore(c, p);
    PointKeeps(b, c);
  }

  lemma OutsideKeeps(b: Batch, c: Batch)
    requires BatchInv(b) && RunStep(b, c)
    requires b.pc.Resting? || b.pc.Opened? || b.pc.MarkRunning? || b.pc.Tail? || b.pc.Conclude?
    ensures BatchInv(c)
  {
    AllIdle(b, c);
    KeepsBefore(b, c, |b.members|);
    PointKeeps(b, c);
  }

  /** At the end of the list, or of what is to be stopped. */
  lemma EndKeeps(b: Batch, c: Batch)
    requires BatchInv(b) && RunStep(b, c)
    requires (b.pc.At? || b.pc.Stopping?) && b.pc.position >= |b.members|
    ensures BatchInv(c)
  {
    AllIdle(b, c);
    KeepsBefore(b, c, |b.members|);
    AllBefore(b, b.pc.position);
    PointKeeps(b, c);
  }

  lemma AllIdle(b: Batch, c: Batch)
    requires BatchInv(b) && !b.pc.Inside? && !b.pc.StoppingOne? && SameMembers(b, c)
    ensures Keeps(b, c) && forall i | 0 <= i < |c.members| :: ActiveOk(c, i)
  {
    Outside(b);
  }

  lemma JudgedKeeps(b: Batch, c: Batch)
    requires BatchInv(b) && RunStep(b, c) && b.pc.Judged?
    ensures BatchInv(c)
  {
    AllIdle(b, c);
    KeepsBefore(b, c, |b.members|);
    KeepsBefore(b, c, b.pc.position);
    KeepsBefore(b, c, b.pc.position + 1);
    ExtendBefore(c, b.pc.position);
    PointKeeps(b, c);
  }

  lemma EscalateKeeps(b: Batch, c: Batch)
    requires BatchInv(b) && EscalateStep(b, c)
    ensures BatchInv(c)
  {
    var p := b.pc.position;
    var x := b.members[p];
    assert x in b.members;
    MembersAfter(b, c, p);
    assert Keeps(b, c);
    forall i | 0 <= i < |c.members|
      ensures ActiveOk(c, i)
      ensures Executes(c.members[i].world.wire) > 0 ==> PassedBefore(c, i)
    {
      assert ActiveOk(b, i);
      KeepsBefore(b, c, i);
    }
    KeepsBefore(b, c, |b.members|);
  }

  lemma CrashKeeps(b: Batch, c: Batch)
    requires BatchInv(b)
    requires c == b.(members := seq(|b.members|, i requires 0 <= i < |b.members| => Crash(b.members[i])), pc := Resting)
    ensures BatchInv(c)
  {
    assert Keeps(b, c);
    forall x <- c.members ensures Inv(x) {
      var i :| 0 <= i < |c.members| && c.members[i] == x;
      assert b.members[i] in b.members;
      assert Step(b.members[i], x);
      StepInv(b.members[i], x);
    }
    forall i | 0 <= i < |c.members| ensures Executes(c.members[i].world.wire) > 0 ==> PassedBefore(c, i) {
      KeepsBefore(b, c, i);
    }
    KeepsBefore(b, c, |b.members|);
  }

  lemma CancelKeeps(b: Batch, c: Batch)
    requires BatchInv(b) && !IsOver(b.state) && c == b.(state := BatchCancelling, cancelSeen := true)
    ensures BatchInv(c)
  {
    assert Keeps(b, c);
    PcKept(b, c);
    forall i | 0 <= i < |c.members| ensures ActiveOk(c, i) {
      assert ActiveOk(b, i);
    }
    PointKeeps(b, c);
  }

  lemma BatchStepInv(b: Batch, c: Batch)
    requires BatchInv(b) && BatchStep(b, c)
    ensures BatchInv(c)
  {
    if RunStep(b, c) {
      if b.pc.Inside? || b.pc.StoppingOne? {
        InsideKeeps(b, c);
      } else if (b.pc.At? || b.pc.Stopping?) && b.pc.position < |b.members| {
        EnterKeeps(b, c, b.pc.position);
      } else if b.pc.Judged? {
        JudgedKeeps(b, c);
      } else if b.pc.At? || b.pc.Stopping? {
        EndKeeps(b, c);
      } else {
        OutsideKeeps(b, c);
      }
    } else if EscalateStep(b, c) {
      EscalateKeeps(b, c);
    } else if !IsOver(b.state) && c == b.(state := BatchCancelling, cancelSeen := true) {
      CancelKeeps(b, c);
    } else if c == b.(members := seq(|b.members|, i requires 0 <= i < |b.members| => Crash(b.members[i])), pc := Resting) {
      CrashKeeps(b, c);
    } else {
      var i :| 0 <= i < |b.members| && MemberStep(b.members[i], c.members[i])
               && c == b.(members := b.members[i := c.members[i]]);
      MemberStepKeeps(b, c, i);
    }
  }

  // ---------------------------------------------------------------- runs

  /** A cancel of the batch in which marking the batch and cancelling every member is one step. */
  ghost predicate CancelAll(b: Batch, c: Batch) {
    && !IsOver(b.state) && |c.members| == |b.members|
    && c == b.(state := BatchCancelling, cancelSeen := true, members := c.members)
    && forall i | 0 <= i < |b.members| :: CancelsMember(b.members[i], c.members[i])
  }

  ghost predicate CancelsMember(x: Exec, y: Exec) {
    Apply(RequestCancel, x.world.rec, x.world.clock) == Ok(y.world.rec) && y == x.(world := x.world.(rec := y.world.rec))
  }

  lemma CancelAllKeeps(b: Batch, c: Batch)
    requires BatchInv(b) && CancelAll(b, c)
    ensures BatchInv(c)
  {
    forall i | 0 <= i < |b.members| ensures MemberCancelled(b.members[i], c.members[i]) {
      assert b.members[i] in b.members && CancelsMember(b.members[i], c.members[i]);
      CancelKeepsMember(b.members[i], c.members[i]);
    }
    CancelAllPolicy(b, c);
    forall x <- c.members ensures Inv(x) && (c.pc != Resting ==> !x.booting) {
      var i :| 0 <= i < |c.members| && c.members[i] == x;
      assert MemberCancelled(b.members[i], c.members[i]) && b.members[i] in b.members;
    }
  }

  /** What a member's cancel leaves as it is. */
  ghost predicate MemberCancelled(x: Exec, y: Exec) {
    && Inv(y) && y.worker == x.worker && y.world.wire == x.world.wire && y.booting == x.booting
    && (x.world.rec.state == Finished ==> y.world.rec.state == Finished)
  }

  lemma CancelKeepsMember(x: Exec, y: Exec)
    requires Inv(x) && CancelsMember(x, y)
    ensures MemberCancelled(x, y)
  {
    CancelStepInv(x, y);
  }

  lemma CancelAllPolicy(b: Batch, c: Batch)
    requires Policy(b) && CancelAll(b, c)
    requires forall i | 0 <= i < |b.members| :: MemberCancelled(b.members[i], c.members[i])
    ensures Policy(c)
  {
    assert Keeps(b, c);
    PcKept(b, c);
    forall i | 0 <= i < |c.members|
      ensures ActiveOk(c, i)
      ensures Executes(c.members[i].world.wire) > 0 ==> PassedBefore(c, i)
    {
      assert ActiveOk(b, i) && MemberCancelled(b.members[i], c.members[i]);
      KeepsBefore(b, c, i);
    }
  }

  /** A step of the batch as it is, or a cancel in one step. */
  ghost predicate AnyStep(b: Batch, c: Batch) {
    BatchStep(b, c) || CancelAll(b, c)
  }

  ghost predicate AnyStepAt(run: seq<Batch>, i: nat)
    requires 0 < i < |run|
  {
    AnyStep(run[i - 1], run[i])
  }

  ghost predicate IsAnyRun(run: seq<Batch>) {
    && run != [] && BatchInit(run[0])
    && forall i :: 0 < i < |run| ==> AnyStepAt(run, i)
  }

  lemma AnyStepInv(b: Batch, c: Batch)
    requires BatchInv(b) && AnyStep(b, c)
    ensures BatchInv(c)
  {
    if BatchStep(b, c) {
      BatchStepInv(b, c);
    } else {
      CancelAllKeeps(b, c);
    }
  }

  lemma BatchStartInv(b: Batch)
    requires BatchInit(b)
    ensures BatchInv(b)
  {
    forall x <- b.members ensures Inv(x) {
      InitInv(x);
    }
    forall k | 0 <= k < |b.members| ensures ActiveOk(b, k) && Executes(b.members[k].world.wire) == 0 {
      assert b.members[k] in b.members;
    }
  }

  lemma AnyRunStep(run: seq<Batch>, i: nat)
    requires IsAnyRun(run) && 0 < i < |run|
    ensures AnyStep(run[i - 1], run[i])
  {
    assert AnyStepAt(run, i);
  }

  lemma {:induction false} BatchRunInv(run: seq<Batch>, i: nat)
    requires IsAnyRun(run) && i < |run|
    ensures BatchInv(run[i])
  {
    if i == 0 {
      BatchStartInv(run[0]);
    } else {
      BatchRunInv(run, i - 1);
      AnyRunStep(run, i);
      AnyStepInv(run[i - 1], run[i]);
    }
  }

  /** Runs of the batch with separate transactions for a cancel, as they are. */
  ghost predicate IsBatchRun(run: seq<Batch>) {
    && run != [] && BatchInit(run[0])
    && forall i :: 0 < i < |run| ==> BatchStepAt(run, i)
  }

  ghost predicate BatchStepAt(run: seq<Batch>, i: nat)
    requires 0 < i < |run|
  {
    BatchStep(run[i - 1], run[i])
  }

  /** Runs in which every cancel is one step. */
  ghost predicate IsAtomicRun(run: seq<Batch>) {
    && run != [] && BatchInit(run[0])
    && forall i :: 0 < i < |run| ==> AtomicStepAt(run, i)
  }

  ghost predicate AtomicStepAt(run: seq<Batch>, i: nat)
    requires 0 < i < |run|
  {
    AtomicStep(run[i - 1], run[i])
  }

  ghost predicate AtomicStep(b: Batch, c: Batch) {
    (BatchStep(b, c) && c.cancelSeen == b.cancelSeen) || CancelAll(b, c)
  }

  lemma BatchRunIsAny(run: seq<Batch>)
    requires IsBatchRun(run)
    ensures IsAnyRun(run)
  {
    forall i | 0 < i < |run| ensures AnyStepAt(run, i) {
      assert BatchStepAt(run, i);
    }
  }

  lemma AtomicRunIsAny(run: seq<Batch>)
    requires IsAtomicRun(run)
    ensures IsAnyRun(run)
  {
    forall i | 0 < i < |run| ensures AnyStepAt(run, i) {
      assert AtomicStepAt(run, i);
    }
  }
}
