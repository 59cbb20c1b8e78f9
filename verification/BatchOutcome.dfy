/**
 How a batch goes on and how it ends, for every run: with continue-on-error the loop gets to the end,
 every member is taken up, the outcome says what became of the members, and none is left in the queue.
 */
module BatchOutcome {
  import opened Wrappers
  import opened Lifecycle
  import opened KernelProof
  import opened Storage
  import opened KernelWorker
  import opened WorkerSafety
  import opened WorkerRuns
  import opened Batch
  import opened Endings
  import opened BatchRuns

  // ---------------------------------------------------------------- which steps move the loop

  /** The loop's own step, or one after which it is where it was, or has to start again. */
  lemma LoopMoves(b: Batch, c: Batch)
    requires AnyStep(b, c) && !EscalateStep(b, c)
    ensures RunStep(b, c) || c.pc == b.pc || c.pc == Resting
    ensures c.continueOnError == b.continueOnError && |c.members| == |b.members|
  {
  }

  ghost predicate EscalatedAt(run: seq<Batch>, k: nat)
    requires 0 < k < |run|
  {
    EscalateStep(run[k - 1], run[k])
  }

  /** No exception inside a member's activity reached the batch's handler. */
  ghost predicate NoException(run: seq<Batch>, n: nat) {
    forall k :: 0 < k <= n && k < |run| ==> !EscalatedAt(run, k)
  }

  /** With continue-on-error no failure makes the loop stop. */
  lemma {:induction false} NeverStops(run: seq<Batch>, n: nat)
    requires IsAnyRun(run) && n < |run| && run[n].continueOnError && NoException(run, n)
    ensures !run[n].pc.Stopping? && !run[n].pc.StoppingOne?
  {
    if n > 0 {
      AnyRunStep(run, n);
      assert !EscalatedAt(run, n);
      LoopMoves(run[n - 1], run[n]);
      NeverStops(run, n - 1);
    }
  }

  // ---------------------------------------------------------------- every member is taken up

  /** At step k the loop takes member i up: a queued one is loaded, a disconnected one recovered, any other passed by. */
  ghost predicate TakenUpAt(run: seq<Batch>, i: nat, k: nat)
    requires 0 < k < |run|
  {
    && i < |run[k - 1].members| && i < |run[k].members|
    && run[k - 1].pc.At? && run[k - 1].pc.position == i && run[k].pc.Inside? && run[k].pc.position == i
    && var x, y := run[k - 1].members[i], run[k].members[i];
       && y.world == x.world
       && match x.world.rec.state
          case Queued => y.worker == Loaded
          case Disconnected => y.worker == Recovering
          case _ => y.worker == Idle
  }

  ghost predicate TakenUp(run: seq<Batch>, n: nat, i: nat) {
    exists k :: 0 < k <= n && k < |run| && TakenUpAt(run, i, k)
  }

  /** How many members the loop has judged since it last started. */
  function Judgements(b: Batch): nat {
    match b.pc
    case At(p, _) => p
    case Inside(p, _) => p
    case Judged(p, _, _) => p + 1
    case Tail(_) => |b.members|
    case Conclude(_) => |b.members|
    case _ => 0
  }

  /** How many it has taken up. */
  function Reach(b: Batch): nat {
    Judgements(b) + if b.pc.Inside? then 1 else 0
  }

  lemma TakenUpStays(run: seq<Batch>, n: nat, i: nat)
    requires 0 < n < |run| && TakenUp(run, n - 1, i)
    ensures TakenUp(run, n, i)
  {
    var k :| 0 < k <= n - 1 && k < |run| && TakenUpAt(run, i, k);
    assert TakenUpAt(run, i, k);
  }

  lemma ReachMoves(b: Batch, c: Batch, i: nat)
    requires AnyStep(b, c) && i < |b.members| && i < Reach(c)
    ensures i < Reach(b) || (b.pc.At? && b.pc.position == i && RunStep(b, c))
  {
    if !EscalateStep(b, c) {
      LoopMoves(b, c);
    }
  }

  /** Whatever the loop has gone through since its last start it took up. */
  lemma {:induction false} ReachedIsTakenUp(run: seq<Batch>, n: nat, i: nat)
    requires IsAnyRun(run) && n < |run| && i < |run[n].members| && i < Reach(run[n])
    ensures TakenUp(run, n, i)
  {
    if n > 0 {
      AnyRunStep(run, n);
      SameCount(run[n - 1], run[n]);
      ReachMoves(run[n - 1], run[n], i);
      if i < Reach(run[n - 1]) {
        ReachedIsTakenUp(run, n - 1, i);
        TakenUpStays(run, n, i);
      } else {
        assert TakenUpAt(run, i, n);
      }
    }
  }

  // ---------------------------------------------------------------- the outcome

  predicate IsFailure(s: State) {
    s == Error || s == Interrupted || s == TimedOut || s == Unknown
  }

  /** At step k the loop finds member i failed. */
  ghost predicate FoundFailedAt(run: seq<Batch>, i: nat, k: nat)
    requires 0 < k < |run|
  {
    && run[k - 1].pc.Inside? && run[k - 1].pc.position == i && run[k].pc.Judged?
    && i < |run[k].members| && IsFailure(run[k].members[i].world.rec.state)
  }

  ghost predicate FoundFailed(run: seq<Batch>, n: nat, i: nat) {
    exists k :: 0 < k <= n && k < |run| && FoundFailedAt(run, i, k)
  }

  lemma FoundMore(run: seq<Batch>, n: nat, i: nat)
    requires 0 < n < |run|
    ensures FoundFailed(run, n, i) <==> FoundFailed(run, n - 1, i) || FoundFailedAt(run, i, n)
  {
    if FoundFailed(run, n, i) {
      var k :| 0 < k <= n && k < |run| && FoundFailedAt(run, i, k);
      assert k < n ==> FoundFailed(run, n - 1, i);
    }
    if FoundFailed(run, n - 1, i) {
      var k :| 0 < k <= n - 1 && k < |run| && FoundFailedAt(run, i, k);
      assert FoundFailedAt(run, i, k);
    }
  }

  lemma OverStays(b: Batch, c: Batch, j: nat)
    requires BatchInv(b) && AnyStep(b, c) && j < |b.members| && |c.members| == |b.members|
    requires IsTerminal(b.members[j].world.rec.state)
    ensures c.members[j].world.rec.state == b.members[j].world.rec.state
  {
    assert b.members[j] in b.members;
    if CancelAll(b, c) {
      assert CancelsMember(b.members[j], c.members[j]);
    } else if c.members[j].world != b.members[j].world {
      MemberMoved(b, c, j);
      StepGrows(b.members[j], c.members[j]);
    }
  }

  /** What was found failed stays failed. */
  lemma {:induction false} FoundStays(run: seq<Batch>, n: nat, i: nat)
    requires IsAnyRun(run) && n < |run| && FoundFailed(run, n, i)
    ensures i < |run[n].members| && IsFailure(run[n].members[i].world.rec.state)
  {
    if n > 0 {
      FoundMore(run, n, i);
      if FoundFailed(run, n - 1, i) {
        AnyRunStep(run, n);
        FoundStays(run, n - 1, i);
        SameCount(run[n - 1], run[n]);
        BatchRunInv(run, n - 1);
        OverStays(run[n - 1], run[n], i);
      }
    }
  }

  /** What the loop remembers of failures. */
  function Saw(pc: BatchPc): bool {
    match pc
    case At(_, saw) => saw
    case Inside(_, saw) => saw
    case Judged(_, _, saw) => saw
    case Tail(saw) => saw
    case _ => false
  }

  ghost predicate SomeFound(run: seq<Batch>, n: nat, before: nat) {
    exists i: nat :: i < before && FoundFailed(run, n, i)
  }

  predicate Judging(pc: BatchPc) {
    pc.At? || pc.Inside? || pc.Judged? || pc.Tail?
  }

  /** The loop starts, goes on without judging anybody, or judges the next member. */
  predicate Remembers(b: Batch, c: Batch) {
    || (!Saw(c.pc) && Judgements(c) == 0)
    || (Judging(b.pc) && Saw(c.pc) == Saw(b.pc) && !(b.pc.Inside? && c.pc.Judged?)
        && (Judgements(c) == Judgements(b) || (c.pc.Tail? && Judgements(c) == |c.members| <= Judgements(b))))
    || (b.pc.Inside? && c.pc.Judged? && JudgesNext(b, c, b.pc.position))
  }

  predicate JudgesNext(b: Batch, c: Batch, p: nat) {
    && p < |c.members| && Judgements(b) == p && Judgements(c) == p + 1
    && (Saw(c.pc) <==> Saw(b.pc) || IsFailure(c.members[p].world.rec.state))
  }

  /** What the steps of the loop do to what it remembers. */
  lemma SawMoves(b: Batch, c: Batch)
    requires AnyStep(b, c) && Judging(c.pc)
    ensures Remembers(b, c)
  {
    if !EscalateStep(b, c) {
      LoopMoves(b, c);
      if RunStep(b, c) {
        SawRuns(b, c);
      }
    }
  }

  lemma SawRuns(b: Batch, c: Batch)
    requires RunStep(b, c) && Judging(c.pc)
    ensures Remembers(b, c)
  {
    match b.pc
    case At(_, _) =>
    case Inside(_, _) =>
    case _ =>
  }

  lemma NoneFoundNow(run: seq<Batch>, n: nat, before: nat)
    requires 0 < n < |run| && !(run[n - 1].pc.Inside? && run[n].pc.Judged?)
    ensures SomeFound(run, n, before) <==> SomeFound(run, n - 1, before)
  {
    if SomeFound(run, n, before) {
      var i: nat :| i < before && FoundFailed(run, n, i);
      FoundMore(run, n, i);
    }
    if SomeFound(run, n - 1, before) {
      var i: nat :| i < before && FoundFailed(run, n - 1, i);
      FoundMore(run, n, i);
    }
  }

  lemma OneFoundNow(run: seq<Batch>, n: nat, p: nat)
    requires IsAnyRun(run) && 0 < n < |run| && run[n - 1].pc.Inside? && run[n - 1].pc.position == p && run[n].pc.Judged?
    requires p < |run[n].members|
    ensures SomeFound(run, n, p + 1) <==> SomeFound(run, n - 1, p) || IsFailure(run[n].members[p].world.rec.state)
  {
    forall i: nat | i < p ensures FoundFailed(run, n, i) <==> FoundFailed(run, n - 1, i) {
      FoundMore(run, n, i);
    }
    FoundMore(run, n, p);
    if FoundFailed(run, n, p) {
      FoundStays(run, n, p);
    }
    if SomeFound(run, n - 1, p) {
      var i: nat :| i < p && FoundFailed(run, n - 1, i);
      assert FoundFailed(run, n, i);
    }
    if IsFailure(run[n].members[p].world.rec.state) {
      assert FoundFailedAt(run, p, n);
      assert FoundFailed(run, n, p);
    }
  }

  lemma FoundWithin(run: seq<Batch>, n: nat, before: nat)
    requires IsAnyRun(run) && n < |run| && before >= |run[n].members|
    ensures SomeFound(run, n, before) <==> SomeFound(run, n, |run[n].members|)
  {
    if SomeFound(run, n, before) {
      var i: nat :| i < before && FoundFailed(run, n, i);
      FoundStays(run, n, i);
    }
    if SomeFound(run, n, |run[n].members|) {
      var i: nat :| i < |run[n].members| && FoundFailed(run, n, i);
    }
  }

  /** The loop remembers a failure exactly if it found one of the members judged so far failed. */
  lemma {:induction false} SawFailures(run: seq<Batch>, n: nat)
    requires IsAnyRun(run) && n < |run| && Judging(run[n].pc)
    ensures Saw(run[n].pc) <==> SomeFound(run, n, Judgements(run[n]))
  {
    if n > 0 {
      AnyRunStep(run, n);
      SameCount(run[n - 1], run[n]);
      SawMoves(run[n - 1], run[n]);
      if Saw(run[n].pc) || Judgements(run[n]) > 0 {
        SawFailures(run, n - 1);
        if run[n - 1].pc.Inside? && run[n].pc.Judged? {
          OneFoundNow(run, n, run[n - 1].pc.position);
        } else {
          NoneFoundNow(run, n, Judgements(run[n - 1]));
          if run[n].pc.Tail? && Judgements(run[n - 1]) > |run[n].members| {
            FoundWithin(run, n, Judgements(run[n - 1]));
          }
        }
      }
    }
  }

  /** The step with which the loop settles the outcome. */
  ghost predicate SettlesAt(run: seq<Batch>, n: nat) {
    0 < n < |run| && run[n - 1].pc.Tail? && run[n].pc.Conclude?
  }

  /**
   The outcome at the end of the loop: interrupted if and only if a cancel is pending then, otherwise
   an error if and only if the loop found some member failed, otherwise finished. Every member was
   taken up by then.
   */
  lemma OutcomeMeans(run: seq<Batch>, n: nat)
    requires IsAnyRun(run) && SettlesAt(run, n)
    ensures var cancelled := run[n - 1].state == BatchCancelling;
            var failed := exists i: nat :: i < |run[n].members| && FoundFailed(run, n, i);
            && (run[n].pc.final == BatchInterrupted <==> cancelled)
            && (run[n].pc.final == BatchError <==> !cancelled && failed)
            && (run[n].pc.final == BatchFinished <==> !cancelled && !failed)
    ensures forall i: nat | i < |run[n].members| :: TakenUp(run, n, i)
  {
    AnyRunStep(run, n);
    SameCount(run[n - 1], run[n]);
    SawFailures(run, n - 1);
    NoneFoundNow(run, n, |run[n].members|);
    assert SomeFound(run, n, |run[n].members|) <==> exists i: nat :: i < |run[n].members| && FoundFailed(run, n, i);
    forall i: nat | i < |run[n].members| ensures TakenUp(run, n, i) {
      ReachedIsTakenUp(run, n, i);
    }
  }

  lemma JudgementsMove(b: Batch, c: Batch, i: nat)
    requires AnyStep(b, c) && i < |b.members| && i < Judgements(c)
    ensures i < Judgements(b) || (b.pc.Inside? && b.pc.position == i && RunStep(b, c))
  {
    if !EscalateStep(b, c) {
      LoopMoves(b, c);
    }
  }

  /** What becomes of the members the loop is done with. */
  lemma {:induction false} JudgedMembers(run: seq<Batch>, n: nat, i: nat)
    requires IsAnyRun(run) && n < |run| && i < |run[n].members| && i < Judgements(run[n])
    ensures run[n].members[i].world.rec.state == Finished || FoundFailed(run, n, i) || i in run[n].left
  {
    if n > 0 {
      AnyRunStep(run, n);
      SameCount(run[n - 1], run[n]);
      JudgementsMove(run[n - 1], run[n], i);
      FoundMore(run, n, i);
      BatchRunInv(run, n - 1);
      if i < Judgements(run[n - 1]) {
        JudgedMembers(run, n - 1, i);
        RowStays(run[n - 1], run[n], i);
      } else {
        JudgedNow(run[n - 1], run[n], i);
      }
    }
  }

  lemma JudgedNow(b: Batch, c: Batch, i: nat)
    requires RunStep(b, c) && b.pc.Inside? && b.pc.position == i && i < |c.members|
    ensures c.pc.Judged?
    ensures c.members[i].world.rec.state == Finished || IsFailure(c.members[i].world.rec.state) || i in c.left
  {
  }

  /**
   If no member was abandoned, the outcome can be read off the members: interrupted if and only if a
   cancel is pending, otherwise an error if and only if some member failed, and finished if and only if
   all finished.
   */
  lemma OutcomeByMembers(run: seq<Batch>, n: nat)
    requires IsAnyRun(run) && SettlesAt(run, n)
    requires forall i: nat | i < |run[n].members| :: !WasAbandoned(run, n, i)
    ensures var cancelled := run[n - 1].state == BatchCancelling;
            var failed := exists x <- run[n].members :: IsFailure(x.world.rec.state);
            var finished := forall x <- run[n].members :: x.world.rec.state == Finished;
            && (run[n].pc.final == BatchInterrupted <==> cancelled)
            && (run[n].pc.final == BatchError <==> !cancelled && failed)
            && (run[n].pc.final == BatchFinished <==> !cancelled && finished)
  {
    OutcomeMeans(run, n);
    forall i: nat | i < |run[n].members|
      ensures FoundFailed(run, n, i) <==> IsFailure(run[n].members[i].world.rec.state)
      ensures FoundFailed(run, n, i) <==> run[n].members[i].world.rec.state != Finished
    {
      JudgedMembers(run, n, i);
      if i in run[n].left {
        LeftWasAbandoned(run, n, i);
      }
      if FoundFailed(run, n, i) {
        FoundStays(run, n, i);
      }
    }
    forall x <- run[n].members ensures exists i: nat :: i < |run[n].members| && run[n].members[i] == x {
    }
    if exists i: nat :: i < |run[n].members| && FoundFailed(run, n, i) {
      var i: nat :| i < |run[n].members| && FoundFailed(run, n, i);
      assert run[n].members[i] in run[n].members;
    }
  }

  /** The batch is over with the outcome settled, unless it was over already. */
  lemma OutcomeIsKept(run: seq<Batch>, n: nat)
    requires IsAnyRun(run) && 0 < n < |run| && run[n - 1].pc.Conclude? && IsOver(run[n].state)
    ensures run[n].state == if IsOver(run[n - 1].state) then run[n - 1].state else run[n - 1].pc.final
  {
    AnyRunStep(run, n);
  }

  /** What the loop holds against the member it judges is that it found it failed. */
  lemma {:induction false} JudgedFailed(run: seq<Batch>, n: nat)
    requires IsAnyRun(run) && n < |run| && run[n].pc.Judged?
    ensures run[n].pc.failed <==> FoundFailed(run, n, run[n].pc.position)
  {
    if n > 0 {
      AnyRunStep(run, n);
      SameCount(run[n - 1], run[n]);
      FoundMore(run, n, run[n].pc.position);
      if run[n - 1].pc == run[n].pc {
        JudgedFailed(run, n - 1);
      } else {
        JudgedAfterInside(run[n - 1], run[n]);
        if FoundFailed(run, n, run[n].pc.position) {
          FoundStays(run, n, run[n].pc.position);
        }
      }
    }
  }

  lemma JudgedAfterInside(b: Batch, c: Batch)
    requires AnyStep(b, c) && c.pc.Judged? && b.pc != c.pc
    ensures b.pc.Inside? && b.pc.position == c.pc.position && c.pc.position < |c.members|
    ensures c.pc.failed <==> IsFailure(c.members[c.pc.position].world.rec.state)
  {
    if !EscalateStep(b, c) {
      LoopMoves(b, c);
    }
  }

  /**
   The loop stops the members that are left if and only if it found the one it judges failed, was not
   told to continue on errors and sees no cancel; otherwise it goes on with the next.
   */
  lemma StopsIff(run: seq<Batch>, n: nat)
    requires IsAnyRun(run) && 0 < n < |run| && run[n - 1].pc.Judged? && run[n].pc != run[n - 1].pc && run[n].pc != Resting
    ensures var p := run[n - 1].pc.position;
            var stops := !run[n].continueOnError && run[n - 1].state != BatchCancelling && FoundFailed(run, n - 1, p);
            run[n].pc == if stops then Stopping(p + 1) else At(p + 1, run[n - 1].pc.sawFailure)
  {
    AnyRunStep(run, n);
    LoopMoves(run[n - 1], run[n]);
    JudgedFailed(run, n - 1);
  }

  // ---------------------------------------------------------------- nothing is left in the queue

  /** Members before this one have left the queue. */
  function Emptied(b: Batch): nat {
    match b.pc
    case At(p, _) => p
    case Inside(p, _) => p
    case Judged(p, _, _) => p + 1
    case Stopping(p) => p
    case StoppingOne(p) => p
    case Tail(_) => |b.members|
    case Conclude(_) => |b.members|
    case _ => 0
  }

  predicate IsActive(b: Batch, i: nat) {
    (b.pc.Inside? || b.pc.StoppingOne?) && b.pc.position == i
  }

  /** A member still in the queue is ahead of the loop, or on its way out of the queue. */
  predicate QueuedOk(b: Batch, i: nat)
    requires i < |b.members|
  {
    b.members[i].world.rec.state == Queued ==>
      && !IsOver(b.state) && Emptied(b) <= i
      && (IsActive(b, i) ==> Bound(Queued, b.members[i].worker))
  }

  lemma QueuedIsNotAbandoned(b: Batch, c: Batch, i: nat)
    requires BatchInv(b) && i < |b.members| && |c.members| == |b.members|
    requires QueuedOk(b, i) && b.members[i].world.rec.state == Queued
    ensures !Abandons(b.members[i], c.members[i])
  {
    assert ActiveOk(b, i);
  }

  lemma EntersQueued(b: Batch, c: Batch, i: nat)
    requires RunStep(b, c) && (b.pc.At? || b.pc.Stopping?)
    requires i < |b.members| && QueuedOk(b, i) && b.members[i].world.rec.state == Queued
    ensures |c.members| == |b.members| && QueuedOk(c, i)
  {
    EntryBound(Queued);
    StopBound();
  }

  /** A member still in the queue keeps the loop from going on. */
  lemma LeavesQueued(b: Batch, c: Batch, i: nat)
    requires RunStep(b, c) && (b.pc.Inside? || b.pc.StoppingOne?)
    requires i < |b.members| && QueuedOk(b, i) && b.members[i].world.rec.state == Queued
    ensures |c.members| == |b.members| && QueuedOk(c, i)
  {
    assert !Bound(Queued, Idle);
    assert b.pc.position != i;
  }

  lemma RestsQueued(b: Batch, c: Batch, i: nat)
    requires RunStep(b, c) && !b.pc.At? && !b.pc.Stopping? && !b.pc.Inside? && !b.pc.StoppingOne?
    requires i < |b.members| && QueuedOk(b, i) && b.members[i].world.rec.state == Queued
    ensures |c.members| == |b.members| && QueuedOk(c, i)
  {
    assert c.members == b.members && !IsActive(c, i);
  }

  lemma RunStepQueued(b: Batch, c: Batch, i: nat)
    requires RunStep(b, c) && i < |b.members| && QueuedOk(b, i) && b.members[i].world.rec.state == Queued
    ensures |c.members| == |b.members| && QueuedOk(c, i)
  {
    if b.pc.At? || b.pc.Stopping? {
      EntersQueued(b, c, i);
    } else if b.pc.Inside? || b.pc.StoppingOne? {
      LeavesQueued(b, c, i);
    } else {
      RestsQueued(b, c, i);
    }
  }

  lemma StopBound()
    ensures Bound(Queued, StopPoint(Queued))
  {
    assert Closing(Interrupted, Some(Live))[1..] == [Move(Interrupted, Some(Live))];
    assert [Move(Interrupted, Some(Live))][1..] == [];
  }

  lemma MemberStepQueued(b: Batch, c: Batch, i: nat)
    requires BatchInv(b) && i < |b.members| && |c.members| == |b.members|
    requires MemberStep(b.members[i], c.members[i]) && c == b.(members := b.members[i := c.members[i]])
    requires QueuedOk(b, i) && MemberPlace(b, i) && b.members[i].world.rec.state == Queued && c.members[i].world.rec.state == Queued
    ensures QueuedOk(c, i)
  {
    if IsActive(b, i) {
      assert b.members[i] in b.members;
      QueuedIsNotAbandoned(b, c, i);
      MemberStaysBound(b.members[i], c.members[i]);
    }
  }

  /** What happens beside the loop and the members. */
  lemma BesideQueued(b: Batch, c: Batch, i: nat)
    requires i < |b.members| && QueuedOk(b, i) && b.members[i].world.rec.state == Queued
    requires CancelAll(b, c) || EscalateStep(b, c)
             || (!IsOver(b.state) && c == b.(state := BatchCancelling, cancelSeen := true))
             || (|c.members| == |b.members| && c.state == b.state && c.pc == Resting)
    ensures |c.members| == |b.members| && (c.members[i].world.rec.state == Queued ==> QueuedOk(c, i))
  {
    if CancelAll(b, c) {
      assert CancelsMember(b.members[i], c.members[i]);
    }
  }

  lemma OtherMemberQueued(b: Batch, c: Batch, k: nat, i: nat)
    requires i < |b.members| && QueuedOk(b, i) && k < |b.members| && k != i && |c.members| == |b.members|
    requires c == b.(members := b.members[k := c.members[k]])
    ensures QueuedOk(c, i)
  {
  }

  lemma StepQueued(b: Batch, c: Batch, i: nat)
    requires BatchInv(b) && AnyStep(b, c) && i < |b.members| && |c.members| == |b.members|
    requires QueuedOk(b, i) && MemberPlace(b, i) && b.members[i].world.rec.state == Queued && c.members[i].world.rec.state == Queued
    ensures QueuedOk(c, i)
  {
    if RunStep(b, c) {
      RunStepQueued(b, c, i);
    } else if exists k :: 0 <= k < |b.members| && MemberStep(b.members[k], c.members[k]) && c == b.(members := b.members[k := c.members[k]]) {
      var k :| 0 <= k < |b.members| && MemberStep(b.members[k], c.members[k]) && c == b.(members := b.members[k := c.members[k]]);
      if k == i {
        MemberStepQueued(b, c, i);
      } else {
        OtherMemberQueued(b, c, k, i);
      }
    } else {
      BesideQueued(b, c, i);
    }
  }

  lemma {:induction false} QueuedRun(run: seq<Batch>, n: nat, i: nat)
    requires IsAnyRun(run) && n < |run| && i < |run[n].members| && run[n].members[i].world.rec.state == Queued
    ensures QueuedOk(run[n], i) && !WasAbandoned(run, n, i)
  {
    if n > 0 {
      AnyRunStep(run, n);
      SameCount(run[n - 1], run[n]);
      BatchRunInv(run, n - 1);
      RowStays(run[n - 1], run[n], i);
      QueuedRun(run, n - 1, i);
      RunPlaces(run, n - 1, i);
      QueuedIsNotAbandoned(run[n - 1], run[n], i);
      forall k | 0 < k <= n && k < |run| ensures !AbandonedAt(run, i, k) {
        assert k < n && AbandonedAt(run, i, k) ==> WasAbandoned(run, n - 1, i);
      }
      StepQueued(run[n - 1], run[n], i);
    }
  }

  /** When a batch is over, however it ended and whatever happened on the way, no member waits in the queue. */
  lemma NothingLeftQueued(run: seq<Batch>, n: nat, i: nat)
    requires IsAnyRun(run) && n < |run| && i < |run[n].members| && IsOver(run[n].state)
    ensures run[n].members[i].world.rec.state != Queued
  {
    if run[n].members[i].world.rec.state == Queued {
      QueuedRun(run, n, i);
    }
  }
}
