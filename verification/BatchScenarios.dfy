/** Runs of a batch of two empty cells in which the order is broken, or the result is not what it says. */
module BatchScenarios {
  import opened Wrappers
  import opened Lifecycle
  import opened KernelProof
  import opened Storage
  import opened KernelWorker
  import opened WorkerSafety
  import opened Batch
  import opened Endings
  import S = Scenarios

  ghost predicate Reachable(b: Batch) {
    exists run :: IsBatchRun(run) && run[|run| - 1] == b
  }

  lemma Reach(b: Batch, c: Batch)
    requires Reachable(b) && BatchStep(b, c)
    ensures Reachable(c)
  {
    var run :| IsBatchRun(run) && run[|run| - 1] == b;
    var longer := run + [c];
    forall i | 0 < i < |longer| ensures BatchStepAt(longer, i) {
      if i < |run| {
        assert BatchStepAt(run, i);
      }
    }
    assert IsBatchRun(longer) && longer[|longer| - 1] == c;
  }

  function With(b: Batch, i: nat, y: Exec): Batch
    requires i < |b.members|
  {
    b.(members := b.members[i := y])
  }

  lemma MemberReach(b: Batch, i: nat, y: Exec)
    requires Reachable(b) && i < |b.members| && MemberStep(b.members[i], y)
    ensures Reachable(With(b, i, y))
  {
    assert With(b, i, y).members[i] == y;
    Reach(b, With(b, i, y));
  }

  lemma GoesIsMemberStep(x: Exec, y: Exec)
    requires S.Goes(x, y)
    ensures MemberStep(x, y)
  {
    S.GoesIsStep(x, y);
  }

  /** What a member can do on its own it can do in the batch. */
  lemma {:induction false} StretchInBatch(b: Batch, i: nat, xs: seq<Exec>, x: Exec, y: Exec)
    requires Reachable(b) && i < |b.members| && b.members[i] == x && S.IsStretch(xs, x, y)
    ensures Reachable(With(b, i, y))
    decreases |xs|
  {
    if |xs| == 1 {
      assert With(b, i, y) == b;
    } else {
      var n := |xs| - 1;
      forall k | 0 < k < n ensures S.GoesAt(xs[..n], k) {
        assert S.GoesAt(xs, k);
      }
      StretchInBatch(b, i, xs[..n], x, xs[n - 1]);
      assert S.GoesAt(xs, n);
      GoesIsMemberStep(xs[n - 1], y);
      MemberReach(With(b, i, xs[n - 1]), i, y);
      assert With(With(b, i, xs[n - 1]), i, y) == With(b, i, y);
    }
  }

  // ---------------------------------------------------------------- the loop

  /** Two empty cells, and the loop at the first. */
  function Start(): Batch {
    Batch(BatchRunning, false, [S.Cell(None), S.Cell(None)], At(0, false), {}, false)
  }

  lemma Starts()
    ensures Reachable(Start())
  {
    var b := Start().(state := BatchQueued, pc := Resting);
    S.CellIsReachable(None);
    assert Init(S.Cell(None));
    assert IsBatchRun([b]) && [b][|[b]| - 1] == b;
    Reach(b, b.(pc := Opened));
    Reach(b.(pc := Opened), b.(pc := MarkRunning));
    Reach(b.(pc := MarkRunning), Start());
  }

  /** The loop takes up a queued cell. */
  lemma Enters(b: Batch, p: nat, saw: bool) returns (c: Batch)
    requires Reachable(b) && b.pc == At(p, saw) && p < |b.members| && b.members[p] == S.Cell(None)
    ensures c == With(b, p, S.LoadedCell(None)).(pc := Inside(p, saw)) && Reachable(c)
  {
    c := With(b, p, S.LoadedCell(None)).(pc := Inside(p, saw));
    assert RunStep(b, c);
    Reach(b, c);
  }

  lemma Sends(b: Batch, p: nat, saw: bool) returns (c: Batch)
    requires Reachable(b) && b.pc == At(p, saw) && p < |b.members| && b.members[p] == S.Cell(None)
    ensures c == With(b, p, S.SentCell(None)).(pc := Inside(p, saw)) && Reachable(c)
  {
    var d := Enters(b, p, saw);
    var xs := S.SendCell(None);
    StretchInBatch(d, p, xs, S.LoadedCell(None), S.SentCell(None));
    c := With(d, p, S.SentCell(None));
    assert c == With(b, p, S.SentCell(None)).(pc := Inside(p, saw));
  }

  /** A member nobody works on, and that is not over, does not stop the loop. */
  lemma GoesPast(b: Batch, p: nat) returns (c: Batch)
    requires Reachable(b) && b.pc == Inside(p, false) && p < |b.members| && b.members[p].worker == Idle
    requires !IsTerminal(b.members[p].world.rec.state)
    ensures c == b.(pc := At(p + 1, false), left := b.left + {p}) && Reachable(c)
  {
    var d := b.(pc := Judged(p, false, false), left := b.left + {p});
    assert RunStep(b, d);
    Reach(b, d);
    c := d.(pc := At(p + 1, false));
    assert RunStep(d, c);
    Reach(d, c);
  }

  /** The worker is closed while it watches the cell at position p. */
  lemma ClosesAt(b: Batch, p: nat) returns (c: Batch)
    requires Reachable(b) && b.pc == Inside(p, false) && p < |b.members| && b.members[p] == S.SentCell(None)
    ensures c == With(b, p, S.SentCell(None).(worker := Idle)).(pc := At(p + 1, false), left := b.left + {p}) && Reachable(c)
  {
    var y := S.SentCell(None).(worker := Idle);
    assert OutsideStep(S.SentCell(None), y);
    MemberReach(b, p, y);
    c := GoesPast(With(b, p, y), p);
  }

  /** Both cells are sent, the worker is closed at each, and the loop is at the end. */
  lemma BothClosed() returns (b: Batch, c: Batch)
    ensures Reachable(b) && b.state == BatchRunning && |b.members| == 2 && !b.continueOnError && !b.cancelSeen
    ensures b.members[0] == S.SentCell(None).(worker := Idle) && b.members[1] == S.SentCell(None)
    ensures Reachable(c) && c.state == BatchRunning && c.pc == At(2, false) && |c.members| == 2
    ensures c.members[0].world.rec.state == Dispatching && c.members[1].world.rec.state == Dispatching
  {
    Starts();
    b := Sends(Start(), 0, false);
    b := ClosesAt(b, 0);
    b := Sends(b, 1, false);
    c := ClosesAt(b, 1);
  }

  lemma OneExecute()
    ensures Executes([ExecuteRequest(1, [])]) == 1
  {
    assert [ExecuteRequest(1, [])][..0] == [];
  }

  /** Closing the worker while member 0 is unfinished lets the loop go on: member 1 is sent although 0 is not FINISHED. */
  lemma ClosedWorkerBreaksOrder()
    ensures exists b :: && Reachable(b) && !b.continueOnError && !b.cancelSeen && |b.members| == 2
                        && b.members[0].world.rec.state == Dispatching && Executes(b.members[1].world.wire) == 1
  {
    var b, c := BothClosed();
    OneExecute();
    assert Executes(b.members[1].world.wire) == 1;
  }

  /** The loop then reports the batch as finished, with every member DISPATCHING. */
  lemma FinishedWithoutFinishing()
    ensures exists b :: && Reachable(b) && b.state == BatchFinished && |b.members| == 2
                        && b.members[0].world.rec.state == Dispatching && b.members[1].world.rec.state == Dispatching
  {
    var b, c := BothClosed();
    var d := c.(pc := Tail(false));
    assert RunStep(c, d);
    Reach(c, d);
    var e := d.(pc := Conclude(BatchFinished));
    assert RunStep(d, e);
    Reach(d, e);
    var f := e.(state := BatchFinished, pc := Resting);
    assert RunStep(e, f);
    Reach(e, f);
    assert f.state == BatchFinished;
  }

  /** Member 0 is cancelled before it is confirmed and the interrupt is not delivered: member 1 is sent, though nothing was closed. */
  lemma UndeliveredBreaksOrder()
    ensures exists b :: && Reachable(b) && !b.continueOnError && !b.cancelSeen && |b.members| == 2
                        && b.members[0].world.rec.state == Dispatching && Executes(b.members[1].world.wire) == 1
  {
    Starts();
    var b := Enters(Start(), 0, false);
    var xs := S.UndeliveredStretch();
    StretchInBatch(b, 0, xs, S.LoadedCell(None), S.StuckCell());
    var c := GoesPast(With(b, 0, S.StuckCell()), 0);
    c := Sends(c, 1, false);
    OneExecute();
    assert Executes(c.members[1].world.wire) == 1;
  }

  // ---------------------------------------------------------------- a cancel in separate transactions

  /** The session of member 0 is gone; it ends INTERRUPTED. */
  lemma EndsUnsent() returns (xs: seq<Exec>, x: Exec)
    ensures S.IsStretch(xs, S.LoadedCell(None), x)
    ensures x.worker == Idle && x.world.rec.state == Interrupted && x.world.wire == []
  {
    var s := S.LoadedCell(None);
    xs := S.One(s);
    xs, x := S.Acted(xs, s, s, s.world, Do(Closing(Interrupted, Some(Live)), Idle, Pc.Failed, None));
    xs, x := S.Written(xs, s, x);
    assert x.worker.ops == [Move(Interrupted, Some(Live))];
    xs, x := S.Written(xs, s, x);
    xs, x := S.Concluded(xs, s, x);
  }

  /**
   The batch is marked as cancelling while member 0 fails; the loop no longer stops, and takes up
   member 1 before its own cancel is committed. Nothing was abandoned.
   */
  lemma CancelBreaksOrder()
    ensures exists b :: && Reachable(b) && !b.continueOnError && b.left == {} && |b.members| == 2
                        && b.members[0].world.rec.state == Interrupted && Executes(b.members[1].world.wire) == 1
  {
    Starts();
    var b := Enters(Start(), 0, false);
    var xs, x := EndsUnsent();
    StretchInBatch(b, 0, xs, S.LoadedCell(None), x);
    var c := With(b, 0, x);
    var d := c.(state := BatchCancelling, cancelSeen := true);
    Reach(c, d);
    var e := d.(pc := Judged(0, true, true));
    assert RunStep(d, e);
    Reach(d, e);
    var f := e.(pc := At(1, true));
    assert RunStep(e, f);
    Reach(e, f);
    var g := Sends(f, 1, true);
    OneExecute();
    assert Executes(g.members[1].world.wire) == 1;
  }
}
