/** Runs of the machine in which something goes otherwise than one might expect. */
module Scenarios {
  import opened Wrappers
  import opened Lifecycle
  import opened KernelProof
  import opened Outputs
  import opened Storage
  import opened KernelWorker
  import opened WorkerRuns
  import opened Endings

  ghost predicate Reachable(x: Exec) {
    exists run :: IsRun(run) && run[|run| - 1] == x
  }

  lemma Reach(x: Exec, y: Exec)
    requires Reachable(x) && Step(x, y)
    ensures Reachable(y)
  {
    var run :| IsRun(run) && run[|run| - 1] == x;
    var longer := run + [y];
    forall i | 0 < i < |longer| ensures StepAt(longer, i) {
      if i < |run| {
        assert StepAt(run, i);
      }
    }
    assert IsRun(longer) && longer[|longer| - 1] == y;
  }

  // ---------------------------------------------------------------- stretches of a run

  /** The worker moves, a client cancels this execution, or time passes. */
  ghost predicate Goes(x: Exec, y: Exec) {
    && !x.worker.Idle? && !x.worker.Failed? && y.control == x.control && y.booting == x.booting
    && (|| PcStep(x.world, x.worker, y.world, y.worker)
        || (y.worker == x.worker && Apply(RequestCancel, x.world.rec, x.world.clock) == Ok(y.world.rec)
            && y.world == x.world.(rec := y.world.rec))
        || (y.worker == x.worker && y.world.clock >= x.world.clock && y.world == x.world.(clock := y.world.clock)))
  }

  ghost predicate GoesAt(xs: seq<Exec>, k: nat)
    requires 0 < k < |xs|
  {
    Goes(xs[k - 1], xs[k])
  }

  ghost predicate IsStretch(xs: seq<Exec>, x: Exec, y: Exec) {
    && xs != [] && xs[0] == x && xs[|xs| - 1] == y
    && forall k :: 0 < k < |xs| ==> GoesAt(xs, k)
  }

  lemma One(x: Exec) returns (xs: seq<Exec>)
    ensures IsStretch(xs, x, x)
  {
    xs := [x];
  }

  lemma Longer(xs: seq<Exec>, x: Exec, y: Exec, z: Exec) returns (ys: seq<Exec>)
    requires IsStretch(xs, x, y) && Goes(y, z)
    ensures IsStretch(ys, x, z)
  {
    ys := xs + [z];
    forall k | 0 < k < |ys| ensures GoesAt(ys, k) {
      if k < |xs| {
        assert GoesAt(xs, k);
      }
    }
  }

  lemma GoesIsStep(x: Exec, y: Exec)
    requires Goes(x, y)
    ensures Step(x, y)
  {
  }

  lemma {:induction false} ReachAlong(xs: seq<Exec>, x: Exec, y: Exec)
    requires Reachable(x) && IsStretch(xs, x, y)
    ensures Reachable(y)
    decreases |xs|
  {
    if |xs| > 1 {
      var n := |xs| - 1;
      forall k | 0 < k < n ensures GoesAt(xs[..n], k) {
        assert GoesAt(xs, k);
      }
      ReachAlong(xs[..n], x, xs[n - 1]);
      assert GoesAt(xs, n);
      GoesIsStep(xs[n - 1], y);
      Reach(xs[n - 1], y);
    }
  }

  /** The first of the pending writes is committed. */
  lemma Written(xs: seq<Exec>, x: Exec, y: Exec) returns (ys: seq<Exec>, z: Exec)
    requires IsStretch(xs, x, y) && y.worker.Do? && y.worker.ops != [] && y.worker.ops[0] != Confirm
    requires Apply(y.worker.ops[0], y.world.rec, y.world.clock).Ok?
    ensures z == y.(world := Committed(y.world, y.worker.ops[0], Apply(y.worker.ops[0], y.world.rec, y.world.clock).value, y.worker.seen),
                    worker := y.worker.(ops := y.worker.ops[1..]))
    ensures IsStretch(ys, x, z)
  {
    z := y.(world := Committed(y.world, y.worker.ops[0], Apply(y.worker.ops[0], y.world.rec, y.world.clock).value, y.worker.seen),
            worker := y.worker.(ops := y.worker.ops[1..]));
    assert DoStep(y.world, y.worker, z.world, z.worker);
    ys := Longer(xs, x, y, z);
  }

  /** All writes are made. */
  lemma Concluded(xs: seq<Exec>, x: Exec, y: Exec) returns (ys: seq<Exec>, z: Exec)
    requires IsStretch(xs, x, y) && y.worker.Do? && y.worker.ops == []
    ensures z == y.(worker := y.worker.next) && IsStretch(ys, x, z)
  {
    z := y.(worker := y.worker.next);
    assert DoStep(y.world, y.worker, z.world, z.worker);
    ys := Longer(xs, x, y, z);
  }

  lemma Decided(xs: seq<Exec>, x: Exec, y: Exec) returns (ys: seq<Exec>, z: Exec)
    requires IsStretch(xs, x, y) && !y.worker.Idle? && !y.worker.Failed?
    requires Decision(y.world.rec, y.world.clock, y.worker).Some?
    ensures z == y.(worker := Decision(y.world.rec, y.world.clock, y.worker).value) && IsStretch(ys, x, z)
  {
    z := y.(worker := Decision(y.world.rec, y.world.clock, y.worker).value);
    ys := Longer(xs, x, y, z);
  }

  lemma Acted(xs: seq<Exec>, x: Exec, y: Exec, w: World, q: Pc) returns (ys: seq<Exec>, z: Exec)
    requires IsStretch(xs, x, y) && !y.worker.Idle? && !y.worker.Failed? && ActionStep(y.world, y.worker, w, q)
    ensures z == y.(world := w, worker := q) && IsStretch(ys, x, z)
  {
    z := y.(world := w, worker := q);
    ys := Longer(xs, x, y, z);
  }

  lemma RaisedHere(xs: seq<Exec>, x: Exec, y: Exec) returns (ys: seq<Exec>, z: Exec)
    requires IsStretch(xs, x, y) && !y.worker.Idle? && !y.worker.Failed?
    ensures z == y.(worker := Raised(y.worker)) && IsStretch(ys, x, z)
  {
    z := y.(worker := Raised(y.worker));
    ys := Longer(xs, x, y, z);
  }

  lemma CancelledHere(xs: seq<Exec>, x: Exec, y: Exec) returns (ys: seq<Exec>, z: Exec)
    requires IsStretch(xs, x, y) && !y.worker.Idle? && !y.worker.Failed?
    ensures Apply(RequestCancel, y.world.rec, y.world.clock).Ok?
    ensures z == y.(world := y.world.(rec := Apply(RequestCancel, y.world.rec, y.world.clock).value)) && IsStretch(ys, x, z)
  {
    z := y.(world := y.world.(rec := Apply(RequestCancel, y.world.rec, y.world.clock).value));
    ys := Longer(xs, x, y, z);
  }

  // ---------------------------------------------------------------- an execution of an empty cell

  const HOME := Identity(Some("e"), Some("k"), Some("j"))

  function NewRow(timeout: Option<nat>): Record {
    NewRecord("s", HOME, [], 0, None, timeout)
  }

  function BegunRow(timeout: Option<nat>): Record {
    Entered(NewRow(timeout), Dispatching).(identity := HOME, messageId := Some(1))
  }

  function Cell(timeout: Option<nat>): Exec {
    Exec(World(NewRow(timeout), [], [], [], 0), Idle, Idle, false)
  }

  function LoadedCell(timeout: Option<nat>): Exec {
    Cell(timeout).(worker := Loaded)
  }

  /** Its dispatch is committed. */
  function BegunCell(timeout: Option<nat>): Exec {
    Exec(World(BegunRow(timeout), [], [], [], 0), ToSend(1, [], HOME), Idle, false)
  }

  const FIRST := Watch(Fresh(1), false, LiveMode(None), HOME)

  /** Its request is on the wire. */
  function SentCell(timeout: Option<nat>): Exec {
    Exec(World(BegunRow(timeout), [ExecuteRequest(1, [])], [], [], 0), Top(FIRST), Idle, false)
  }

  lemma CellIsReachable(timeout: Option<nat>)
    ensures Reachable(Cell(timeout)) && Reachable(LoadedCell(timeout))
  {
    assert Init(Cell(timeout));
    assert IsRun([Cell(timeout)]) && [Cell(timeout)][|[Cell(timeout)]| - 1] == Cell(timeout);
    Reach(Cell(timeout), LoadedCell(timeout));
  }

  lemma BeginCell(timeout: Option<nat>) returns (xs: seq<Exec>)
    ensures IsStretch(xs, LoadedCell(timeout), BegunCell(timeout))
  {
    var x := LoadedCell(timeout);
    var y: Exec, z: Exec;
    xs := One(x);
    xs, y := Acted(xs, x, x, x.world, Prepared([]));
    assert Apply(Begin(1, HOME), y.world.rec, 0) == Ok(BegunRow(timeout));
    xs, z := Acted(xs, x, y, BegunCell(timeout).world, ToSend(1, [], HOME));
  }

  lemma SendCell(timeout: Option<nat>) returns (xs: seq<Exec>)
    ensures IsStretch(xs, LoadedCell(timeout), SentCell(timeout))
  {
    xs := BeginCell(timeout);
    var z: Exec;
    assert [] + [ExecuteRequest(1, [])] == [ExecuteRequest(1, [])];
    xs, z := Acted(xs, LoadedCell(timeout), BegunCell(timeout), SentCell(timeout).world, Top(FIRST));
  }

  // ---------------------------------------------------------------- UNKNOWN and still flagged complete

  /** The send raises: the execution ends UNKNOWN, and its output still counts as complete. */
  lemma UnknownCanBeComplete()
    ensures exists x :: Reachable(x) && x.world.rec.state == Unknown && x.world.rec.complete
  {
    var s := LoadedCell(None);
    var xs := BeginCell(None);
    var x: Exec;
    xs, x := RaisedHere(xs, s, BegunCell(None));
    xs, x := Decided(xs, s, x);
    xs, x := Written(xs, s, x);
    xs, x := Written(xs, s, x);
    CellIsReachable(None);
    ReachAlong(xs, s, x);
    assert x.world.rec.state == Unknown && x.world.rec.complete;
  }

  // ---------------------------------------------------------------- an interrupt that is not delivered

  function StuckRow(): Record {
    Apply(RequestCancel, BegunRow(None), 0).value.(complete := false)
  }

  /** Nobody works on it any more, it is DISPATCHING, and its request is on the wire. */
  function StuckCell(): Exec {
    Exec(World(StuckRow(), [ExecuteRequest(1, [])], [], [], 0), Idle, Idle, false)
  }

  lemma UndeliveredStretch() returns (xs: seq<Exec>)
    ensures IsStretch(xs, LoadedCell(None), StuckCell())
  {
    var s := LoadedCell(None);
    xs := SendCell(None);
    var x: Exec;
    xs, x := CancelledHere(xs, s, SentCell(None));
    xs, x := Decided(xs, s, x);
    assert x.worker == Poke(Interrupting(FIRST, Interrupted));
    xs, x := Acted(xs, s, x, x.world, Do([MarkIncomplete], AmbiguousMarked, Failed, None));
    xs, x := Written(xs, s, x);
    xs, x := Concluded(xs, s, x);
    xs, x := Decided(xs, s, x);
    assert x.worker == AmbiguousDisconnected;
    xs, x := Decided(xs, s, x);
    assert x == StuckCell();
  }

  /** A client cancels an unconfirmed execution, the interrupt cannot be delivered, and it stays DISPATCHING. */
  lemma UndeliveredLeavesDispatching()
    ensures Reachable(StuckCell())
    ensures var x := StuckCell();
            x.world.rec.state == Dispatching && x.worker == Idle && x.control == Idle && !x.booting
  {
    CellIsReachable(None);
    var xs := UndeliveredStretch();
    ReachAlong(xs, LoadedCell(None), StuckCell());
  }

  // ---------------------------------------------------------------- a cancel after a timeout, and a crash

  function ReplyEvent(status: ReplyStatus): KernelEvent {
    KernelEvent(Shell, Message(Some(1), HeaderOf(ExecuteReply), None,
                               Some(Content(Known(status), false, None, None, None, "", [], false, [], None))))
  }

  const IDLE := KernelEvent(Iopub, Message(Some(1), HeaderOf(StatusReport), None,
                                           Some(Content(NoStatus, true, None, None, None, "", [], false, [], None))))

  /** The confirming write, with the loop's own deadline. */
  lemma Confirmed(xs: seq<Exec>, x: Exec, y: Exec, deadline: nat) returns (ys: seq<Exec>, z: Exec)
    requires IsStretch(xs, x, y) && y.worker.Do? && y.worker.ops != [] && y.worker.ops[0] == Confirm
    requires y.world.rec.state == Dispatching && y.world.rec.timeout.Some? && deadline >= y.world.clock + y.world.rec.timeout.value
    requires y.worker.next.Top? && y.worker.next.w.mode.LiveMode?
    ensures z == y.(world := y.world.(rec := Apply(Confirm, y.world.rec, y.world.clock).value),
                    worker := y.worker.(ops := y.worker.ops[1..],
                                        next := Top(y.worker.next.w.(mode := LiveMode(Some(deadline))))))
    ensures IsStretch(ys, x, z)
  {
    z := y.(world := y.world.(rec := Apply(Confirm, y.world.rec, y.world.clock).value),
            worker := y.worker.(ops := y.worker.ops[1..], next := Top(y.worker.next.w.(mode := LiveMode(Some(deadline))))));
    assert DoStep(y.world, y.worker, z.world, z.worker);
    ys := Longer(xs, x, y, z);
  }

  lemma Later(xs: seq<Exec>, x: Exec, y: Exec, clock: nat) returns (ys: seq<Exec>, z: Exec)
    requires IsStretch(xs, x, y) && !y.worker.Idle? && !y.worker.Failed? && clock >= y.world.clock
    ensures z == y.(world := y.world.(clock := clock)) && IsStretch(ys, x, z)
  {
    z := y.(world := y.world.(clock := clock));
    ys := Longer(xs, x, y, z);
  }

  const ABORTED := Evidence(true, false, Some(ReplyAborted), None, None)

  /** An "aborted" reply confirmed the request; its evidence is saved, and the loop's deadline is 1. */
  function AbortedRow(): Record {
    Entered(BegunRow(Some(1)), Running).(confirmed := true, sourceKept := false, deadline := Some(1), evidence := ABORTED)
  }

  const SECOND := Watch(ProofState(1, true, ABORTED, None, None), false, LiveMode(Some(1)), HOME)

  lemma AbortedStretch() returns (xs: seq<Exec>, x: Exec)
    ensures IsStretch(xs, LoadedCell(Some(1)), x)
    ensures x.worker == Top(SECOND) && x.world.rec == AbortedRow() && x.world.clock == 0 && x.control == Idle && !x.booting
  {
    var s := LoadedCell(Some(1));
    xs := SendCell(Some(1));
    xs, x := Decided(xs, s, SentCell(Some(1)));
    var e := ReplyEvent(ReplyAborted);
    var o := Report(FIRST.proof, e);
    assert EventWrites(FIRST, e) + EventClosing(FIRST, e) == [Confirm, SaveEvidence(o)];
    xs, x := Acted(xs, s, x, Watched(x.world, FIRST, e), OnEvent(FIRST, e));
    xs, x := Confirmed(xs, s, x, 1);
    assert x.worker.ops == [SaveEvidence(o)];
    xs, x := Written(xs, s, x);
    xs, x := Concluded(xs, s, x);
  }

  const THIRD := Watch(ProofState(1, true, ABORTED, None, Some(TimedOut)), true, LiveMode(Some(1)), HOME)

  const BOTH := Evidence(true, true, Some(ReplyAborted), None, None)

  /** The deadline passes, the timeout is requested and delivered, and then a client cancels. */
  lemma CancelledStretch() returns (xs: seq<Exec>, x: Exec)
    ensures IsStretch(xs, LoadedCell(Some(1)), x)
    ensures x.worker == Await(THIRD) && x.control == Idle && !x.booting
    ensures x.world.rec == AbortedRow().(requested := Some(Interrupted), cancelled := true)
  {
    var s := LoadedCell(Some(1));
    xs, x := AbortedStretch();
    xs, x := Later(xs, s, x, 1);
    xs, x := Decided(xs, s, x);
    xs, x := Written(xs, s, x);
    xs, x := Concluded(xs, s, x);
    assert x.worker == Poke(THIRD);
    xs, x := Acted(xs, s, x, x.world, Await(THIRD));
    xs, x := CancelledHere(xs, s, x);
  }

  /** The idle message comes, and its evidence is saved; the closing writes are next. */
  lemma ClosingStretch() returns (xs: seq<Exec>, x: Exec)
    ensures IsStretch(xs, LoadedCell(Some(1)), x)
    ensures x.worker.Do? && x.worker.ops == Closing(TimedOut, Some(Live)) && x.control == Idle && !x.booting
    ensures x.world.rec == AbortedRow().(requested := Some(Interrupted), cancelled := true, evidence := BOTH)
  {
    var s := LoadedCell(Some(1));
    xs, x := CancelledStretch();
    var o := Report(THIRD.proof, IDLE);
    assert o.terminal == Some(TimedOut);
    assert EventWrites(THIRD, IDLE) + EventClosing(THIRD, IDLE) == [SaveEvidence(o)] + Closing(TimedOut, Some(Live));
    xs, x := Acted(xs, s, x, Watched(x.world, THIRD, IDLE), OnEvent(THIRD, IDLE));
    xs, x := Written(xs, s, x);
  }

  lemma More(run: seq<Exec>, y: Exec)
    requires IsRun(run) && Step(run[|run| - 1], y)
    ensures IsRun(run + [y])
  {
    var longer := run + [y];
    forall i | 0 < i < |longer| ensures StepAt(longer, i) {
      if i < |run| {
        assert StepAt(run, i);
      }
    }
  }

  function WriteOf(w: World, pc: Pc): (World, Pc)
    requires pc.Do? && pc.ops != [] && Apply(pc.ops[0], w.rec, w.clock).Ok?
  {
    (Committed(w, pc.ops[0], Apply(pc.ops[0], w.rec, w.clock).value, pc.seen), pc.(ops := pc.ops[1..]))
  }

  lemma WorkerWrites(run: seq<Exec>, x: Exec) returns (y: Exec)
    requires IsRun(run) && run[|run| - 1] == x
    requires x.worker.Do? && x.worker.ops != [] && x.worker.ops[0] != Confirm && Apply(x.worker.ops[0], x.world.rec, x.world.clock).Ok?
    ensures y == x.(world := WriteOf(x.world, x.worker).0, worker := WriteOf(x.world, x.worker).1) && IsRun(run + [y])
  {
    y := x.(world := WriteOf(x.world, x.worker).0, worker := WriteOf(x.world, x.worker).1);
    assert DoStep(x.world, x.worker, y.world, y.worker);
    More(run, y);
  }

  lemma ControllerWrites(run: seq<Exec>, x: Exec) returns (y: Exec)
    requires IsRun(run) && run[|run| - 1] == x
    requires x.control.Do? && x.control.ops != [] && x.control.ops[0] != Confirm && Apply(x.control.ops[0], x.world.rec, x.world.clock).Ok?
    ensures y == x.(world := WriteOf(x.world, x.control).0, control := WriteOf(x.world, x.control).1) && IsRun(run + [y])
  {
    y := x.(world := WriteOf(x.world, x.control).0, control := WriteOf(x.world, x.control).1);
    assert DoStep(x.world, x.control, y.world, y.control);
    More(run, y);
  }

  /** The worker makes its closing writes. */
  lemma LiveEnding(run: seq<Exec>, x: Exec, to: State) returns (longer: seq<Exec>)
    requires IsRun(run) && run[|run| - 1] == x && x.worker.Do? && x.worker.ops == Closing(to, Some(Live))
    requires IsObserved(x.world.rec.state) && IsVerdict(to)
    ensures IsRun(longer) && run <= longer && longer[|longer| - 1].world.rec.state == to
  {
    var y := WorkerWrites(run, x);
    assert y.worker.ops == [Move(to, Some(Live))];
    var z := WorkerWrites(run + [y], y);
    longer := run + [y] + [z];
  }

  /** The controller crashes; what is left is the row, and the restarted controller looks at it. */
  lemma Restarts(run: seq<Exec>, x: Exec) returns (longer: seq<Exec>, y: Exec)
    requires IsRun(run) && run[|run| - 1] == x && OnReconcile(x.world.rec).Do?
    ensures IsRun(longer) && |longer| == |run| + 2 && run < longer && longer[|longer| - 1] == y
    ensures longer[|run|] == x.(worker := Idle, control := Reconcile, booting := true)
    ensures y == x.(worker := Idle, control := OnReconcile(x.world.rec), booting := true)
  {
    var z := x.(worker := Idle, control := Reconcile, booting := true);
    More(run, z);
    y := z.(control := OnReconcile(z.world.rec));
    assert Decision(z.world.rec, z.world.clock, Reconcile) == Some(y.control);
    More(run + [z], y);
    longer := run + [z] + [y];
  }

  lemma RestartEnding(run: seq<Exec>, x: Exec, to: State) returns (longer: seq<Exec>)
    requires IsRun(run) && run[|run| - 1] == x && IsObserved(x.world.rec.state) && IsVerdict(to)
    requires OnReconcile(x.world.rec) == Do(Closing(to, Some(DurableEvidence)), Idle, Reconcile, None)
    ensures IsRun(longer) && run < longer && longer[|longer| - 1].world.rec.state == to
    ensures longer[|run|] == x.(worker := Idle, control := Reconcile, booting := true)
  {
    var begun, z := Restarts(run, x);
    longer := BootEnding(begun, z, to);
    assert longer[|run|] == begun[|run|];
  }

  lemma BootEnding(run: seq<Exec>, z: Exec, to: State) returns (longer: seq<Exec>)
    requires IsRun(run) && run[|run| - 1] == z && z.control.Do? && z.control.ops == Closing(to, Some(DurableEvidence))
    requires IsObserved(z.world.rec.state) && IsVerdict(to)
    ensures IsRun(longer) && run <= longer && longer[|longer| - 1].world.rec.state == to
  {
    var a := ControllerWrites(run, z);
    assert a.control.ops == [Move(to, Some(DurableEvidence))];
    var b := ControllerWrites(run + [a], a);
    longer := run + [a] + [b];
  }

  /**
   A run in which a timeout is requested, then a cancel, and the kernel reports the interrupt. If
   the worker gets to its closing writes the execution is TIMED_OUT; if the controller crashes just
   before them, it is INTERRUPTED.
   */
  lemma CancelAfterTimeoutChangesVerdict() returns (run: seq<Exec>, live: seq<Exec>, crashed: seq<Exec>)
    ensures IsRun(run) && IsRun(live) && IsRun(crashed) && run <= live && run < crashed
    ensures live[|live| - 1].world.rec.state == TimedOut
    ensures crashed[|run|] == run[|run| - 1].(worker := Idle, control := Reconcile, booting := true)
    ensures crashed[|crashed| - 1].world.rec.state == Interrupted
  {
    CellIsReachable(Some(1));
    var xs, x := ClosingStretch();
    ReachAlong(xs, LoadedCell(Some(1)), x);
    run :| IsRun(run) && run[|run| - 1] == x;
    live := LiveEnding(run, x, TimedOut);
    assert RestartVerdict(BOTH, Some(Interrupted)) == Some(Interrupted);
    crashed := RestartEnding(run, x, Interrupted);
  }
}
