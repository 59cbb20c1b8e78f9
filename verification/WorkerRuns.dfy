/** The promises of the durable execution lifecycle, for every run of the machine in KernelWorker. */
module WorkerRuns {
  import opened Wrappers
  import opened Lifecycle
  import opened KernelProof
  import opened Outputs
  import opened Storage
  import opened KernelWorker
  import opened WorkerSafety

  // ---------------------------------------------------------------- the invariant is inductive

  lemma PcStepGrows(w: World, pc: Pc, v: World, q: Pc)
    requires WorldOk(w) && PcStep(w, pc, v, q)
    ensures Grows(w.rec, v.rec)
  {
    if v.rec != w.rec {
      match pc
      case Prepared(_) => ApplyGrows(Begin(q.id, q.via), w.rec, w.clock);
      case Do(ops, _, _, _) => ApplyGrows(ops[0], w.rec, w.clock);
    }
  }

  lemma WorkerStepInv(x: Exec, y: Exec)
    requires Inv(x)
    requires PcStep(x.world, x.worker, y.world, y.worker) && y.control == x.control && y.booting == x.booting
    ensures Inv(y)
  {
    PcStepOk(x.world, x.worker, y.world, y.worker);
    PcStepGrows(x.world, x.worker, y.world, y.worker);
    if !x.booting {
      ForceStable(x.world, y.world, x.control);
    }
  }

  lemma ForceWrite(w: World, pc: Pc, v: World, q: Pc)
    requires WorldOk(w) && PcOk(w, pc) && IsForcePoint(pc) && pc.Do? && DoStep(w, pc, v, q)
    ensures IsForcePoint(q) && Stable(w, v) && v.rec.evidence == w.rec.evidence && v.rec.outputs == w.rec.outputs
  {
    DoStepOk(w, pc, v, q);
    if q.Do? && q.ops == pc.ops[1..] && pc.ops != [] {
      assert pc.ops[0] in pc.ops;
      assert forall op <- q.ops :: op in pc.ops;
    }
  }

  lemma ForceNeverActs(w: World, pc: Pc, v: World, q: Pc)
    requires IsForcePoint(pc) && !pc.Do?
    ensures !ActionStep(w, pc, v, q)
  {
  }

  lemma ForceDecides(r: Record, clock: nat, pc: Pc)
    requires IsForcePoint(pc) && !pc.Do?
    ensures IsForcePoint(Raised(pc))
    ensures Decision(r, clock, pc).Some? ==> IsForcePoint(Decision(r, clock, pc).value)
  {
    match pc
    case Idle =>
    case Force =>
    case ForceMarked =>
    case ForceDisconnected =>
  }

  lemma ForceStep(w: World, pc: Pc, v: World, q: Pc)
    requires WorldOk(w) && PcOk(w, pc) && IsForcePoint(pc) && PcStep(w, pc, v, q)
    ensures IsForcePoint(q) && Stable(w, v) && v.rec.evidence == w.rec.evidence && v.rec.outputs == w.rec.outputs
  {
    if !pc.Do? {
      ForceNeverActs(w, pc, v, q);
      ForceDecides(w.rec, w.clock, pc);
    } else if !(v == w && q == pc.onError) {
      ForceWrite(w, pc, v, q);
    }
  }

  lemma BootWrites(w: World, pc: Pc, v: World, q: Pc)
    requires IsBootPoint(pc) && pc.Do? && PcStep(w, pc, v, q)
    ensures IsBootPoint(q)
  {
  }

  lemma BootStep(w: World, pc: Pc, v: World, q: Pc)
    requires IsBootPoint(pc) && PcStep(w, pc, v, q)
    ensures IsBootPoint(q)
  {
    match pc
    case Idle =>
    case Reconcile =>
    case Do(_, _, _, _) => BootWrites(w, pc, v, q);
  }

  lemma ControlStepInv(x: Exec, y: Exec)
    requires Inv(x)
    requires PcStep(x.world, x.control, y.world, y.control) && y.worker == x.worker && y.booting == x.booting
    ensures Inv(y)
  {
    PcStepOk(x.world, x.control, y.world, y.control);
    if x.booting {
      BootStep(x.world, x.control, y.world, y.control);
    } else {
      ForceStep(x.world, x.control, y.world, y.control);
      PcStable(x.world, y.world, x.worker);
    }
  }

  lemma CancelKeepsWorld(w: World, v: World)
    requires WorldOk(w)
    requires Apply(RequestCancel, w.rec, w.clock) == Ok(v.rec) && v == w.(rec := v.rec)
    ensures WorldOk(v)
  {
    ApplyKeepsSound(RequestCancel, w.rec, w.clock);
    if w.rec.state == Queued {
      NeverDispatched(w.rec);
    }
    assert Disconnected in v.rec.journal <==> Disconnected in w.rec.journal;
    assert Justified(w, w.rec.evidence, w.rec.state) ==> Justified(v, w.rec.evidence, w.rec.state);
  }

  lemma CancelIsStable(w: World, v: World)
    requires Apply(RequestCancel, w.rec, w.clock) == Ok(v.rec) && v == w.(rec := v.rec)
    ensures Stable(w, v) && v.rec.evidence == w.rec.evidence && v.rec.outputs == w.rec.outputs
  {
  }

  lemma CancelStepInv(x: Exec, y: Exec)
    requires Inv(x)
    requires Apply(RequestCancel, x.world.rec, x.world.clock) == Ok(y.world.rec)
    requires y == x.(world := x.world.(rec := y.world.rec))
    ensures Inv(y)
  {
    CancelKeepsWorld(x.world, y.world);
    CancelIsStable(x.world, y.world);
    PcStable(x.world, y.world, x.worker);
    PcStable(x.world, y.world, x.control);
  }

  lemma TickInv(x: Exec, y: Exec)
    requires Inv(x)
    requires y.world.clock >= x.world.clock && y == x.(world := x.world.(clock := y.world.clock))
    ensures Inv(y)
  {
    var r := x.world.rec;
    assert Justified(x.world, r.evidence, r.state) ==> Justified(y.world, r.evidence, r.state);
    PcStable(x.world, y.world, x.worker);
    PcStable(x.world, y.world, x.control);
  }

  lemma ThreadStepInv(x: Exec, y: Exec)
    requires Inv(x) && ThreadStep(x, y)
    ensures Inv(y)
  {
    if PcStep(x.world, x.worker, y.world, y.worker) && y.control == x.control && y.booting == x.booting {
      WorkerStepInv(x, y);
    } else {
      ControlStepInv(x, y);
    }
  }

  lemma OutsideStepInv(x: Exec, y: Exec)
    requires Inv(x) && OutsideStep(x, y)
    ensures Inv(y)
  {
    if Apply(RequestCancel, x.world.rec, x.world.clock) == Ok(y.world.rec) && y == x.(world := x.world.(rec := y.world.rec)) {
      CancelStepInv(x, y);
    } else if y.world.clock >= x.world.clock && y == x.(world := x.world.(clock := y.world.clock)) {
      TickInv(x, y);
    } else {
      ThreadsMoved(x, y);
    }
  }

  /** Starting, stopping and crashing threads changes nothing durable. */
  lemma ThreadsMoved(x: Exec, y: Exec)
    requires Inv(x) && OutsideStep(x, y) && y.world == x.world
    ensures Inv(y)
  {
    if x.world.rec.state == Queued {
      NeverDispatched(x.world.rec);
    }
  }

  lemma StepInv(x: Exec, y: Exec)
    requires Inv(x) && Step(x, y)
    ensures Inv(y)
  {
    if ThreadStep(x, y) {
      ThreadStepInv(x, y);
    } else {
      OutsideStepInv(x, y);
    }
  }

  lemma StepOfRun(run: seq<Exec>, i: nat)
    requires IsRun(run) && 0 < i < |run|
    ensures Step(run[i - 1], run[i])
  {
    assert StepAt(run, i);
  }

  lemma RunStart(run: seq<Exec>)
    requires IsRun(run)
    ensures Inv(run[0])
  {
    InitInv(run[0]);
  }

  lemma {:induction false} RunInv(run: seq<Exec>, i: nat)
    requires IsRun(run) && i < |run|
    ensures Inv(run[i])
  {
    if i == 0 {
      RunStart(run);
    } else {
      RunInv(run, i - 1);
      StepOfRun(run, i);
      StepInv(run[i - 1], run[i]);
    }
  }

  lemma ThreadStepGrows(x: Exec, y: Exec)
    requires WorldOk(x.world) && ThreadStep(x, y)
    ensures Grows(x.world.rec, y.world.rec)
  {
    if PcStep(x.world, x.worker, y.world, y.worker) {
      PcStepGrows(x.world, x.worker, y.world, y.worker);
    } else {
      PcStepGrows(x.world, x.control, y.world, y.control);
    }
  }

  lemma StepGrows(x: Exec, y: Exec)
    requires Inv(x) && Step(x, y)
    ensures Grows(x.world.rec, y.world.rec)
  {
    if ThreadStep(x, y) {
      ThreadStepGrows(x, y);
    } else if Apply(RequestCancel, x.world.rec, x.world.clock) == Ok(y.world.rec) {
      ApplyGrows(RequestCancel, x.world.rec, x.world.clock);
    }
  }

  lemma GrowsTransitive(a: Record, b: Record, c: Record)
    requires Grows(a, b) && Grows(b, c)
    ensures Grows(a, c)
  {
  }

  lemma RunStepGrows(run: seq<Exec>, j: nat)
    requires IsRun(run) && 0 < j < |run|
    ensures Grows(run[j - 1].world.rec, run[j].world.rec)
  {
    RunInv(run, j - 1);
    StepOfRun(run, j);
    StepGrows(run[j - 1], run[j]);
  }

  lemma {:induction false} RunGrows(run: seq<Exec>, i: nat, j: nat)
    requires IsRun(run) && i <= j < |run|
    ensures Grows(run[i].world.rec, run[j].world.rec)
    decreases j
  {
    if i < j {
      RunGrows(run, i, j - 1);
      RunStepGrows(run, j);
      GrowsTransitive(run[i].world.rec, run[j - 1].world.rec, run[j].world.rec);
    }
  }

  // ---------------------------------------------------------------- at most once, never replayed

  /** Across retries, crashes and restarts, one execute request at most; and the text sent is the text recorded. */
  lemma SentAtMostOnce(run: seq<Exec>, i: nat)
    requires IsRun(run) && i < |run|
    ensures var w := run[i].world;
            && Executes(w.wire) <= 1
            && (Executes(w.wire) == 1 ==> Dispatching in w.rec.journal)
            && forall m <- w.wire :: m.ExecuteRequest? ==> Some(m.id) == w.rec.messageId && Digest(m.code) == w.rec.sourceDigest
  {
    RunInv(run, i);
  }

  /** Nothing but the step after a begun dispatch sends code; everything else on the wire asks for kernel info. */
  lemma StepSends(x: Exec, y: Exec)
    requires Inv(x) && Step(x, y)
    ensures y.world.wire == x.world.wire
            || (x.worker.ToSend? && Executes(x.world.wire) == 0
                && y.world.wire == x.world.wire + [ExecuteRequest(x.worker.id, x.worker.code)])
            || exists id :: y.world.wire == x.world.wire + [KernelInfoRequest(id)]
  {
  }

  predicate PastSending(x: Exec) {
    x.world.rec.state != Queued && !x.worker.ToSend?
  }

  lemma NeverBackInQueue(a: Record, b: Record)
    requires Sound(a) && Sound(b) && Grows(a, b) && a.state != Queued
    ensures b.state != Queued
  {
    if |b.journal| > |a.journal| {
      assert b.journal[|a.journal| - 1] == a.state;
      PathRankStrict(b.journal, |a.journal| - 1, |b.journal| - 1);
    } else {
      assert b.journal == a.journal;
    }
  }

  lemma DecisionNeverSends(r: Record, clock: nat, pc: Pc)
    ensures Decision(r, clock, pc).Some? ==> !Decision(r, clock, pc).value.ToSend?
  {
  }

  lemma ActionKeepsSending(w: World, pc: Pc, v: World, q: Pc)
    requires PcOk(w, pc) && ActionStep(w, pc, v, q) && !pc.ToSend? && !pc.Do?
    requires w.rec.state != Queued
    ensures !q.ToSend?
  {
  }

  lemma PcStepKeepsSending(w: World, pc: Pc, v: World, q: Pc)
    requires PcOk(w, pc) && PcStep(w, pc, v, q) && !pc.ToSend?
    requires w.rec.state != Queued
    ensures !q.ToSend?
  {
    DecisionNeverSends(w.rec, w.clock, pc);
    if ActionStep(w, pc, v, q) && !pc.Do? {
      ActionKeepsSending(w, pc, v, q);
    }
  }

  lemma StepKeepsSending(x: Exec, y: Exec)
    requires Inv(x) && Step(x, y) && !x.worker.ToSend?
    requires x.world.rec.state != Queued
    ensures !y.worker.ToSend?
  {
    if PcStep(x.world, x.worker, y.world, y.worker) {
      PcStepKeepsSending(x.world, x.worker, y.world, y.worker);
    }
  }

  lemma ExecutesAfterInfo(wire: seq<Wire>, id: MsgId)
    ensures Executes(wire + [KernelInfoRequest(id)]) == Executes(wire)
  {
    assert (wire + [KernelInfoRequest(id)])[..|wire|] == wire;
  }

  lemma StepPastSending(x: Exec, y: Exec)
    requires Inv(x) && Step(x, y) && PastSending(x)
    ensures PastSending(y) && Executes(y.world.wire) == Executes(x.world.wire)
  {
    StepSends(x, y);
    StepGrows(x, y);
    StepInv(x, y);
    NeverBackInQueue(x.world.rec, y.world.rec);
    StepKeepsSending(x, y);
    if y.world.wire != x.world.wire {
      var id :| y.world.wire == x.world.wire + [KernelInfoRequest(id)];
      ExecutesAfterInfo(x.world.wire, id);
    }
  }

  lemma RunPastSending(run: seq<Exec>, j: nat)
    requires IsRun(run) && 0 < j < |run| && PastSending(run[j - 1])
    ensures PastSending(run[j]) && Executes(run[j].world.wire) == Executes(run[j - 1].world.wire)
  {
    RunInv(run, j - 1);
    StepOfRun(run, j);
    StepPastSending(run[j - 1], run[j]);
  }

  /** No replay: once the execution left the queue and its one send is behind it, or lost, no run sends it again. */
  lemma {:induction false} NeverReplayed(run: seq<Exec>, i: nat, j: nat)
    requires IsRun(run) && i <= j < |run|
    requires PastSending(run[i])
    ensures PastSending(run[j]) && Executes(run[j].world.wire) == Executes(run[i].world.wire)
    decreases j
  {
    if i < j {
      NeverReplayed(run, i, j - 1);
      RunPastSending(run, j);
    }
  }

  // ---------------------------------------------------------------- what a terminal state proves

  lemma {:induction false} HistoryMeans(hist: seq<Sighting>, id: MsgId)
    requires forall s <- hist :: Matches(s.event, id)
    ensures ObserveAll(Fresh(id), EventsOf(hist)).evidence == EvidenceIn(hist)
    ensures ObserveAll(Fresh(id), EventsOf(hist)).messageId == id
  {
    if hist != [] {
      var n := |hist| - 1;
      HistoryMeans(hist[..n], id);
      assert EventsOf(hist) == EventsOf(hist[..n]) + [hist[n].event];
      ObserveAllAppend(Fresh(id), EventsOf(hist[..n]), [hist[n].event]);
      var p := ObserveAll(Fresh(id), EventsOf(hist[..n]));
      assert ObserveAll(p, [hist[n].event]) == Observed(p, hist[n].event);
      assert hist[n] in hist;
    }
  }

  /**
   FINISHED is earned, live, by recovery or from durable evidence alike: sent exactly once,
   confirmed, and among the matching events recorded, all of them seen on the connection
   identified at dispatch, the first valid reply is "ok" and there is an idle.
   */
  lemma FinishedIsEarned(run: seq<Exec>, i: nat)
    requires IsRun(run) && i < |run|
    requires run[i].world.rec.state == Finished
    ensures var w := run[i].world;
            && Executes(w.wire) == 1 && w.rec.confirmed && w.rec.messageId.Some?
            && (forall s <- w.hist :: s.via == w.rec.identity && Matches(s.event, w.rec.messageId.value))
            && FirstReplyIs(EventsOf(w.hist), w.rec.messageId.value, ReplyOk)
            && HasIdle(EventsOf(w.hist), w.rec.messageId.value)
  {
    RunInv(run, i);
    var w := run[i].world;
    HistoryMeans(w.hist, w.rec.messageId.value);
    EvidenceMeans(w.rec.messageId.value, EventsOf(w.hist));
  }

  /** The other endings a kernel reply can lead to. */
  lemma OtherEndingsAreEarned(run: seq<Exec>, i: nat)
    requires IsRun(run) && i < |run|
    ensures var w := run[i].world;
            && (w.rec.state == Error ==> w.rec.evidence.reply && w.rec.evidence.idle && w.rec.evidence.status != Some(ReplyOk))
            && (w.rec.state == TimedOut ==>
                  && w.rec.timeout.Some? && w.rec.deadline.Some? && w.clock >= w.rec.deadline.value
                  && w.rec.evidence.reply && w.rec.evidence.idle && ShowsInterrupt(w.rec.evidence))
            && (w.rec.state == Interrupted && Executes(w.wire) == 1 ==>
                  w.rec.cancelled && w.rec.evidence.reply && w.rec.evidence.idle && ShowsInterrupt(w.rec.evidence))
            && (w.rec.state == Interrupted && !w.rec.cancelled ==> Executes(w.wire) == 0)
  {
    RunInv(run, i);
  }

  /** A row with a durable verdict, when the evidence of the deciding event was saved and the closing writes were not made. */
  lemma SavedVerdictAgrees(x: Exec, watch: Watch, e: KernelEvent, after: Record)
    requires Inv(x) && WatchOk(x.world, x.world.rec.evidence, x.world.rec.complete, x.world.rec.outputs, watch)
    requires Matches(e, watch.proof.messageId) && Report(watch.proof, e).terminal.Some?
    requires after.evidence == EvidenceAfter(x.world.rec.evidence, EventWrites(watch, e)) && IsObserved(after.state)
    requires RequestOk(x.world, after.requested)
    ensures var verdict := Report(watch.proof, e).terminal.value;
            OnReconcile(after) == Do(Closing(verdict, Some(DurableEvidence)), Idle, Reconcile, None)
            <==> || watch.proof.requested == after.requested
                 || after.evidence.status == Some(ReplyOk)
                 || !ShowsInterrupt(after.evidence)
  {
    EventWritesOk(x.world, watch, e);
    SavedTracks(watch.proof, e);
    RestartVerdictAgrees(after.evidence, watch.proof.requested, after.requested);
  }

  // ---------------------------------------------------------------- journal, completeness, output

  /** The journal is a path of accepted moves of at most six entries ending in the current state. */
  lemma JournalIsPath(run: seq<Exec>, i: nat)
    requires IsRun(run) && i < |run|
    ensures var r := run[i].world.rec;
            IsPath(r.journal) && NeverResumes(r.journal) && r.journal[|r.journal| - 1] == r.state && |r.journal| <= 6
  {
    RunInv(run, i);
    PathClimbs(run[i].world.rec.journal, 0);
  }

  /** A terminal row is closed for good: nothing changes its state, journal or output, and appends are refused. */
  lemma TerminalIsFinal(run: seq<Exec>, i: nat, j: nat, output: Output)
    requires IsRun(run) && i <= j < |run|
    requires IsTerminal(run[i].world.rec.state)
    ensures var r, q := run[i].world.rec, run[j].world.rec;
            && q.state == r.state && q.journal == r.journal && q.outputs == r.outputs
            && q.finalized && !q.sourceKept
            && Apply(Append(output), q, run[j].world.clock) == Err(OutputFinalized)
  {
    RunGrows(run, i, j);
    RunInv(run, i);
    RunInv(run, j);
    var r, q := run[i].world.rec, run[j].world.rec;
    if |r.journal| < |q.journal| {
      assert q.journal[|r.journal| - 1] == r.state;
      PathRankStrict(q.journal, |r.journal| - 1, |q.journal| - 1);
    }
  }

  /** The completeness flag never comes back, and every gap in observation takes it away for good. */
  lemma IncompleteForGood(run: seq<Exec>, i: nat, j: nat)
    requires IsRun(run) && i <= j < |run|
    ensures !run[i].world.rec.complete ==> !run[j].world.rec.complete
    ensures Disconnected in run[i].world.rec.journal ==> !run[j].world.rec.complete
  {
    RunGrows(run, i, j);
    RunInv(run, i);
  }

  /** Output grows by one event at a time. */
  lemma StepAppends(x: Exec, y: Exec)
    requires Step(x, y)
    ensures AppendsOne(x.world.rec.outputs, y.world.rec.outputs)
  {
    if ThreadStep(x, y) {
      if PcStep(x.world, x.worker, y.world, y.worker) {
        PcStepAppends(x.world, x.worker, y.world, y.worker);
      } else {
        PcStepAppends(x.world, x.control, y.world, y.control);
      }
    }
  }

  /** At most one output more. */
  predicate AppendsOne(before: seq<Output>, after: seq<Output>) {
    after == before || (after != [] && before == after[..|after| - 1])
  }

  lemma PcStepAppends(w: World, pc: Pc, v: World, q: Pc)
    requires PcStep(w, pc, v, q)
    ensures AppendsOne(w.rec.outputs, v.rec.outputs)
  {
    if v.rec != w.rec {
      match pc
      case Prepared(_) =>
      case Do(ops, _, _, _) => ApplyAppends(ops[0], w.rec, w.clock);
    }
  }

  lemma ApplyAppends(op: Op, r: Record, now: nat)
    ensures Apply(op, r, now).Ok? ==> AppendsOne(r.outputs, Apply(op, r, now).value.outputs)
  {
  }

  /** Over, with a verdict of the kernel or without ever having been sent, and flagged complete. */
  predicate IsComplete(r: Record) {
    IsTerminal(r.state) && !r.state.Unknown? && r.complete
  }

  /**
   An execution that is over, other than as UNKNOWN, and still flagged complete stored exactly the
   output of the matching events, in the order in which they were observed.
   */
  lemma CompleteOutputIsExact(run: seq<Exec>, i: nat)
    requires IsRun(run) && i < |run| && IsComplete(run[i].world.rec)
    ensures run[i].world.rec.outputs == StoredAll(run[i].world.watched)
  {
    RunInv(run, i);
  }
}
