/**
 The observation loops, told in messages: which message ends an execution, with which verdict, and
 when recovery gives up. Recovery asks the kernel for its info and gives up only once the kernel has
 answered that and gone idle, with nothing decided by then.
 */
module Recovery {
  import opened Wrappers
  import opened Lifecycle
  import opened KernelProof
  import opened Outputs
  import opened Storage
  import opened KernelWorker
  import opened WorkerSafety
  import opened WorkerRuns
  import opened Verdicts
  import I = Interleaving

  /** What a recovery comes to: it watches, is about to close the row, or has given up. */
  datatype Stage = Watching(w: KernelWorker.Watch) | Closes(to: Option<State>) | GaveUp | Elsewhere

  /** The state a list of writes ends in. */
  function Target(ops: seq<Op>): Option<State> {
    if ops != [] && ops[|ops| - 1].Move? then Some(ops[|ops| - 1].to) else None
  }

  /** Where a program point of a recovery loop leads once its writes are done. */
  function StageOf(pc: Pc): Stage {
    match pc
    case Top(w) => Watching(w)
    case Reread(w) => Watching(w)
    case Poke(w) => Watching(w)
    case Await(w) => Watching(w)
    case GiveUp => GaveUp
    case Do(_, Top(w), Failed, _) => Watching(w)
    case Do(_, Reread(w), Failed, _) => Watching(w)
    case Do(_, Poke(w), Failed, _) => Watching(w)
    case Do(_, GiveUp, Failed, _) => GaveUp
    case Do(ops, Idle, Failed, Some(_)) => Closes(Target(ops))
    case _ => Elsewhere
  }

  // ---------------------------------------------------------------- in messages

  /** The kernel has answered the info request, and gone idle after it or before. */
  ghost predicate Boundary(es: seq<KernelEvent>, infoId: MsgId) {
    (exists e <- es :: TellsInfo(e, infoId)) && (exists e <- es :: GoesIdle(e, infoId))
  }

  /** The last message answers the request, and with it both a reply and an idle are there; p is where the loop started. */
  ghost predicate Decides(p: ProofState, es: seq<KernelEvent>) {
    && es != [] && es[|es| - 1].message.parent == Some(p.messageId)
    && (p.evidence.reply || Replied(es, p.messageId))
    && (p.evidence.idle || WentIdle(es, p.messageId))
  }

  ghost predicate DecidesAt(p: ProofState, es: seq<KernelEvent>, k: nat) {
    k <= |es| && Decides(p, es[..k])
  }

  /** Some message has decided the execution. */
  ghost predicate Decided(p: ProofState, es: seq<KernelEvent>) {
    exists k: nat :: DecidesAt(p, es, k)
  }

  /** The info request is answered at the k-th message, and nothing has decided the execution by then. */
  ghost predicate GivesUpAt(p: ProofState, infoId: MsgId, es: seq<KernelEvent>, k: nat) {
    k <= |es| && Boundary(es[..k], infoId) && !Decided(p, es[..k])
  }

  ghost predicate GivesUp(p: ProofState, infoId: MsgId, es: seq<KernelEvent>) {
    exists k: nat :: GivesUpAt(p, infoId, es, k)
  }

  lemma BoundaryMore(es: seq<KernelEvent>, e: KernelEvent, infoId: MsgId)
    ensures (exists x <- es + [e] :: TellsInfo(x, infoId)) <==> (exists x <- es :: TellsInfo(x, infoId)) || TellsInfo(e, infoId)
    ensures (exists x <- es + [e] :: GoesIdle(x, infoId)) <==> (exists x <- es :: GoesIdle(x, infoId)) || GoesIdle(e, infoId)
    ensures Boundary(es, infoId) ==> Boundary(es + [e], infoId)
  {
    assert forall x :: x in es + [e] <==> x in es || x == e;
  }

  lemma PrefixOf(es: seq<KernelEvent>, e: KernelEvent, k: nat)
    ensures k <= |es| ==> (es + [e])[..k] == es[..k]
    ensures (es + [e])[..|es| + 1] == es + [e]
  {
  }

  lemma DecidedMore(p: ProofState, es: seq<KernelEvent>, e: KernelEvent)
    ensures Decided(p, es + [e]) <==> Decided(p, es) || Decides(p, es + [e])
  {
    var more := es + [e];
    PrefixOf(es, e, |es|);
    if Decided(p, more) {
      var k: nat :| DecidesAt(p, more, k);
      PrefixOf(es, e, k);
      assert k <= |es| ==> DecidesAt(p, es, k);
    }
    if Decided(p, es) {
      var k: nat :| DecidesAt(p, es, k);
      PrefixOf(es, e, k);
      assert DecidesAt(p, more, k);
    }
    if Decides(p, more) {
      assert DecidesAt(p, more, |more|);
    }
  }

  lemma GivesUpMore(p: ProofState, infoId: MsgId, es: seq<KernelEvent>, e: KernelEvent)
    ensures GivesUp(p, infoId, es + [e]) <==> GivesUp(p, infoId, es) || (Boundary(es + [e], infoId) && !Decided(p, es + [e]))
  {
    var more := es + [e];
    PrefixOf(es, e, |es|);
    if GivesUp(p, infoId, more) {
      var k: nat :| GivesUpAt(p, infoId, more, k);
      PrefixOf(es, e, k);
      assert k <= |es| ==> GivesUpAt(p, infoId, es, k);
    }
    if GivesUp(p, infoId, es) {
      var k: nat :| GivesUpAt(p, infoId, es, k);
      PrefixOf(es, e, k);
      assert GivesUpAt(p, infoId, more, k);
    }
    if Boundary(more, infoId) && !Decided(p, more) {
      assert GivesUpAt(p, infoId, more, |more|);
    }
  }

  lemma NothingYet(p: ProofState, infoId: MsgId)
    ensures !Decided(p, []) && !GivesUp(p, infoId, []) && !Boundary([], infoId)
  {
  }

  // ---------------------------------------------------------------- one message

  /** Evidence after the messages, for a loop that started with p. */
  ghost predicate Gathered(p: ProofState, es: seq<KernelEvent>, q: ProofState) {
    && q.messageId == p.messageId
    && (q.evidence.reply <==> p.evidence.reply || Replied(es, p.messageId))
    && (q.evidence.idle <==> p.evidence.idle || WentIdle(es, p.messageId))
  }

  /** The stage of a recovery loop that started with p and has seen these messages. */
  ghost predicate Agrees(p: ProofState, infoId: MsgId, es: seq<KernelEvent>, stage: Stage) {
    match stage
    case Watching(w) =>
      && Gathered(p, es, w.proof)
      && w.mode == RecoveryMode(infoId, ((exists e <- es :: TellsInfo(e, infoId)), (exists e <- es :: GoesIdle(e, infoId))))
      && !Boundary(es, infoId) && !Decided(p, es)
    case Closes(_) => Decided(p, es) && !GivesUp(p, infoId, es)
    case GaveUp => GivesUp(p, infoId, es)
    case Elsewhere => true
  }

  lemma GatheredMore(p: ProofState, es: seq<KernelEvent>, q: ProofState, e: KernelEvent)
    requires Gathered(p, es, q)
    ensures Gathered(p, es + [e], Observed(q, e))
  {
    RepliedMore(es, e, p.messageId);
    FieldsOf(e, p.messageId);
  }

  lemma StagesAfter(w: KernelWorker.Watch, e: KernelEvent)
    requires w.mode.RecoveryMode?
    ensures var o := Report(w.proof, e);
            var info := IdleAfter(w.mode.infoId, e, w.mode.info);
            StageOf(OnEvent(w, e))
            == if o.terminal.Some? then Closes(o.terminal)
               else if info.0 && info.1 then GaveUp
               else Watching(w.(proof := Observed(w.proof, e), mode := RecoveryMode(w.mode.infoId, info)))
  {
    var o := Report(w.proof, e);
    var ops := EventWrites(w, e) + EventClosing(w, e);
    if o.terminal.Some? {
      assert ops[|ops| - 1] == Move(o.terminal.value, Some(CompletionSource.Recovery));
    }
  }

  lemma NeverGivenUp(p: ProofState, infoId: MsgId, es: seq<KernelEvent>)
    requires !Boundary(es, infoId)
    ensures !GivesUp(p, infoId, es)
  {
    forall k: nat | k <= |es| ensures !Boundary(es[..k], infoId) {
      assert forall e <- es[..k] :: e in es;
    }
  }

  /** One more message takes the loop where the messages say. */
  lemma MessageAgrees(p: ProofState, infoId: MsgId, es: seq<KernelEvent>, w: KernelWorker.Watch, e: KernelEvent)
    requires Agrees(p, infoId, es, Watching(w))
    ensures Agrees(p, infoId, es + [e], StageOf(OnEvent(w, e))) && !StageOf(OnEvent(w, e)).Elsewhere?
  {
    var more := es + [e];
    GatheredMore(p, es, w.proof, e);
    BoundaryMore(es, e, infoId);
    FieldsOf(e, infoId);
    DecidedMore(p, es, e);
    GivesUpMore(p, infoId, es, e);
    NeverGivenUp(p, infoId, es);
    StagesAfter(w, e);
    assert more[|more| - 1] == e;
    assert Report(w.proof, e).terminal.Some? <==> Decides(p, more);
  }

  // ---------------------------------------------------------------- a whole recovery

  /** The loop left to the messages alone: it stops when it closes or gives up. */
  function Recover(w: KernelWorker.Watch, es: seq<KernelEvent>): Stage
    decreases |es|
  {
    if es == [] then Watching(w)
    else
      var stage := StageOf(OnEvent(w, es[0]));
      if stage.Watching? then Recover(stage.w, es[1..]) else stage
  }

  lemma OverStaysOver(p: ProofState, infoId: MsgId, es: seq<KernelEvent>, e: KernelEvent, stage: Stage)
    requires Agrees(p, infoId, es, stage) && (stage.Closes? || stage.GaveUp?)
    ensures Agrees(p, infoId, es + [e], stage)
  {
    DecidedMore(p, es, e);
    GivesUpMore(p, infoId, es, e);
  }

  lemma {:induction false} OverForGood(p: ProofState, infoId: MsgId, es: seq<KernelEvent>, fs: seq<KernelEvent>, stage: Stage)
    requires Agrees(p, infoId, es, stage) && (stage.Closes? || stage.GaveUp?)
    ensures Agrees(p, infoId, es + fs, stage)
    decreases |fs|
  {
    if fs == [] {
      assert es + fs == es;
    } else {
      OverStaysOver(p, infoId, es, fs[0], stage);
      assert es + [fs[0]] + fs[1..] == es + fs;
      OverForGood(p, infoId, es + [fs[0]], fs[1..], stage);
    }
  }

  lemma {:induction false} RecoverAgrees(p: ProofState, infoId: MsgId, es: seq<KernelEvent>, w: KernelWorker.Watch, fs: seq<KernelEvent>)
    requires Agrees(p, infoId, es, Watching(w))
    ensures Agrees(p, infoId, es + fs, Recover(w, fs)) && !Recover(w, fs).Elsewhere?
    decreases |fs|
  {
    if fs == [] {
      assert es + fs == es;
    } else {
      MessageAgrees(p, infoId, es, w, fs[0]);
      assert es + [fs[0]] + fs[1..] == es + fs;
      var stage := StageOf(OnEvent(w, fs[0]));
      if stage.Watching? {
        RecoverAgrees(p, infoId, es + [fs[0]], stage.w, fs[1..]);
      } else {
        OverForGood(p, infoId, es + [fs[0]], fs[1..], stage);
      }
    }
  }

  /** A watch as recovery starts it: kernel info was asked for, and nothing has come yet. */
  predicate Starts(w: KernelWorker.Watch, p: ProofState, infoId: MsgId) {
    w.proof == p && w.mode == RecoveryMode(infoId, (false, false))
  }

  /**
   Recovery gives up if and only if at some message the info request has been both answered and
   followed by its idle while nothing has decided the execution; it closes the row if and only if a
   message decided it without that; and otherwise it goes on watching.
   */
  lemma GivesUpIff(w: KernelWorker.Watch, p: ProofState, infoId: MsgId, es: seq<KernelEvent>)
    requires Starts(w, p, infoId)
    ensures Recover(w, es).GaveUp? <==> GivesUp(p, infoId, es)
    ensures Recover(w, es).Closes? <==> Decided(p, es) && !GivesUp(p, infoId, es)
    ensures Recover(w, es).Watching? <==> !Decided(p, es) && !Boundary(es, infoId)
  {
    NothingYet(p, infoId);
    assert [] + es == es;
    RecoverAgrees(p, infoId, [], w, es);
    NotBoth(p, infoId, es);
  }

  lemma NotBoth(p: ProofState, infoId: MsgId, es: seq<KernelEvent>)
    ensures Boundary(es, infoId) && !Decided(p, es) ==> GivesUp(p, infoId, es)
    ensures !Boundary(es, infoId) ==> !GivesUp(p, infoId, es)
  {
    if !Boundary(es, infoId) {
      NeverGivenUp(p, infoId, es);
    }
    assert es[..|es|] == es;
    assert Boundary(es, infoId) && !Decided(p, es) ==> GivesUpAt(p, infoId, es, |es|);
  }

  // ---------------------------------------------------------------- with which verdict

  /** The writes end by finalizing the output and moving the row to this state. */
  predicate EndsWith(ops: seq<Op>, to: State, source: CompletionSource) {
    |ops| >= 2 && ops[|ops| - 2] == FinalizeOutput && ops[|ops| - 1] == Move(to, Some(source))
  }

  /** The last write moves the row. */
  predicate Moves(ops: seq<Op>) {
    ops != [] && ops[|ops| - 1].Move?
  }

  function SourceOf(w: KernelWorker.Watch): CompletionSource {
    if w.mode.LiveMode? then Live else CompletionSource.Recovery
  }

  lemma WritesNeverMove(w: KernelWorker.Watch, e: KernelEvent)
    ensures !Moves(EventWrites(w, e))
  {
  }

  /**
   In either loop a message closes the row exactly when it answers the request and all messages so
   far call for a verdict; then that verdict is written last, after the output is finalized.
   */
  lemma MessageCloses(w: KernelWorker.Watch, before: seq<KernelEvent>, e: KernelEvent, to: State)
    requires Tells(before, w.proof.messageId, w.proof.evidence) && IsRequest(w.proof.requested)
    ensures var id := w.proof.messageId;
            var closes := e.message.parent == Some(id) && CallsFor(before + [e], id, w.proof.requested, to);
            && (closes ==> OnEvent(w, e).Do? && OnEvent(w, e).next == Idle && EndsWith(OnEvent(w, e).ops, to, SourceOf(w)))
            && (OnEvent(w, e).Do? && Moves(OnEvent(w, e).ops) && OnEvent(w, e).ops[|OnEvent(w, e).ops| - 1].to == to ==> closes)
  {
    var id := w.proof.messageId;
    TellsMore(before, e, id, w.proof.evidence);
    if Matches(e, id) {
      VerdictFor(before + [e], id, Observed(w.proof, e).evidence, w.proof.requested, to);
      WritesNeverMove(w, e);
      var writes, closing := EventWrites(w, e), EventClosing(w, e);
      assert closing == [] ==> writes + closing == writes;
    }
  }

  /** In every run: what closes an execution, and as what, while its loop waits for messages. */
  lemma ClosingIsCalledFor(run: seq<Exec>, i: nat, w: KernelWorker.Watch, e: KernelEvent, to: State)
    requires IsRun(run) && i < |run| && run[i].worker == Await(w)
    ensures var seen := EventsOf(run[i].world.hist) + [e];
            var closes := e.message.parent == Some(w.proof.messageId) && CallsFor(seen, w.proof.messageId, w.proof.requested, to);
            && (closes ==> OnEvent(w, e).Do? && OnEvent(w, e).next == Idle && EndsWith(OnEvent(w, e).ops, to, SourceOf(w)))
            && (OnEvent(w, e).Do? && Moves(OnEvent(w, e).ops) && OnEvent(w, e).ops[|OnEvent(w, e).ops| - 1].to == to ==> closes)
  {
    RunInv(run, i);
    HistoryTells(run[i].world, w.proof.messageId);
    MessageCloses(w, EventsOf(run[i].world.hist), e, to);
  }

  lemma HistoryTells(w: World, id: MsgId)
    requires WorldOk(w) && Some(id) == w.rec.messageId
    ensures Tells(EventsOf(w.hist), id, w.rec.evidence)
  {
    HistoryMeans(w.hist, id);
    TellsNothing(id);
    ObservedTells(Fresh(id), [], EventsOf(w.hist));
    assert [] + EventsOf(w.hist) == EventsOf(w.hist);
  }

  /** The endings of every run, in the messages whose evidence was committed. */
  lemma EndingsInMessages(run: seq<Exec>, i: nat)
    requires IsRun(run) && i < |run| && run[i].world.rec.messageId.Some?
    ensures var r, id, es := run[i].world.rec, run[i].world.rec.messageId.value, EventsOf(run[i].world.hist);
            && (r.state == Finished ==> WentIdle(es, id) && FirstReplies(es, id, ReplyOk))
            && (r.state == Interrupted ==> r.cancelled && WentIdle(es, id) && Delivered(es, id))
            && (r.state == TimedOut ==> r.deadline.Some? && run[i].world.clock >= r.deadline.value && WentIdle(es, id) && Delivered(es, id))
            && (r.state == Error ==> WentIdle(es, id) && Replied(es, id) && !FirstReplies(es, id, ReplyOk))
  {
    RunInv(run, i);
    var w := run[i].world;
    HistoryTells(w, w.rec.messageId.value);
    if w.rec.evidence.reply && w.rec.evidence.status != Some(ReplyOk) {
      DeliveredMeans(EventsOf(w.hist), w.rec.messageId.value, w.rec.evidence);
    }
  }

  // ---------------------------------------------------------------- along a run

  /** The worker took this message off the connection. */
  ghost predicate Hears(x: Exec, y: Exec, e: KernelEvent) {
    x.worker.Await? && y == x.(world := Watched(x.world, x.worker.w, e), worker := OnEvent(x.worker.w, e))
  }

  /**
   From a on the worker has been in one recovery loop, which it had just entered with proof p after
   asking for kernel info; the messages are those it heard up to b.
   */
  ghost predicate Heard(run: seq<Exec>, a: nat, b: nat, p: ProofState, infoId: MsgId, es: seq<KernelEvent>)
    requires a <= b < |run|
    decreases b
  {
    if a == b then es == [] && run[a].worker.Top? && Starts(run[a].worker.w, p, infoId)
    else
      || (StageOf(run[b].worker) != Elsewhere && Heard(run, a, b - 1, p, infoId, es)
          && (run[b - 1].worker.Await? ==> run[b].worker == run[b - 1].worker || run[b].worker == Top(run[b - 1].worker.w)))
      || (es != [] && Heard(run, a, b - 1, p, infoId, es[..|es| - 1]) && Hears(run[b - 1], run[b], es[|es| - 1]))
  }

  /** The same watch, but for what was requested of it meanwhile. */
  predicate SameStage(s: Stage, t: Stage) {
    match s
    case Watching(w) =>
      t.Watching? && t.w.mode == w.mode && t.w.proof.messageId == w.proof.messageId && t.w.proof.evidence == w.proof.evidence
    case Closes(_) => t.Closes?
    case GaveUp => t.GaveUp?
    case Elsewhere => true
  }

  predicate InRecovery(s: Stage) {
    s != Elsewhere && (s.Watching? ==> s.w.mode.RecoveryMode?)
  }

  lemma DecisionKeepsStage(r: Record, clock: nat, pc: Pc)
    requires InRecovery(StageOf(pc)) && Decision(r, clock, pc).Some?
    ensures var next := StageOf(Decision(r, clock, pc).value); next == Elsewhere || SameStage(StageOf(pc), next)
  {
    match pc
    case Top(w) =>
    case Reread(w) =>
    case GiveUp =>
  }

  lemma WritingKeepsStage(w: World, pc: Pc, v: World, q: Pc)
    requires InRecovery(StageOf(pc)) && pc.Do? && PcStep(w, pc, v, q)
    ensures StageOf(q) == Elsewhere || SameStage(StageOf(pc), StageOf(q))
  {
    if !(v == w && q == Raised(pc)) && pc.ops != [] && Apply(pc.ops[0], w.rec, w.clock).Ok? {
      ArmedKeeps(w, pc, v, q);
    }
  }

  /** Only the live loop is given a deadline. */
  lemma ArmedKeeps(w: World, pc: Pc, v: World, q: Pc)
    requires InRecovery(StageOf(pc)) && pc.Do? && pc.ops != [] && Apply(pc.ops[0], w.rec, w.clock).Ok? && DoStep(w, pc, v, q)
    ensures q.Do? && q.next == pc.next && q.onError == pc.onError && q.seen == pc.seen
  {
  }

  lemma ActingKeepsStage(w: World, pc: Pc, v: World, q: Pc)
    requires InRecovery(StageOf(pc)) && !pc.Do? && ActionStep(w, pc, v, q)
    requires pc.Await? ==> q == pc || q == Top(pc.w)
    ensures StageOf(q) == Elsewhere || SameStage(StageOf(pc), StageOf(q))
  {
    match pc
    case Poke(_) =>
    case Await(_) =>
    case _ =>
  }

  lemma PointKeepsStage(w: World, pc: Pc, v: World, q: Pc)
    requires InRecovery(StageOf(pc)) && PcStep(w, pc, v, q)
    requires pc.Await? ==> q == pc || q == Top(pc.w)
    ensures StageOf(q) == Elsewhere || SameStage(StageOf(pc), StageOf(q))
  {
    if pc.Do? {
      WritingKeepsStage(w, pc, v, q);
    } else if v == w && Decision(w.rec, w.clock, pc) == Some(q) {
      DecisionKeepsStage(w.rec, w.clock, pc);
    } else if ActionStep(w, pc, v, q) {
      ActingKeepsStage(w, pc, v, q);
    }
  }

  lemma StepKeepsStage(x: Exec, y: Exec)
    requires InRecovery(StageOf(x.worker)) && Step(x, y)
    requires x.worker.Await? ==> y.worker == x.worker || y.worker == Top(x.worker.w)
    ensures StageOf(y.worker) == Elsewhere || SameStage(StageOf(x.worker), StageOf(y.worker))
  {
    if ThreadStep(x, y) && y.worker != x.worker {
      PointKeepsStage(x.world, x.worker, y.world, y.worker);
    }
  }

  lemma AgreesKept(p: ProofState, infoId: MsgId, es: seq<KernelEvent>, s: Stage, t: Stage)
    requires Agrees(p, infoId, es, s) && (t == Elsewhere || SameStage(s, t)) && s != Elsewhere
    ensures Agrees(p, infoId, es, t)
  {
  }

  lemma {:induction false} HeardAgrees(run: seq<Exec>, a: nat, b: nat, p: ProofState, infoId: MsgId, es: seq<KernelEvent>)
    requires IsRun(run) && a <= b < |run| && Heard(run, a, b, p, infoId, es)
    ensures Agrees(p, infoId, es, StageOf(run[b].worker)) && InRecovery(StageOf(run[b].worker))
    decreases b
  {
    if a == b {
      NothingYet(p, infoId);
    } else if es != [] && Heard(run, a, b - 1, p, infoId, es[..|es| - 1]) && Hears(run[b - 1], run[b], es[|es| - 1]) {
      var n := |es| - 1;
      HeardAgrees(run, a, b - 1, p, infoId, es[..n]);
      HearingAgrees(run[b - 1], run[b], p, infoId, es);
    } else {
      HeardAgrees(run, a, b - 1, p, infoId, es);
      StepOfRun(run, b);
      StepAgrees(run[b - 1], run[b], p, infoId, es);
    }
  }

  lemma HearingAgrees(x: Exec, y: Exec, p: ProofState, infoId: MsgId, es: seq<KernelEvent>)
    requires es != [] && Agrees(p, infoId, es[..|es| - 1], StageOf(x.worker)) && Hears(x, y, es[|es| - 1])
    ensures Agrees(p, infoId, es, StageOf(y.worker)) && InRecovery(StageOf(y.worker))
  {
    var n := |es| - 1;
    MessageAgrees(p, infoId, es[..n], x.worker.w, es[n]);
    assert es[..n] + [es[n]] == es;
  }

  lemma StepAgrees(x: Exec, y: Exec, p: ProofState, infoId: MsgId, es: seq<KernelEvent>)
    requires Agrees(p, infoId, es, StageOf(x.worker)) && InRecovery(StageOf(x.worker)) && Step(x, y)
    requires x.worker.Await? ==> y.worker == x.worker || y.worker == Top(x.worker.w)
    requires StageOf(y.worker) != Elsewhere
    ensures Agrees(p, infoId, es, StageOf(y.worker)) && InRecovery(StageOf(y.worker))
  {
    StepKeepsStage(x, y);
    AgreesKept(p, infoId, es, StageOf(x.worker), StageOf(y.worker));
  }

  /**
   In every run, from the moment kernel info was asked for and whatever clients and the clock do
   meanwhile: the loop has given up if and only if some message it heard completed the answer to the
   info request before anything decided the execution; it closes the row if and only if a message
   decided it without that; and otherwise it is still watching.
   */
  lemma GivesUpInRun(run: seq<Exec>, a: nat, b: nat, p: ProofState, infoId: MsgId, es: seq<KernelEvent>)
    requires IsRun(run) && a <= b < |run| && Heard(run, a, b, p, infoId, es)
    ensures StageOf(run[b].worker).GaveUp? <==> GivesUp(p, infoId, es)
    ensures StageOf(run[b].worker).Closes? <==> Decided(p, es) && !GivesUp(p, infoId, es)
    ensures StageOf(run[b].worker).Watching? <==> !Decided(p, es) && !Boundary(es, infoId)
  {
    HeardAgrees(run, a, b, p, infoId, es);
    NotBoth(p, infoId, es);
  }

  /** Every step that stays in the loop is either the hearing of a message or none. */
  lemma HeardGoesOn(run: seq<Exec>, a: nat, b: nat, p: ProofState, infoId: MsgId, es: seq<KernelEvent>) returns (more: seq<KernelEvent>)
    requires IsRun(run) && a < b < |run| && Heard(run, a, b - 1, p, infoId, es) && StageOf(run[b].worker) != Elsewhere
    ensures Heard(run, a, b, p, infoId, more) && es <= more && |more| <= |es| + 1
  {
    StepOfRun(run, b);
    more := es;
    if run[b - 1].worker.Await? && run[b].worker != run[b - 1].worker && run[b].worker != Top(run[b - 1].worker.w) {
      HeardAgrees(run, a, b - 1, p, infoId, es);
      var e := HeardWhat(run[b - 1], run[b]);
      more := es + [e];
      assert more[..|more| - 1] == es;
    }
  }

  lemma HeardWhat(x: Exec, y: Exec) returns (e: KernelEvent)
    requires Step(x, y) && x.worker.Await? && InRecovery(StageOf(x.worker)) && StageOf(y.worker) != Elsewhere
    requires y.worker != x.worker && y.worker != Top(x.worker.w)
    ensures Hears(x, y, e)
  {
    assert ActionStep(x.world, x.worker, y.world, y.worker);
    e :| y.world == Watched(x.world, x.worker.w, e) && y.worker == OnEvent(x.worker.w, e);
  }

  /** Reconnecting gives up exactly when the session is gone, or is not the one recorded at dispatch. */
  lemma ReconnectGivesUp(r: Record, found: Option<Identity>, infoId: MsgId)
    ensures OnReconnect(r, found, infoId) == GiveUp
            <==> || found.None? || found.value != r.identity || r.messageId.None?
                 || r.identity.endpoint.None? || r.identity.kernel.None? || r.identity.jupyter.None?
  {
  }

  // ---------------------------------------------------------------- the kernel answers in order

  /** m interleaves s and i; what else it holds neither answers the request nor completes the info request. */
  ghost predicate Interleaves(id: MsgId, infoId: MsgId, s: seq<KernelEvent>, i: seq<KernelEvent>, m: seq<KernelEvent>)
    decreases |m|
  {
    if m == [] then s == [] && i == []
    else
      || (s != [] && m[0] == s[0] && Interleaves(id, infoId, s[1..], i, m[1..]))
      || (i != [] && m[0] == i[0] && Interleaves(id, infoId, s, i[1..], m[1..]))
      || (IsBystander(m[0], id, infoId) && Interleaves(id, infoId, s, i, m[1..]))
  }

  predicate IsBystander(e: KernelEvent, id: MsgId, infoId: MsgId) {
    e.message.parent != Some(id) && !TellsInfo(e, infoId) && !GoesIdle(e, infoId)
  }

  /** The rest of a queue, with the kernel's answer to the info request behind it unless that was read. */
  function Behind(rest: seq<KernelEvent>, answer: KernelEvent, read: bool): seq<KernelEvent> {
    if read then rest else rest + [answer]
  }

  /** The kernel handles its requests one after another: once its answer is read, the queue before it is. */
  predicate InOrder(w: KernelWorker.Watch, infoId: MsgId, s: seq<KernelEvent>, i: seq<KernelEvent>) {
    && w.mode.RecoveryMode? && w.mode.infoId == infoId && w.proof.messageId != infoId
    && I.Pending(w.proof, s, i)
    && (w.mode.info.0 ==> s == []) && (w.mode.info.1 ==> i == [])
  }

  /** Recovery closes the row with a verdict that the rest of the conversation leads to. */
  ghost predicate EndsAsTold(p: ProofState, s: seq<KernelEvent>, i: seq<KernelEvent>, stage: Stage)
    requires p.evidence.status.Some? || I.FirstReply(s).Some?
  {
    exists q :: I.Settles(p, s, i, q) && stage == Closes(Verdict(q))
  }

  lemma NeverBothRead(w: KernelWorker.Watch, infoId: MsgId, s: seq<KernelEvent>, i: seq<KernelEvent>)
    requires InOrder(w, infoId, s, i)
    ensures !(w.mode.info.0 && w.mode.info.1)
  {
  }

  /** The loop after a message that decides nothing and does not complete the answer to the info request. */
  lemma RecoverNext(w: KernelWorker.Watch, m: seq<KernelEvent>)
    requires m != [] && w.mode.RecoveryMode?
    ensures var o := Report(w.proof, m[0]);
            var info := IdleAfter(w.mode.infoId, m[0], w.mode.info);
            Recover(w, m)
            == if o.terminal.Some? then Closes(o.terminal)
               else if info.0 && info.1 then GaveUp
               else Recover(w.(proof := Observed(w.proof, m[0]), mode := RecoveryMode(w.mode.infoId, info)), m[1..])
  {
    StagesAfter(w, m[0]);
  }

  lemma {:induction false} TakesShell(w: KernelWorker.Watch, infoId: MsgId, s: seq<KernelEvent>, i: seq<KernelEvent>,
                                      told: KernelEvent, rested: KernelEvent, m: seq<KernelEvent>)
    requires InOrder(w, infoId, s, i) && TellsInfo(told, infoId) && GoesIdle(rested, infoId)
    requires s != [] && m != [] && m[0] == s[0]
    requires Interleaves(w.proof.messageId, infoId, Behind(s[1..], told, w.mode.info.0), Behind(i, rested, w.mode.info.1), m[1..])
    ensures EndsAsTold(w.proof, s, i, Recover(w, m))
    decreases |m|, 0
  {
    I.ShellStep(w.proof, s, i);
    RecoverNext(w, m);
    var q := Observed(w.proof, m[0]);
    if Verdict(q).None? {
      AnsweredInOrder(w.(proof := q), infoId, s[1..], i, told, rested, m[1..]);
    }
  }

  lemma {:induction false} TakesIopub(w: KernelWorker.Watch, infoId: MsgId, s: seq<KernelEvent>, i: seq<KernelEvent>,
                                      told: KernelEvent, rested: KernelEvent, m: seq<KernelEvent>)
    requires InOrder(w, infoId, s, i) && TellsInfo(told, infoId) && GoesIdle(rested, infoId)
    requires i != [] && m != [] && m[0] == i[0]
    requires Interleaves(w.proof.messageId, infoId, Behind(s, told, w.mode.info.0), Behind(i[1..], rested, w.mode.info.1), m[1..])
    ensures EndsAsTold(w.proof, s, i, Recover(w, m))
    decreases |m|, 0
  {
    I.IopubStep(w.proof, s, i);
    RecoverNext(w, m);
    var q := Observed(w.proof, m[0]);
    if Verdict(q).None? {
      AnsweredInOrder(w.(proof := q), infoId, s, i[1..], told, rested, m[1..]);
    }
  }

  /** One of the two answers to the info request, or a message that is nobody's. */
  lemma {:induction false} TakesOther(w: KernelWorker.Watch, infoId: MsgId, s: seq<KernelEvent>, i: seq<KernelEvent>,
                                      told: KernelEvent, rested: KernelEvent, m: seq<KernelEvent>, info: (bool, bool))
    requires InOrder(w, infoId, s, i) && TellsInfo(told, infoId) && GoesIdle(rested, infoId)
    requires m != [] && m[0].message.parent != Some(w.proof.messageId)
    requires info == (w.mode.info.0 || TellsInfo(m[0], infoId), w.mode.info.1 || GoesIdle(m[0], infoId))
    requires (info.0 ==> s == []) && (info.1 ==> i == [])
    requires Interleaves(w.proof.messageId, infoId, Behind(s, told, info.0), Behind(i, rested, info.1), m[1..])
    ensures EndsAsTold(w.proof, s, i, Recover(w, m))
    decreases |m|, 0
  {
    FieldsOf(m[0], infoId);
    RecoverNext(w, m);
    var v := w.(mode := RecoveryMode(infoId, info));
    NeverBothRead(v, infoId, s, i);
    AnsweredInOrder(v, infoId, s, i, told, rested, m[1..]);
  }

  lemma {:induction false} AnsweredInOrder(w: KernelWorker.Watch, infoId: MsgId, s: seq<KernelEvent>, i: seq<KernelEvent>,
                                           told: KernelEvent, rested: KernelEvent, m: seq<KernelEvent>)
    requires InOrder(w, infoId, s, i) && TellsInfo(told, infoId) && GoesIdle(rested, infoId)
    requires Interleaves(w.proof.messageId, infoId, Behind(s, told, w.mode.info.0), Behind(i, rested, w.mode.info.1), m)
    ensures EndsAsTold(w.proof, s, i, Recover(w, m))
    decreases |m|, 1
  {
    var id := w.proof.messageId;
    var shell, iopub := Behind(s, told, w.mode.info.0), Behind(i, rested, w.mode.info.1);
    NeverBothRead(w, infoId, s, i);
    if m == [] {
      assert false;
    } else if shell != [] && m[0] == shell[0] && Interleaves(id, infoId, shell[1..], iopub, m[1..]) {
      if s != [] {
        assert shell[1..] == Behind(s[1..], told, false);
        TakesShell(w, infoId, s, i, told, rested, m);
      } else {
        assert shell == [told] && shell[1..] == [];
        TakesOther(w, infoId, s, i, told, rested, m, (true, w.mode.info.1));
      }
    } else if iopub != [] && m[0] == iopub[0] && Interleaves(id, infoId, shell, iopub[1..], m[1..]) {
      if i != [] {
        assert iopub[1..] == Behind(i[1..], rested, false);
        TakesIopub(w, infoId, s, i, told, rested, m);
      } else {
        assert iopub == [rested] && iopub[1..] == [];
        TakesOther(w, infoId, s, i, told, rested, m, (w.mode.info.0, true));
      }
    } else {
      TakesOther(w, infoId, s, i, told, rested, m, w.mode.info);
    }
  }

  /**
   A kernel that answers its requests in order: however the shell queue, with the info reply behind the
   execution's messages, and the IOPub queue, with the info idle behind them, are interleaved, and
   whatever else comes in between, recovery does not give up. It closes the row as the first reply says,
   and with one of the verdicts the conversation allows; if the two queues do not name different errors,
   with the only one, which is what an uninterrupted watch ends with.
   */
  lemma OrderedAnswersDecide(w: KernelWorker.Watch, id: MsgId, requested: Option<State>, infoId: MsgId, s: seq<KernelEvent>, i: seq<KernelEvent>,
                             told: KernelEvent, rested: KernelEvent, m: seq<KernelEvent>, live: seq<KernelEvent>)
    requires Starts(w, I.Start(id, requested), infoId) && id != infoId && IsRequest(requested)
    requires I.Conversation(id, s, i) && TellsInfo(told, infoId) && GoesIdle(rested, infoId)
    requires Interleaves(id, infoId, s + [told], i + [rested], m)
    ensures Recover(w, m).Closes? && Recover(w, m).to.Some?
    ensures Recover(w, m).to == Some(Finished) <==> I.FirstReply(s).value.status == Known(ReplyOk)
    ensures I.IsMerge(id, s, i, live) && !I.OrderMatters(s, i, requested)
            ==> Recover(w, m).to == Verdict(I.Watch(I.Start(id, requested), [], live).proof)
  {
    AnsweredInOrder(w, infoId, s, i, told, rested, m);
    var q :| I.Settles(w.proof, s, i, q) && Recover(w, m) == Closes(Verdict(q));
    if I.IsMerge(id, s, i, live) && !I.OrderMatters(s, i, requested) {
      I.WatchMerge(I.Start(id, requested), [], s, i, live);
      SettledAlike(w.proof, s, i, q, I.Watch(I.Start(id, requested), [], live).proof);
    }
  }

  /** Where the order does not matter, all ways to settle give one verdict. */
  lemma SettledAlike(p: ProofState, s: seq<KernelEvent>, i: seq<KernelEvent>, q: ProofState, r: ProofState)
    requires I.FirstReply(s).Some? && p.evidence == NoEvidence && IsRequest(p.requested)
    requires I.Settles(p, s, i, q) && I.Settles(p, s, i, r) && !I.OrderMatters(s, i, p.requested)
    ensures Verdict(q) == Verdict(r)
  {
  }
}
