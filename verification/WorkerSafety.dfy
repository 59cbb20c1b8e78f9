/**
 What holds in every reachable state of the machine in KernelWorker: an inductive invariant,
 proved step by step, and the promises that follow from it for every run.
 */
module WorkerSafety {
  import opened Wrappers
  import opened Lifecycle
  import opened KernelProof
  import opened Outputs
  import opened Storage
  import opened KernelWorker

  /** How many execute requests were put on the wire. */
  function Executes(wire: seq<Wire>): nat {
    if wire == [] then 0
    else Executes(wire[..|wire| - 1]) + if wire[|wire| - 1].ExecuteRequest? then 1 else 0
  }

  /** The evidence in a list of committed sightings. */
  function EvidenceIn(hist: seq<Sighting>): Evidence {
    if hist == [] then NoEvidence else Absorb(EvidenceIn(hist[..|hist| - 1]), hist[|hist| - 1].event)
  }

  function EventsOf(hist: seq<Sighting>): seq<KernelEvent> {
    seq(|hist|, i requires 0 <= i < |hist| => hist[i].event)
  }

  /** The sighting answers this execution's request, on the kernel connection it was dispatched to. */
  predicate Answers(r: Record, s: Sighting) {
    r.messageId.Some? && Matches(s.event, r.messageId.value) && s.via == r.identity
  }

  predicate TimeIsUp(w: World) {
    w.rec.timeout.Some? && Reached(w.rec.deadline, w.clock)
  }

  /** An interrupt is only ever requested by a cancel or at a deadline. */
  predicate RequestOk(w: World, requested: Option<State>) {
    || requested.None?
    || (requested == Some(Interrupted) && w.rec.cancelled)
    || (requested == Some(TimedOut) && TimeIsUp(w))
  }

  /** Evidence v justifies ending in state `to`. */
  predicate Justified(w: World, v: Evidence, to: State) {
    match to
    case Finished => v.reply && v.idle && v.status == Some(ReplyOk)
    case Error => v.reply && v.idle && v.status != Some(ReplyOk)
    case Interrupted => v.reply && v.idle && v.status != Some(ReplyOk) && ShowsInterrupt(v) && w.rec.cancelled
    case TimedOut => v.reply && v.idle && v.status != Some(ReplyOk) && ShowsInterrupt(v) && TimeIsUp(w)
    case _ => true
  }

  predicate ReplyHasStatus(v: Evidence) {
    v.reply <==> v.status.Some?
  }

  /** Unless the row is marked incomplete, its output is everything the watched events carried. */
  predicate CaughtUp(w: World, complete: bool, outs: seq<Output>) {
    complete ==> outs == StoredAll(w.watched)
  }

  predicate WorldOk(w: World) {
    && Sound(w.rec)
    && w.rec.evidence == EvidenceIn(w.hist) && ReplyHasStatus(w.rec.evidence)
    && (forall s <- w.hist :: Answers(w.rec, s))
    && Executes(w.wire) <= 1
    && (Executes(w.wire) == 1 ==> w.rec.messageId.Some?)
    && (w.rec.confirmed ==> Executes(w.wire) == 1)
    && (forall m <- w.wire :: m.ExecuteRequest? ==> Some(m.id) == w.rec.messageId && Digest(m.code) == w.rec.sourceDigest)
    && RequestOk(w, w.rec.requested)
    && (Disconnected in w.rec.journal ==> !w.rec.complete)
    && (w.rec.messageId.None? ==> w.rec.outputs == [] && w.watched == [])
    && (w.rec.evidence.reply && w.rec.evidence.idle ==> CaughtUp(w, w.rec.complete, w.rec.outputs))
    && (w.rec.messageId.Some? || !w.rec.state.Interrupted? ==> Justified(w, w.rec.evidence, w.rec.state))
  }

  predicate WatchOk(w: World, v: Evidence, complete: bool, outs: seq<Output>, watch: Watch) {
    && Some(watch.proof.messageId) == w.rec.messageId
    && watch.proof.evidence == v && ReplyHasStatus(v)
    && watch.via == w.rec.identity
    && RequestOk(w, watch.proof.requested)
    && Executes(w.wire) == 1
    && match watch.mode
       case RecoveryMode(_, _) => w.rec.confirmed && !complete
       case LiveMode(deadline) =>
         && !(v.reply && v.idle) && CaughtUp(w, complete, outs)
         && (deadline.Some? ==> w.rec.timeout.Some? && w.rec.deadline.Some? && deadline.value >= w.rec.deadline.value)
  }

  /** A point without pending writes; v, complete and outs are the row's columns when it is reached. */
  predicate PointOk(w: World, v: Evidence, complete: bool, outs: seq<Output>, pc: Pc) {
    match pc
    case Loaded => w.rec.messageId.None?
    case Prepared(code) => w.rec.messageId.None? && Digest(code) == w.rec.sourceDigest
    case ToSend(id, code, via) =>
      && Executes(w.wire) == 0 && v == NoEvidence && outs == [] && w.watched == []
      && w.rec.messageId == Some(id) && w.rec.identity == via && Digest(code) == w.rec.sourceDigest
    case Top(watch) => WatchOk(w, v, complete, outs, watch)
    case Reread(watch) => WatchOk(w, v, complete, outs, watch) && watch.mode.RecoveryMode?
    case Poke(watch) => WatchOk(w, v, complete, outs, watch)
    case Await(watch) => WatchOk(w, v, complete, outs, watch)
    case SendInfo(watch) => WatchOk(w, v, complete, outs, watch)
    case LostMarked => !complete
    case AmbiguousMarked => !complete
    case ForceMarked => !complete
    case Connecting(snapshot) =>
      && w.rec.confirmed && snapshot.confirmed && Executes(w.wire) == 1 && !complete
      && snapshot.messageId == w.rec.messageId && snapshot.identity == w.rec.identity
      && snapshot.evidence == v && ReplyHasStatus(v)
      && RequestOk(w, snapshot.requested)
    case Do(_, _, _, _) => false
    case _ => true
  }

  predicate MoveOk(w: World, v: Evidence, complete: bool, to: State) {
    && !to.Dispatching? && !to.Running? && !to.Queued? && !to.Created?
    && (to.Disconnected? ==> !complete)
    && (Justified(w, v, to) || (to.Interrupted? && w.rec.messageId.None?))
  }

  /** The writes still to be made are justified in order. */
  predicate OpsOk(w: World, v: Evidence, complete: bool, outs: seq<Output>, ops: seq<Op>, seen: Option<Sighting>)
    decreases |ops|
  {
    ops == [] ||
    match ops[0]
    case SaveEvidence(o) =>
      var v' := Recorded(v, o);
      && seen.Some? && Answers(w.rec, seen.value)
      && v' == Absorb(v, seen.value.event) && ReplyHasStatus(v')
      && (v'.reply && v'.idle ==> CaughtUp(w, complete, outs))
      && OpsOk(w, v', complete, outs, ops[1..], seen)
    case Append(output) => w.rec.messageId.Some? && OpsOk(w, v, complete, outs + [output], ops[1..], seen)
                           && !(v.reply && v.idle && complete)
    case MarkIncomplete => OpsOk(w, v, false, outs, ops[1..], seen)
    case Move(to, _) => MoveOk(w, v, complete, to) && OpsOk(w, v, complete, outs, ops[1..], seen)
    case Confirm => Executes(w.wire) == 1 && OpsOk(w, v, complete, outs, ops[1..], seen)
    case RequestTimeout => TimeIsUp(w) && OpsOk(w, v, complete, outs, ops[1..], seen)
    case Begin(_, _) => false
    case RequestCancel => false
    case _ => OpsOk(w, v, complete, outs, ops[1..], seen)
  }

  function EvidenceAfter(v: Evidence, ops: seq<Op>): Evidence
    decreases |ops|
  {
    if ops == [] then v
    else EvidenceAfter(if ops[0].SaveEvidence? then Recorded(v, ops[0].o) else v, ops[1..])
  }

  function OutsAfter(outs: seq<Output>, ops: seq<Op>): seq<Output>
    decreases |ops|
  {
    if ops == [] then outs
    else OutsAfter(if ops[0].Append? then outs + [ops[0].output] else outs, ops[1..])
  }

  function CompleteAfter(complete: bool, ops: seq<Op>): bool {
    complete && MarkIncomplete !in ops
  }

  predicate IsSimple(pc: Pc) {
    pc.Idle? || pc.Failed? || pc.Recovering? || pc.Reconcile?
  }

  predicate PcOk(w: World, pc: Pc) {
    if pc.Do? then
      && OpsOk(w, w.rec.evidence, w.rec.complete, w.rec.outputs, pc.ops, pc.seen)
      && PointOk(w, EvidenceAfter(w.rec.evidence, pc.ops), CompleteAfter(w.rec.complete, pc.ops),
                 OutsAfter(w.rec.outputs, pc.ops), pc.next)
      && IsSimple(pc.onError) && !pc.next.ToSend?
    else PointOk(w, w.rec.evidence, w.rec.complete, w.rec.outputs, pc)
  }

  /** What the controller thread does to live work never rests on evidence. */
  predicate IsForceOp(op: Op) {
    op.FinalizeOutput? || op.MarkIncomplete? || (op.Move? && (op.to.Unknown? || op.to.Disconnected?))
  }

  predicate IsForcePoint(pc: Pc) {
    match pc
    case Idle => true
    case Force => true
    case ForceMarked => true
    case ForceDisconnected => true
    case Do(ops, next, onError, _) =>
      (forall op <- ops :: IsForceOp(op)) && !next.Do? && IsForcePoint(next) && onError == Idle
    case _ => false
  }

  predicate IsBootPoint(pc: Pc) {
    match pc
    case Idle => true
    case Reconcile => true
    case Do(_, next, onError, _) => next == Idle && onError == Reconcile
    case _ => false
  }

  predicate Inv(x: Exec) {
    && WorldOk(x.world)
    && PcOk(x.world, x.worker)
    && PcOk(x.world, x.control)
    && (if x.booting then x.worker == Idle && IsBootPoint(x.control) else IsForcePoint(x.control))
  }

  lemma InitInv(x: Exec)
    requires Init(x)
    ensures Inv(x)
  {
    var session, at, source, hash, key, timeout :| x.world.rec == NewRecord(session, at, source, hash, key, timeout);
    NewRecordSound(session, at, source, hash, key, timeout);
  }

  // ---------------------------------------------------------------- what the other thread may change

  /** The facts a program point rests on survive from w to v. */
  predicate Stable(w: World, v: World) {
    && v.rec.messageId == w.rec.messageId && v.rec.identity == w.rec.identity
    && v.rec.sourceDigest == w.rec.sourceDigest
    && v.wire == w.wire && v.watched == w.watched && v.clock >= w.clock
    && (w.rec.cancelled ==> v.rec.cancelled)
    && (w.rec.confirmed ==> v.rec.confirmed)
    && (!w.rec.complete ==> !v.rec.complete)
    && v.rec.timeout == w.rec.timeout && (w.rec.deadline.Some? ==> v.rec.deadline == w.rec.deadline)
  }

  lemma PointStable(w: World, v: World, e: Evidence, complete: bool, complete': bool, outs: seq<Output>, pc: Pc)
    requires Stable(w, v) && PointOk(w, e, complete, outs, pc) && (complete' ==> complete)
    ensures PointOk(v, e, complete', outs, pc)
  {
  }

  lemma {:induction false} OpsStable(w: World, v: World, e: Evidence, complete: bool, complete': bool, outs: seq<Output>,
                                     ops: seq<Op>, seen: Option<Sighting>)
    requires Stable(w, v) && OpsOk(w, e, complete, outs, ops, seen) && (complete' ==> complete)
    ensures OpsOk(v, e, complete', outs, ops, seen)
    decreases |ops|
  {
    if ops != [] {
      match ops[0]
      case SaveEvidence(o) => OpsStable(w, v, Recorded(e, o), complete, complete', outs, ops[1..], seen);
      case MarkIncomplete => OpsStable(w, v, e, false, false, outs, ops[1..], seen);
      case Append(output) => OpsStable(w, v, e, complete, complete', outs + [output], ops[1..], seen);
      case Begin(_, _) =>
      case RequestCancel =>
      case _ => OpsStable(w, v, e, complete, complete', outs, ops[1..], seen);
    }
  }

  lemma PcStable(w: World, v: World, pc: Pc)
    requires Stable(w, v) && v.rec.evidence == w.rec.evidence && v.rec.outputs == w.rec.outputs && PcOk(w, pc)
    ensures PcOk(v, pc)
  {
    if pc.Do? {
      OpsStable(w, v, w.rec.evidence, w.rec.complete, v.rec.complete, w.rec.outputs, pc.ops, pc.seen);
      PointStable(w, v, EvidenceAfter(w.rec.evidence, pc.ops), CompleteAfter(w.rec.complete, pc.ops),
                  CompleteAfter(v.rec.complete, pc.ops), OutsAfter(w.rec.outputs, pc.ops), pc.next);
    } else {
      PointStable(w, v, w.rec.evidence, w.rec.complete, v.rec.complete, w.rec.outputs, pc);
    }
  }

  /** The controller's program points survive anything that leaves the completeness flag down. */
  lemma {:induction false} ForceOpsStable(w: World, v: World, e: Evidence, e': Evidence, complete: bool, complete': bool,
                                          outs: seq<Output>, outs': seq<Output>, ops: seq<Op>, seen: Option<Sighting>)
    requires OpsOk(w, e, complete, outs, ops, seen) && (complete' ==> complete)
    requires forall op <- ops :: IsForceOp(op)
    ensures OpsOk(v, e', complete', outs', ops, seen)
    decreases |ops|
  {
    if ops != [] {
      assert ops[0] in ops;
      if ops[0].MarkIncomplete? {
        ForceOpsStable(w, v, e, e', false, false, outs, outs', ops[1..], seen);
      } else {
        ForceOpsStable(w, v, e, e', complete, complete', outs, outs', ops[1..], seen);
      }
    }
  }

  lemma ForceStable(w: World, v: World, pc: Pc)
    requires IsForcePoint(pc) && PcOk(w, pc)
    requires !w.rec.complete ==> !v.rec.complete
    ensures PcOk(v, pc)
  {
    if pc.Do? {
      ForceOpsStable(w, v, w.rec.evidence, v.rec.evidence, w.rec.complete, v.rec.complete,
                     w.rec.outputs, v.rec.outputs, pc.ops, pc.seen);
    }
  }

  // ---------------------------------------------------------------- one durable write

  lemma {:induction false} NoExecutes(wire: seq<Wire>)
    requires Executes(wire) == 0
    ensures forall m <- wire :: !m.ExecuteRequest?
  {
    if wire != [] {
      NoExecutes(wire[..|wire| - 1]);
      assert forall m :: m in wire <==> m in wire[..|wire| - 1] || m == wire[|wire| - 1];
    }
  }

  lemma Sighted(hist: seq<Sighting>, s: Sighting)
    ensures EvidenceIn(hist + [s]) == Absorb(EvidenceIn(hist), s.event)
  {
    assert (hist + [s])[..|hist|] == hist;
  }

  /** Moves and confirmation change the state, and with it the journal. */
  lemma EnteringKeepsWorld(w: World, op: Op, seen: Option<Sighting>)
    requires WorldOk(w) && (op.Move? || op.Confirm?)
    requires OpsOk(w, w.rec.evidence, w.rec.complete, w.rec.outputs, [op], seen)
    requires Apply(op, w.rec, w.clock).Ok? && Sound(Apply(op, w.rec, w.clock).value)
    ensures WorldOk(Committed(w, op, Apply(op, w.rec, w.clock).value, seen))
  {
    var r := Apply(op, w.rec, w.clock).value;
    var v := Committed(w, op, r, seen);
    if op.Move? {
      assert Disconnected in r.journal <==> Disconnected in w.rec.journal || op.to == Disconnected;
      assert Justified(w, w.rec.evidence, op.to) ==> Justified(v, w.rec.evidence, op.to);
    } else {
      assert Disconnected in r.journal <==> Disconnected in w.rec.journal;
    }
  }

  lemma SavingKeepsWorld(w: World, op: Op, seen: Option<Sighting>)
    requires WorldOk(w) && op.SaveEvidence?
    requires OpsOk(w, w.rec.evidence, w.rec.complete, w.rec.outputs, [op], seen)
    requires Apply(op, w.rec, w.clock).Ok? && Sound(Apply(op, w.rec, w.clock).value)
    ensures WorldOk(Committed(w, op, Apply(op, w.rec, w.clock).value, seen))
  {
    Sighted(w.hist, seen.value);
  }

  lemma CommitKeepsWorld(w: World, op: Op, seen: Option<Sighting>)
    requires WorldOk(w)
    requires OpsOk(w, w.rec.evidence, w.rec.complete, w.rec.outputs, [op], seen)
    requires Apply(op, w.rec, w.clock).Ok?
    ensures WorldOk(Committed(w, op, Apply(op, w.rec, w.clock).value, seen))
  {
    var r := Apply(op, w.rec, w.clock).value;
    var v := Committed(w, op, r, seen);
    ApplyKeepsSound(op, w.rec, w.clock);
    if op.SaveEvidence? {
      SavingKeepsWorld(w, op, seen);
    } else if op.Move? || op.Confirm? {
      EnteringKeepsWorld(w, op, seen);
    } else {
      assert Justified(w, w.rec.evidence, w.rec.state) ==> Justified(v, w.rec.evidence, w.rec.state);
    }
  }

  lemma CommitIsStable(w: World, op: Op, seen: Option<Sighting>)
    requires WorldOk(w)
    requires OpsOk(w, w.rec.evidence, w.rec.complete, w.rec.outputs, [op], seen)
    requires Apply(op, w.rec, w.clock).Ok?
    ensures var v := Committed(w, op, Apply(op, w.rec, w.clock).value, seen);
            && Stable(w, v)
            && v.rec.evidence == (if op.SaveEvidence? then Recorded(w.rec.evidence, op.o) else w.rec.evidence)
            && v.rec.complete == (w.rec.complete && op != MarkIncomplete)
            && v.rec.outputs == (if op.Append? then w.rec.outputs + [op.output] else w.rec.outputs)
  {
  }

  /** The first write goes through: what was promised for the rest still holds. */
  lemma WriteOk(w: World, op: Op, rest: seq<Op>, seen: Option<Sighting>)
    requires WorldOk(w)
    requires OpsOk(w, w.rec.evidence, w.rec.complete, w.rec.outputs, [op] + rest, seen)
    requires Apply(op, w.rec, w.clock).Ok?
    ensures var v := Committed(w, op, Apply(op, w.rec, w.clock).value, seen);
            && WorldOk(v) && Stable(w, v)
            && OpsOk(v, v.rec.evidence, v.rec.complete, v.rec.outputs, rest, seen)
            && EvidenceAfter(v.rec.evidence, rest) == EvidenceAfter(w.rec.evidence, [op] + rest)
            && CompleteAfter(v.rec.complete, rest) == CompleteAfter(w.rec.complete, [op] + rest)
            && OutsAfter(v.rec.outputs, rest) == OutsAfter(w.rec.outputs, [op] + rest)
            && (IsForceOp(op) ==> v.rec.evidence == w.rec.evidence && v.rec.outputs == w.rec.outputs)
            && (!w.rec.complete ==> !v.rec.complete)
  {
    var ops := [op] + rest;
    assert ops[0] == op && ops[1..] == rest && [op][0] == op && [op][1..] == [];
    assert OpsOk(w, w.rec.evidence, w.rec.complete, w.rec.outputs, [op], seen);
    CommitKeepsWorld(w, op, seen);
    CommitIsStable(w, op, seen);
    var v := Committed(w, op, Apply(op, w.rec, w.clock).value, seen);
    assert OpsOk(w, v.rec.evidence, v.rec.complete, v.rec.outputs, rest, seen);
    OpsStable(w, v, v.rec.evidence, v.rec.complete, v.rec.complete, v.rec.outputs, rest, seen);
  }

  lemma DoStepOk(w: World, pc: Pc, v: World, q: Pc)
    requires WorldOk(w) && pc.Do? && PcOk(w, pc) && DoStep(w, pc, v, q)
    ensures WorldOk(v) && PcOk(v, q)
    ensures !w.rec.complete ==> !v.rec.complete
    ensures (forall op <- pc.ops :: IsForceOp(op)) ==>
              Stable(w, v) && v.rec.evidence == w.rec.evidence && v.rec.outputs == w.rec.outputs
  {
    if pc.ops != [] && Apply(pc.ops[0], w.rec, w.clock).Ok? {
      var op, rest := pc.ops[0], pc.ops[1..];
      assert pc.ops == [op] + rest && op in pc.ops;
      WriteOk(w, op, rest, pc.seen);
      PointStable(w, v, EvidenceAfter(w.rec.evidence, pc.ops), CompleteAfter(w.rec.complete, pc.ops),
                  CompleteAfter(v.rec.complete, rest), OutsAfter(w.rec.outputs, pc.ops), pc.next);
      NextOk(w, pc, v, q);
    }
  }

  /** The point reached after the writes, with the deadline armed if the first write confirmed the dispatch. */
  lemma NextOk(w: World, pc: Pc, v: World, q: Pc)
    requires WorldOk(w) && pc.Do? && pc.ops != [] && DoStep(w, pc, v, q) && Apply(pc.ops[0], w.rec, w.clock).Ok?
    requires PointOk(v, EvidenceAfter(w.rec.evidence, pc.ops), CompleteAfter(w.rec.complete, pc.ops), OutsAfter(w.rec.outputs, pc.ops), pc.next)
    ensures PointOk(v, EvidenceAfter(w.rec.evidence, pc.ops), CompleteAfter(w.rec.complete, pc.ops), OutsAfter(w.rec.outputs, pc.ops), q.next)
    ensures q.next.ToSend? ==> pc.next.ToSend?
  {
    if pc.ops[0] == Confirm && q.next != pc.next {
      assert q.next.Top? && pc.next.Top?;
    }
  }

  // ---------------------------------------------------------------- lists of writes

  lemma {:induction false} AfterAppend(v: Evidence, complete: bool, outs: seq<Output>, xs: seq<Op>, ys: seq<Op>)
    ensures EvidenceAfter(v, xs + ys) == EvidenceAfter(EvidenceAfter(v, xs), ys)
    ensures CompleteAfter(complete, xs + ys) == CompleteAfter(CompleteAfter(complete, xs), ys)
    ensures OutsAfter(outs, xs + ys) == OutsAfter(OutsAfter(outs, xs), ys)
    decreases |xs|
  {
    if xs == [] {
      assert xs + ys == ys;
    } else {
      assert (xs + ys)[1..] == xs[1..] + ys;
      AfterAppend(if xs[0].SaveEvidence? then Recorded(v, xs[0].o) else v, complete,
                  if xs[0].Append? then outs + [xs[0].output] else outs, xs[1..], ys);
    }
  }

  lemma {:induction false} OpsConcat(w: World, v: Evidence, complete: bool, outs: seq<Output>, xs: seq<Op>, ys: seq<Op>, seen: Option<Sighting>)
    requires OpsOk(w, v, complete, outs, xs, seen)
    requires OpsOk(w, EvidenceAfter(v, xs), CompleteAfter(complete, xs), OutsAfter(outs, xs), ys, seen)
    ensures OpsOk(w, v, complete, outs, xs + ys, seen)
    decreases |xs|
  {
    if xs == [] {
      assert xs + ys == ys;
    } else {
      var op, rest := xs[0], xs[1..];
      assert (xs + ys)[0] == op && (xs + ys)[1..] == rest + ys;
      match op
      case SaveEvidence(o) => OpsConcat(w, Recorded(v, o), complete, outs, rest, ys, seen);
      case MarkIncomplete =>
        assert CompleteAfter(complete, xs) == CompleteAfter(false, rest);
        OpsConcat(w, v, false, outs, rest, ys, seen);
      case Append(output) => OpsConcat(w, v, complete, outs + [output], rest, ys, seen);
      case Begin(_, _) =>
      case RequestCancel =>
      case _ => OpsConcat(w, v, complete, outs, rest, ys, seen);
    }
  }

  lemma OpsAppend(w: World, v: Evidence, complete: bool, outs: seq<Output>, xs: seq<Op>, ys: seq<Op>, seen: Option<Sighting>)
    requires OpsOk(w, v, complete, outs, xs, seen)
    requires OpsOk(w, EvidenceAfter(v, xs), CompleteAfter(complete, xs), OutsAfter(outs, xs), ys, seen)
    ensures OpsOk(w, v, complete, outs, xs + ys, seen)
    ensures EvidenceAfter(v, xs + ys) == EvidenceAfter(EvidenceAfter(v, xs), ys)
    ensures CompleteAfter(complete, xs + ys) == CompleteAfter(CompleteAfter(complete, xs), ys)
    ensures OutsAfter(outs, xs + ys) == OutsAfter(OutsAfter(outs, xs), ys)
  {
    AfterAppend(v, complete, outs, xs, ys);
    OpsConcat(w, v, complete, outs, xs, ys, seen);
  }

  /** ops leaves the columns an observation loop rests on unchanged. */
  predicate Keeps(v: Evidence, outs: seq<Output>, ops: seq<Op>) {
    EvidenceAfter(v, ops) == v && OutsAfter(outs, ops) == outs
  }

  lemma ClosingOk(w: World, v: Evidence, complete: bool, outs: seq<Output>, to: State, source: Option<CompletionSource>, seen: Option<Sighting>)
    requires MoveOk(w, v, complete, to)
    ensures OpsOk(w, v, complete, outs, Closing(to, source), seen)
    ensures Keeps(v, outs, Closing(to, source))
  {
    assert Closing(to, source)[1..] == [Move(to, source)];
    OneOk(w, v, complete, outs, Move(to, source), seen);
    assert Keeps(v, outs, [Move(to, source)]);
  }

  lemma MarkThenOk(w: World, v: Evidence, complete: bool, outs: seq<Output>, rest: seq<Op>, seen: Option<Sighting>)
    requires OpsOk(w, v, false, outs, rest, seen)
    ensures OpsOk(w, v, complete, outs, [MarkIncomplete] + rest, seen)
    ensures EvidenceAfter(v, [MarkIncomplete] + rest) == EvidenceAfter(v, rest)
    ensures OutsAfter(outs, [MarkIncomplete] + rest) == OutsAfter(outs, rest)
    ensures !CompleteAfter(complete, [MarkIncomplete] + rest)
  {
    assert ([MarkIncomplete] + rest)[1..] == rest;
  }

  lemma OneOk(w: World, v: Evidence, complete: bool, outs: seq<Output>, op: Op, seen: Option<Sighting>)
    requires op.Move? ==> MoveOk(w, v, complete, op.to)
    requires op.RequestTimeout? ==> TimeIsUp(w)
    requires op.Confirm? ==> Executes(w.wire) == 1
    requires op.Append? ==> w.rec.messageId.Some? && !(v.reply && v.idle && complete)
    requires op.SaveEvidence? ==>
               && seen.Some? && Answers(w.rec, seen.value)
               && Recorded(v, op.o) == Absorb(v, seen.value.event) && ReplyHasStatus(Recorded(v, op.o))
               && CaughtUp(w, complete, outs)
    requires !op.Begin? && !op.RequestCancel?
    ensures OpsOk(w, v, complete, outs, [op], seen)
    ensures EvidenceAfter(v, [op]) == if op.SaveEvidence? then Recorded(v, op.o) else v
    ensures OutsAfter(outs, [op]) == if op.Append? then outs + [op.output] else outs
  {
    assert [op][1..] == [];
  }

  lemma NoneOk(w: World, v: Evidence, complete: bool, outs: seq<Output>, seen: Option<Sighting>)
    ensures OpsOk(w, v, complete, outs, [], seen) && Keeps(v, outs, []) && CompleteAfter(complete, []) == complete
  {
  }

  // ---------------------------------------------------------------- one event

  lemma WatchedOk(w: World, watch: Watch, e: KernelEvent)
    requires WorldOk(w) && WatchOk(w, w.rec.evidence, w.rec.complete, w.rec.outputs, watch)
    ensures WorldOk(Watched(w, watch, e))
    ensures Matches(e, watch.proof.messageId) ==> StoredAll(Watched(w, watch, e).watched) == StoredAll(w.watched) + Stored(e)
  {
    StoredAllAppend(w.watched, [e]);
    assert StoredAll([e]) == Stored(e);
    var v := Watched(w, watch, e);
    assert Justified(w, w.rec.evidence, w.rec.state) == Justified(v, w.rec.evidence, w.rec.state);
  }

  lemma EventWritesOk(w: World, watch: Watch, e: KernelEvent)
    requires WorldOk(w) && WatchOk(w, w.rec.evidence, w.rec.complete, w.rec.outputs, watch)
    requires Matches(e, watch.proof.messageId)
    ensures var ops, v := EventWrites(watch, e), Watched(w, watch, e);
            && OpsOk(v, w.rec.evidence, w.rec.complete, w.rec.outputs, ops, Some(Sighting(e, watch.via)))
            && EvidenceAfter(w.rec.evidence, ops) == Observed(watch.proof, e).evidence
            && CompleteAfter(w.rec.complete, ops) == w.rec.complete
            && CaughtUp(v, w.rec.complete, OutsAfter(w.rec.outputs, ops))
  {
    var v, complete, outs, seen := w.rec.evidence, w.rec.complete, w.rec.outputs, Some(Sighting(e, watch.via));
    var world := Watched(w, watch, e);
    var o := Report(watch.proof, e);
    SavedTracks(watch.proof, e);
    WatchedOk(w, watch, e);
    var confirm := if watch.mode.LiveMode? && o.confirm then [Confirm] else [];
    var append := if Normalize(e).Some? then [Append(Normalize(e).value)] else [];
    var save := if CarriesEvidence(o) then [SaveEvidence(o)] else [];
    NoneOk(world, v, complete, outs, seen);
    NoneOk(world, v, complete, outs + Stored(e), seen);
    assert outs + [] == outs;
    if confirm != [] { OneOk(world, v, complete, outs, Confirm, seen); }
    if append != [] { OneOk(world, v, complete, outs, append[0], seen); }
    if save != [] { OneOk(world, v, complete, outs + Stored(e), SaveEvidence(o), seen); }
    OpsAppend(world, v, complete, outs, confirm, append, seen);
    OpsAppend(world, v, complete, outs, confirm + append, save, seen);
  }

  lemma EventClosingOk(w: World, watch: Watch, e: KernelEvent, complete: bool, outs: seq<Output>, seen: Option<Sighting>)
    requires WorldOk(w) && WatchOk(w, w.rec.evidence, w.rec.complete, w.rec.outputs, watch)
    requires Matches(e, watch.proof.messageId)
    ensures var v := Observed(watch.proof, e).evidence;
            OpsOk(Watched(w, watch, e), v, complete, outs, EventClosing(watch, e), seen) && Keeps(v, outs, EventClosing(watch, e))
  {
    var o := Report(watch.proof, e);
    SavedTracks(watch.proof, e);
    if o.terminal.Some? {
      ClosingOk(Watched(w, watch, e), Observed(watch.proof, e).evidence, complete, outs, o.terminal.value,
                Some(if watch.mode.LiveMode? then Live else Recovery), seen);
    }
  }

  lemma EventNextOk(w: World, watch: Watch, e: KernelEvent, outs: seq<Output>)
    requires WorldOk(w) && WatchOk(w, w.rec.evidence, w.rec.complete, w.rec.outputs, watch)
    requires CaughtUp(Watched(w, watch, e), w.rec.complete, outs) || watch.mode.RecoveryMode?
    ensures PointOk(Watched(w, watch, e), Observed(watch.proof, e).evidence, w.rec.complete, outs, EventNext(watch, e))
  {
    SavedTracks(watch.proof, e);
  }

  lemma OnEventOk(w: World, watch: Watch, e: KernelEvent)
    requires WorldOk(w) && WatchOk(w, w.rec.evidence, w.rec.complete, w.rec.outputs, watch)
    ensures PcOk(Watched(w, watch, e), OnEvent(watch, e))
  {
    if Matches(e, watch.proof.messageId) {
      var ops, close, seen := EventWrites(watch, e), EventClosing(watch, e), Some(Sighting(e, watch.via));
      EventWritesOk(w, watch, e);
      EventClosingOk(w, watch, e, w.rec.complete, OutsAfter(w.rec.outputs, ops), seen);
      OpsAppend(Watched(w, watch, e), w.rec.evidence, w.rec.complete, w.rec.outputs, ops, close, seen);
      EventNextOk(w, watch, e, OutsAfter(w.rec.outputs, ops));
      assert CompleteAfter(w.rec.complete, ops + close) == w.rec.complete;
    } else {
      EventNextOk(w, watch, e, w.rec.outputs);
    }
  }

  // ---------------------------------------------------------------- decisions

  lemma UndispatchedOk(w: World)
    requires WorldOk(w) && w.rec.messageId.None?
    ensures OpsOk(w, w.rec.evidence, w.rec.complete, w.rec.outputs, Closing(Interrupted, Some(Live)), None)
    ensures Keeps(w.rec.evidence, w.rec.outputs, Closing(Interrupted, Some(Live)))
  {
    ClosingOk(w, w.rec.evidence, w.rec.complete, w.rec.outputs, Interrupted, Some(Live), None);
  }

  lemma RequestedOk(w: World, watch: Watch, target: State)
    requires WatchOk(w, w.rec.evidence, w.rec.complete, w.rec.outputs, watch) && RequestOk(w, Some(target))
    ensures WatchOk(w, w.rec.evidence, w.rec.complete, w.rec.outputs, Interrupting(watch, target))
  {
  }

  /** [MarkIncomplete] followed by a point or a move that needs the flag down. */
  lemma MarkOk(w: World)
    ensures var v, complete, outs := w.rec.evidence, w.rec.complete, w.rec.outputs;
            && OpsOk(w, v, complete, outs, [MarkIncomplete], None)
            && Keeps(v, outs, [MarkIncomplete])
            && !CompleteAfter(complete, [MarkIncomplete])
            && OpsOk(w, v, complete, outs, [MarkIncomplete, Move(Disconnected, None)], None)
            && Keeps(v, outs, [MarkIncomplete, Move(Disconnected, None)])
  {
    var v, complete, outs := w.rec.evidence, w.rec.complete, w.rec.outputs;
    OneOk(w, v, complete, outs, MarkIncomplete, None);
    OneOk(w, v, false, outs, Move(Disconnected, None), None);
    MarkThenOk(w, v, complete, outs, [Move(Disconnected, None)], None);
    assert [MarkIncomplete] + [Move(Disconnected, None)] == [MarkIncomplete, Move(Disconnected, None)];
  }

  lemma UnknownOk(w: World, source: Option<CompletionSource>)
    ensures var v, complete, outs := w.rec.evidence, w.rec.complete, w.rec.outputs;
            && OpsOk(w, v, complete, outs, Closing(Unknown, source), None)
            && Keeps(v, outs, Closing(Unknown, source))
            && OpsOk(w, v, complete, outs, [MarkIncomplete] + Closing(Unknown, source), None)
            && Keeps(v, outs, [MarkIncomplete] + Closing(Unknown, source))
  {
    var v, complete, outs := w.rec.evidence, w.rec.complete, w.rec.outputs;
    ClosingOk(w, v, complete, outs, Unknown, source, None);
    ClosingOk(w, v, false, outs, Unknown, source, None);
    MarkThenOk(w, v, complete, outs, Closing(Unknown, source), None);
  }

  lemma FailureOk(w: World)
    requires WorldOk(w)
    ensures PcOk(w, OnFailure(w.rec.state))
  {
    match w.rec.state
    case Queued => NeverDispatched(w.rec); UndispatchedOk(w);
    case Running => MarkOk(w);
    case _ => UnknownOk(w, Some(Live));
  }

  lemma DisconnectOk(w: World, next: Pc)
    requires !w.rec.complete && !next.Do? && !next.ToSend? && PointOk(w, w.rec.evidence, false, w.rec.outputs, next)
    ensures PcOk(w, MoveIf(w.rec, Running, Disconnected, next))
  {
    OneOk(w, w.rec.evidence, w.rec.complete, w.rec.outputs, Move(Disconnected, None), None);
  }

  lemma CloseUnknownOk(w: World, condition: bool, source: Option<CompletionSource>, next: Pc, onError: Pc)
    requires (next.Idle? || next.AfterLost?) && IsSimple(onError)
    ensures PcOk(w, CloseIf(condition, Unknown, source, next, onError))
  {
    UnknownOk(w, source);
  }

  lemma DecisionOk(w: World, pc: Pc)
    requires WorldOk(w) && PcOk(w, pc)
    requires Decision(w.rec, w.clock, pc).Some?
    ensures PcOk(w, Decision(w.rec, w.clock, pc).value)
  {
    if pc.SendFailed? || pc.Top? || pc.Reread? {
      HeadOk(w, pc);
    } else if pc.Lost? || pc.LostMarked? || pc.AmbiguousMarked? || pc.AmbiguousDisconnected? {
      LossOk(w, pc);
    } else {
      HandlerOk(w, pc);
    }
  }

  /** _dispatch_failed and the loop heads */
  lemma HeadOk(w: World, pc: Pc)
    requires WorldOk(w) && PcOk(w, pc)
    requires pc.SendFailed? || pc.Top? || pc.Reread?
    ensures PcOk(w, Decision(w.rec, w.clock, pc).value)
  {
    match pc
    case SendFailed =>
      if w.rec.state == Queued { NeverDispatched(w.rec); UndispatchedOk(w); }
      CloseUnknownOk(w, w.rec.state == Dispatching, Some(Live), Idle, Failed);
    case Top(watch) => TopOk(w, watch);
    case Reread(watch) =>
      if w.rec.requested.Some? { RequestedOk(w, watch, w.rec.requested.value); }
  }

  /** _connection_lost and _ambiguous_interrupt */
  lemma LossOk(w: World, pc: Pc)
    requires WorldOk(w) && PcOk(w, pc)
    requires pc.Lost? || pc.LostMarked? || pc.AmbiguousMarked? || pc.AmbiguousDisconnected?
    ensures PcOk(w, Decision(w.rec, w.clock, pc).value)
  {
    match pc
    case Lost(confirmed) =>
      MarkOk(w);
      CloseUnknownOk(w, w.rec.state == Dispatching, Some(Live), AfterLost, Failed);
    case LostMarked => DisconnectOk(w, AfterLost);
    case AmbiguousMarked => DisconnectOk(w, AmbiguousDisconnected);
    case AmbiguousDisconnected => CloseUnknownOk(w, w.rec.state == Disconnected, Some(Live), Idle, Failed);
  }

  predicate IsLoopPoint(pc: Pc) {
    || pc.SendFailed? || pc.Top? || pc.Reread?
    || pc.Lost? || pc.LostMarked? || pc.AmbiguousMarked? || pc.AmbiguousDisconnected?
  }

  /** The points of recovery, failure handling, reconciliation and forced stops. */
  lemma HandlerOk(w: World, pc: Pc)
    requires WorldOk(w) && PcOk(w, pc) && !IsLoopPoint(pc)
    requires Decision(w.rec, w.clock, pc).Some?
    ensures PcOk(w, Decision(w.rec, w.clock, pc).value)
  {
    match pc
    case GiveUp => UnknownOk(w, Some(Recovery));
    case Failed => FailureOk(w);
    case FailedDisconnected => CloseUnknownOk(w, w.rec.state == Disconnected, Some(Live), Idle, Idle);
    case Reconcile => ReconcileOk(w);
    case Force => MarkOk(w);
    case ForceMarked => OneOk(w, w.rec.evidence, w.rec.complete, w.rec.outputs, Move(Disconnected, None), None);
    case ForceDisconnected => CloseUnknownOk(w, w.rec.state == Dispatching || w.rec.state == Disconnected, None, Idle, Idle);
    case _ =>
  }

  lemma TopOk(w: World, watch: Watch)
    requires WorldOk(w) && WatchOk(w, w.rec.evidence, w.rec.complete, w.rec.outputs, watch)
    ensures PcOk(w, AtTop(w.rec, w.clock, watch))
  {
    if w.rec.requested.Some? {
      RequestedOk(w, watch, w.rec.requested.value);
    }
    if TimeIsUp(w) {
      RequestedOk(w, watch, TimedOut);
      OneOk(w, w.rec.evidence, w.rec.complete, w.rec.outputs, RequestTimeout, None);
    }
  }

  lemma ReconcileOk(w: World)
    requires WorldOk(w)
    ensures PcOk(w, OnReconcile(w.rec))
  {
    MarkOk(w);
    UnknownOk(w, Some(Recovery));
    var verdict := RestartVerdict(w.rec.evidence, w.rec.requested);
    if verdict.Some? {
      ClosingOk(w, w.rec.evidence, w.rec.complete, w.rec.outputs, verdict.value, Some(DurableEvidence), None);
    }
  }

  // ---------------------------------------------------------------- every step

  lemma Sent(w: World, id: MsgId, code: Bytes, via: Identity, v: World)
    requires WorldOk(w) && PcOk(w, ToSend(id, code, via))
    requires v == w.(wire := w.wire + [ExecuteRequest(id, code)])
    ensures WorldOk(v) && PcOk(v, Top(Watch(Fresh(id), false, LiveMode(None), via)))
  {
    assert v.wire[..|w.wire|] == w.wire;
    assert forall m :: m in v.wire <==> m in w.wire || m == ExecuteRequest(id, code);
    assert Justified(v, v.rec.evidence, v.rec.state) == Justified(w, w.rec.evidence, w.rec.state);
  }

  lemma Asked(w: World, watch: Watch, id: MsgId, v: World)
    requires WorldOk(w) && PcOk(w, SendInfo(watch))
    requires v == w.(wire := w.wire + [KernelInfoRequest(id)])
    ensures WorldOk(v) && PcOk(v, Top(watch))
  {
    assert v.wire[..|w.wire|] == w.wire;
    assert forall m :: m in v.wire <==> m in w.wire || m == KernelInfoRequest(id);
    assert Justified(v, v.rec.evidence, v.rec.state) == Justified(w, w.rec.evidence, w.rec.state);
  }

  lemma SightedWasBegun(hist: seq<Sighting>, r: Record)
    requires hist != [] && forall s <- hist :: Answers(r, s)
    ensures r.messageId.Some?
  {
    assert hist[0] in hist;
  }

  lemma Begun(w: World, code: Bytes, id: MsgId, via: Identity, v: World)
    requires WorldOk(w) && PcOk(w, Prepared(code))
    requires Apply(Begin(id, via), w.rec, w.clock) == Ok(v.rec) && v == w.(rec := v.rec)
    ensures WorldOk(v) && PcOk(v, ToSend(id, code, via))
  {
    ApplyKeepsSound(Begin(id, via), w.rec, w.clock);
    NoExecutes(w.wire);
    if w.hist != [] {
      SightedWasBegun(w.hist, w.rec);
    }
    assert Disconnected in v.rec.journal <==> Disconnected in w.rec.journal;
  }

  lemma ReconnectOk(w: World, snapshot: Record, found: Option<Identity>, infoId: MsgId)
    requires WorldOk(w) && PcOk(w, Connecting(snapshot))
    ensures PcOk(w, OnReconnect(snapshot, found, infoId))
  {
    OneOk(w, w.rec.evidence, w.rec.complete, w.rec.outputs, CountReconnect, None);
    assert CompleteAfter(w.rec.complete, [CountReconnect]) == w.rec.complete;
  }

  lemma SendingOk(w: World, pc: Pc, v: World, q: Pc)
    requires WorldOk(w) && PcOk(w, pc) && ActionStep(w, pc, v, q)
    requires pc.Loaded? || pc.Prepared? || pc.ToSend?
    ensures WorldOk(v) && PcOk(v, q)
  {
    match pc
    case Loaded => UndispatchedOk(w);
    case Prepared(code) =>
      if q.ToSend? { Begun(w, code, q.id, q.via, v); } else { UndispatchedOk(w); }
    case ToSend(id, code, via) => Sent(w, id, code, via, v);
  }

  lemma AwaitOk(w: World, watch: Watch, v: World, q: Pc)
    requires WorldOk(w) && PcOk(w, Await(watch)) && ActionStep(w, Await(watch), v, q)
    ensures WorldOk(v) && PcOk(v, q)
  {
    if e :| v == Watched(w, watch, e) && q == OnEvent(watch, e) {
      WatchedOk(w, watch, e);
      OnEventOk(w, watch, e);
    }
  }

  lemma RecoveryOk(w: World, pc: Pc, v: World, q: Pc)
    requires WorldOk(w) && PcOk(w, pc) && ActionStep(w, pc, v, q)
    requires pc.Connecting? || pc.SendInfo?
    ensures WorldOk(v) && PcOk(v, q)
  {
    match pc
    case Connecting(snapshot) =>
      if found, infoId :| q == OnReconnect(snapshot, found, infoId) { ReconnectOk(w, snapshot, found, infoId); }
    case SendInfo(watch) =>
      if v != w { Asked(w, watch, watch.mode.infoId, v); }
  }

  lemma ActionOk(w: World, pc: Pc, v: World, q: Pc)
    requires WorldOk(w) && PcOk(w, pc) && ActionStep(w, pc, v, q)
    ensures WorldOk(v) && PcOk(v, q)
  {
    if pc.Loaded? || pc.Prepared? || pc.ToSend? {
      SendingOk(w, pc, v, q);
    } else if pc.Await? {
      AwaitOk(w, pc.w, v, q);
    } else if pc.Connecting? || pc.SendInfo? {
      RecoveryOk(w, pc, v, q);
    } else if pc.Do? {
      DoStepOk(w, pc, v, q);
    } else {
      MarkOk(w);
    }
  }

  lemma PcStepOk(w: World, pc: Pc, v: World, q: Pc)
    requires WorldOk(w) && PcOk(w, pc) && PcStep(w, pc, v, q)
    ensures WorldOk(v) && PcOk(v, q)
  {
    if v == w && Decision(w.rec, w.clock, pc) == Some(q) {
      DecisionOk(w, pc);
    } else if ActionStep(w, pc, v, q) {
      ActionOk(w, pc, v, q);
    }
  }
}
