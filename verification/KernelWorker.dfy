/**
 One durable execution, the worker thread that drives it, the controller thread that reconciles
 or force-stops it, and crashes between any two durable writes.

 Durable: the row, and what was put on the wire. Volatile: the program points of both threads.
 A program point names what the thread does next; its local variables are its arguments.
 */
module KernelWorker {
  import opened Wrappers
  import opened Lifecycle
  import opened KernelProof
  import opened Outputs
  import opened Storage

  /** Whose loop is watching: _run_one after its own send, or _recover_one after a kernel-info request. */
  datatype Mode = LiveMode(deadline: Option<nat>) | RecoveryMode(infoId: MsgId, info: (bool, bool))

  /** Locals of an observation loop; via is what the connection was identified as. */
  datatype Watch = Watch(proof: ProofState, interruptSent: bool, mode: Mode, via: Identity)

  /** An event together with the connection it was observed on. */
  datatype Sighting = Sighting(event: KernelEvent, via: Identity)

  datatype Wire = ExecuteRequest(id: MsgId, code: Bytes) | KernelInfoRequest(id: MsgId)

  datatype Pc =
    | Idle
    // _run_one
    | Loaded
    | Prepared(code: Bytes)
    | ToSend(id: MsgId, code: Bytes, via: Identity)
    | SendFailed
    // both observation loops
    | Top(w: Watch)
    | Reread(w: Watch)
    | Poke(w: Watch)
    | Await(w: Watch)
    // _connection_lost
    | Lost(confirmed: bool)
    | LostMarked
    | AfterLost
    // _ambiguous_interrupt
    | AmbiguousMarked
    | AmbiguousDisconnected
    // _recover_one
    | Recovering
    | Connecting(snapshot: Record)
    | SendInfo(w: Watch)
    | GiveUp
    // _internal_failure
    | Failed
    | FailedDisconnected
    // reconcile_after_restart and force_uncertain_active
    | Reconcile
    | Force
    | ForceMarked
    | ForceDisconnected
    // durable writes still to be made, where to go on, and where an exception leads
    | Do(ops: seq<Op>, next: Pc, onError: Pc, seen: Option<Sighting>)

  /**
   What survives a crash: the row. Beside it, a log of what happened: the messages put on the
   wire, the sightings whose evidence was committed, and every matching event ever watched.
   */
  datatype World = World(rec: Record, wire: seq<Wire>, hist: seq<Sighting>, watched: seq<KernelEvent>, clock: nat)

  datatype Exec = Exec(world: World, worker: Pc, control: Pc, booting: bool)

  function Closing(to: State, source: Option<CompletionSource>): seq<Op> {
    [FinalizeOutput, Move(to, source)]
  }

  /** Where a loop goes on after an event. */
  function EventNext(w: Watch, e: KernelEvent): Pc {
    var o := Report(w.proof, e);
    var live := w.mode.LiveMode?;
    var mode := if live then w.mode else RecoveryMode(w.mode.infoId, IdleAfter(w.mode.infoId, e, w.mode.info));
    if o.terminal.Some? then Idle
    else if !live && mode.info.0 && mode.info.1 then GiveUp
    else Top(w.(proof := Observed(w.proof, e), mode := mode))
  }

  /** What a matching event is recorded as. */
  function EventWrites(w: Watch, e: KernelEvent): seq<Op> {
    var o := Report(w.proof, e);
    (if w.mode.LiveMode? && o.confirm then [Confirm] else [])
    + (if Normalize(e).Some? then [Append(Normalize(e).value)] else [])
    + (if CarriesEvidence(o) then [SaveEvidence(o)] else [])
  }

  function EventClosing(w: Watch, e: KernelEvent): seq<Op> {
    var o := Report(w.proof, e);
    if o.terminal.Some? then Closing(o.terminal.value, Some(if w.mode.LiveMode? then Live else Recovery)) else []
  }

  /** One event in either loop. */
  function OnEvent(w: Watch, e: KernelEvent): Pc {
    if !Matches(e, w.proof.messageId) then EventNext(w, e)
    else Do(EventWrites(w, e) + EventClosing(w, e), EventNext(w, e), Failed, Some(Sighting(e, w.via)))
  }

  function Interrupting(w: Watch, target: State): Watch {
    w.(proof := Requesting(w.proof, target), interruptSent := true)
  }

  predicate Reached(deadline: Option<nat>, clock: nat) {
    deadline.Some? && clock >= deadline.value
  }

  /** The head of either observation loop. */
  function AtTop(r: Record, clock: nat, w: Watch): Pc {
    match w.mode
    case LiveMode(deadline) =>
      if IsTerminal(r.state) then Idle
      else if r.requested.Some? && !w.interruptSent then Poke(Interrupting(w, r.requested.value))
      else if Reached(deadline, clock) && !w.interruptSent then
        Do([RequestTimeout], Poke(Interrupting(w, TimedOut)), Failed, None)
      else Await(w)
    case RecoveryMode(_, _) =>
      if r.state != Disconnected then Idle
      else if r.requested.None? && Reached(r.deadline, clock) then Do([RequestTimeout], Reread(w), Failed, None)
      else AtReread(r, w)
  }

  function AtReread(r: Record, w: Watch): Pc {
    if r.requested.Some? && !w.interruptSent then Poke(Interrupting(w, r.requested.value)) else Await(w)
  }

  /** _recover_one after it looked up the session and connected; None when the session is gone. */
  function OnReconnect(r: Record, found: Option<Identity>, infoId: MsgId): Pc {
    if found.None? || r.identity.endpoint.None? || found.value.endpoint != r.identity.endpoint then GiveUp
    else if r.identity.kernel.None? || r.identity.jupyter.None? || found.value != r.identity || r.messageId.None? then GiveUp
    else
      var proof := Restored(r.messageId.value, r.confirmed, r.evidence, r.errorValue, r.requested);
      Do([CountReconnect], SendInfo(Watch(proof, false, RecoveryMode(infoId, (false, false)), found.value)), Recovering, None)
  }

  /** _internal_failure */
  function OnFailure(s: State): Pc {
    match s
    case Queued => Do(Closing(Interrupted, Some(Live)), Idle, Idle, None)
    case Dispatching => Do(Closing(Unknown, Some(Live)), Idle, Idle, None)
    case Running => Do([MarkIncomplete, Move(Disconnected, None)], FailedDisconnected, Idle, None)
    case Disconnected => Do([MarkIncomplete] + Closing(Unknown, Some(Live)), Idle, Idle, None)
    case _ => Idle
  }

  /** reconcile_after_restart on one row */
  function OnReconcile(r: Record): Pc {
    if r.state == Dispatching then Do([MarkIncomplete] + Closing(Unknown, Some(Recovery)), Idle, Reconcile, None)
    else if !IsObserved(r.state) then Idle
    else
      var verdict := RestartVerdict(r.evidence, r.requested);
      if verdict.Some? then Do(Closing(verdict.value, Some(DurableEvidence)), Idle, Reconcile, None)
      else if r.state == Running then Do([MarkIncomplete, Move(Disconnected, None)], Idle, Reconcile, None)
      else Do([MarkIncomplete], Idle, Reconcile, None)
  }

  function MoveIf(r: Record, s: State, to: State, next: Pc): Pc {
    if r.state == s then Do([Move(to, None)], next, Failed, None) else next
  }

  function CloseIf(condition: bool, to: State, source: Option<CompletionSource>, next: Pc, onError: Pc): Pc {
    if condition then Do(Closing(to, source), next, onError, None) else next
  }

  /** Program points that only read the row and decide. */
  function Decision(r: Record, clock: nat, pc: Pc): Option<Pc> {
    match pc
    case SendFailed =>
      Some(if r.state == Queued then Do(Closing(Interrupted, Some(Live)), Idle, Failed, None)
           else CloseIf(r.state == Dispatching, Unknown, Some(Live), Idle, Failed))
    case Top(w) => Some(AtTop(r, clock, w))
    case Reread(w) => Some(AtReread(r, w))
    case Lost(confirmed) =>
      Some(if confirmed then Do([MarkIncomplete], LostMarked, Failed, None)
           else CloseIf(r.state == Dispatching, Unknown, Some(Live), AfterLost, Failed))
    case LostMarked => Some(MoveIf(r, Running, Disconnected, AfterLost))
    case AfterLost => Some(if r.state == Disconnected then Recovering else Idle)
    case AmbiguousMarked => Some(MoveIf(r, Running, Disconnected, AmbiguousDisconnected))
    case AmbiguousDisconnected => Some(CloseIf(r.state == Disconnected, Unknown, Some(Live), Idle, Failed))
    case Recovering => Some(if r.state == Disconnected then Connecting(r) else Idle)
    case GiveUp =>
      Some(if r.state == Disconnected then Do([MarkIncomplete] + Closing(Unknown, Some(Recovery)), Idle, Failed, None) else Idle)
    case Failed => Some(OnFailure(r.state))
    case FailedDisconnected => Some(CloseIf(r.state == Disconnected, Unknown, Some(Live), Idle, Idle))
    case Reconcile => Some(OnReconcile(r))
    case Force => Some(if r.state == Dispatching || IsObserved(r.state) then Do([MarkIncomplete], ForceMarked, Idle, None) else Idle)
    case ForceMarked => Some(if r.state == Running then Do([Move(Disconnected, None)], ForceDisconnected, Idle, None) else ForceDisconnected)
    case ForceDisconnected => Some(CloseIf(r.state == Dispatching || r.state == Disconnected, Unknown, None, Idle, Idle))
    case _ => None
  }

  /** Where an exception at a program point leads: the failure handler, or a dead thread. */
  function Raised(pc: Pc): Pc {
    match pc
    case Idle => Idle
    case Loaded => Failed
    case Prepared(_) => SendFailed
    case ToSend(_, _, _) => SendFailed
    case Failed => Idle
    case FailedDisconnected => Idle
    case Reconcile => Reconcile
    case Force => Idle
    case ForceMarked => Idle
    case ForceDisconnected => Idle
    case Do(_, _, onError, _) => onError
    case _ => Failed
  }

  /** After the confirming write the live loop starts its own deadline, no earlier than the durable one. */
  ghost predicate Armed(next: Pc, armed: Pc, r: Record, clock: nat) {
    if next.Top? && next.w.mode.LiveMode? && r.timeout.Some? then
      && armed.Top? && armed.w.mode.LiveMode? && armed == Top(next.w.(mode := armed.w.mode))
      && armed.w.mode.deadline.Some? && armed.w.mode.deadline.value >= clock + r.timeout.value
    else armed == next
  }

  function Committed(w: World, op: Op, r: Record, seen: Option<Sighting>): World {
    w.(rec := r, hist := if op.SaveEvidence? && seen.Some? then w.hist + [seen.value] else w.hist)
  }

  ghost predicate DoStep(w: World, pc: Pc, v: World, q: Pc)
    requires pc.Do?
  {
    if pc.ops == [] then v == w && q == pc.next
    else
      match Apply(pc.ops[0], w.rec, w.clock)
      case Err(_) => v == w && q == pc.onError
      case Ok(r) =>
        && v == Committed(w, pc.ops[0], r, pc.seen)
        && q.Do? && q.ops == pc.ops[1..] && q.onError == pc.onError && q.seen == pc.seen
        && (if pc.ops[0] == Confirm then Armed(pc.next, q.next, r, w.clock) else q.next == pc.next)
  }

  function Watched(w: World, watch: Watch, e: KernelEvent): World {
    if Matches(e, watch.proof.messageId) then w.(watched := w.watched + [e]) else w
  }

  /** Program points that write, use the network or wait for the kernel. */
  ghost predicate ActionStep(w: World, pc: Pc, v: World, q: Pc) {
    match pc
    case Loaded =>
      && v == w
      && (|| q == Do(Closing(Interrupted, Some(Live)), Idle, Failed, None)
          || (q.Prepared? && w.rec.state == Queued && w.rec.sourceKept && Digest(q.code) == w.rec.sourceDigest))
    case Prepared(code) =>
      || (v == w && q == Do(Closing(Interrupted, Some(Live)), Idle, Failed, None))
      || (&& q.ToSend? && q.code == code
          && q.via.endpoint.Some? && q.via.kernel.Some? && q.via.jupyter.Some?
          && Apply(Begin(q.id, q.via), w.rec, w.clock).Ok?
          && v == w.(rec := Apply(Begin(q.id, q.via), w.rec, w.clock).value))
    case ToSend(id, code, via) =>
      && v == w.(wire := w.wire + [ExecuteRequest(id, code)])
      && (q == Top(Watch(Fresh(id), false, LiveMode(None), via)) || q == SendFailed)
    case Poke(watch) =>
      v == w && (q == Await(watch) || q == Do([MarkIncomplete], AmbiguousMarked, Failed, None))
    case Await(watch) =>
      || (v == w && q == Top(watch))
      || (v == w && q == if watch.mode.LiveMode? then Lost(watch.proof.confirmed) else Recovering)
      || exists e :: v == Watched(w, watch, e) && q == OnEvent(watch, e)
    case Connecting(snapshot) =>
      && v == w
      && (q == Recovering || exists found, infoId :: q == OnReconnect(snapshot, found, infoId))
    case SendInfo(watch) =>
      && watch.mode.RecoveryMode?
      && (|| (v == w.(wire := w.wire + [KernelInfoRequest(watch.mode.infoId)]) && (q == Top(watch) || q == Recovering))
          || (v == w && q == Recovering))
    case Do(_, _, _, _) => DoStep(w, pc, v, q)
    case _ => false
  }

  /** One step of a thread: it raises, decides or acts. */
  ghost predicate PcStep(w: World, pc: Pc, v: World, q: Pc) {
    || (pc != Idle && v == w && q == Raised(pc))
    || (v == w && Decision(w.rec, w.clock, pc) == Some(q))
    || ActionStep(w, pc, v, q)
  }

  /** A newly created execution. */
  ghost predicate Init(x: Exec) {
    && (exists session, at, source, hash, key, timeout :: x.world.rec == NewRecord(session, at, source, hash, key, timeout))
    && x.world.wire == [] && x.world.hist == [] && x.world.watched == []
    && x.worker == Idle && x.control == Idle && !x.booting
  }

  /** One of the two threads moves. */
  ghost predicate ThreadStep(x: Exec, y: Exec) {
    || (PcStep(x.world, x.worker, y.world, y.worker) && y.control == x.control && y.booting == x.booting)
    || (PcStep(x.world, x.control, y.world, y.control) && y.worker == x.worker && y.booting == x.booting)
  }

  /** What happens to the threads, or beside them. */
  ghost predicate OutsideStep(x: Exec, y: Exec) {
    // the worker picks the execution up
    || (!x.booting && x.worker == Idle && x.world.rec.state == Queued && y == x.(worker := Loaded))
    || (!x.booting && x.worker == Idle && x.world.rec.state == Disconnected && y == x.(worker := Recovering))
    // a forced stop, a client's cancel, the passing of time
    || (!x.booting && x.control == Idle && y == x.(control := Force))
    || (Apply(RequestCancel, x.world.rec, x.world.clock) == Ok(y.world.rec) && y == x.(world := x.world.(rec := y.world.rec)))
    || (y.world.clock >= x.world.clock && y == x.(world := x.world.(clock := y.world.clock)))
    // the worker is closed and notices at a loop head; the controller crashes and restarts
    || ((x.worker.Top? || x.worker.Recovering? || x.worker.Connecting?) && y == x.(worker := Idle))
    || y == x.(worker := Idle, control := Reconcile, booting := true)
    || (x.booting && x.control == Idle && y == x.(booting := false))
  }

  ghost predicate Step(x: Exec, y: Exec) {
    ThreadStep(x, y) || OutsideStep(x, y)
  }

  ghost predicate StepAt(run: seq<Exec>, i: nat)
    requires 0 < i < |run|
  {
    Step(run[i - 1], run[i])
  }

  /** A run: any finite sequence of steps from creation. */
  ghost predicate IsRun(run: seq<Exec>) {
    && run != []
    && Init(run[0])
    && forall i :: 0 < i < |run| ==> StepAt(run, i)
  }
}
