/**
 Kernel events, and the object that turns them into a terminal verdict: only a valid
 execute reply and an idle status, both answering the execution's own request, decide.
 */
module KernelProof {
  import opened Wrappers
  import opened Lifecycle

  type MsgId = nat
  type Byte = b: int | 0 <= b < 256
  type Bytes = seq<Byte>

  datatype Channel = Shell | Iopub

  datatype Kind =
    | ExecuteReply | KernelInfoReply | StatusReport | ErrorReport | Stream | ClearOutput
    | DisplayData | ExecuteResult | UpdateDisplayData | OtherKind

  datatype ReplyStatus = ReplyOk | ReplyError | ReplyAborted

  /** The "status" entry of a content object. */
  datatype StatusField = NoStatus | Known(status: ReplyStatus) | Unrecognised

  /** Text is carried as its UTF-8 encoding. An entry of the wrong JSON type is None. */
  datatype Content = Content(
    status: StatusField,
    idle: bool,
    errorName: Option<string>,
    errorValue: Option<string>,
    traceback: Option<seq<Bytes>>,
    streamName: string,
    text: Bytes,
    wait: bool,
    representations: seq<(string, Bytes)>,
    displayId: Option<string>)

  datatype Header = NoHeader | HeaderWithoutKind | HeaderOf(kind: Kind)

  datatype Message = Message(
    parent: Option<MsgId>,
    header: Header,
    bareKind: Option<Kind>,
    content: Option<Content>)

  datatype KernelEvent = KernelEvent(channel: Channel, message: Message)

  /** The kind the proof object sees: the header first, else the bare field. */
  function ProofKind(m: Message): Option<Kind> {
    if m.header.HeaderOf? then Some(m.header.kind) else m.bareKind
  }

  predicate Matches(e: KernelEvent, id: MsgId) {
    e.message.parent == Some(id)
  }

  predicate IsReply(e: KernelEvent) {
    e.channel == Shell && ProofKind(e.message) == Some(ExecuteReply)
  }

  /** An execute reply whose content is an object with a recognised status. */
  predicate IsValidReply(e: KernelEvent) {
    && IsReply(e)
    && e.message.content.Some?
    && e.message.content.value.status.Known?
  }

  predicate IsIdle(e: KernelEvent) {
    && e.channel == Iopub
    && ProofKind(e.message) == Some(StatusReport)
    && e.message.content.Some?
    && e.message.content.value.idle
  }

  predicate IsErrorReport(e: KernelEvent) {
    && e.channel == Iopub
    && ProofKind(e.message) == Some(ErrorReport)
    && e.message.content.Some?
  }

  /** The evidence a verdict rests on. */
  datatype Evidence = Evidence(
    reply: bool,
    idle: bool,
    status: Option<ReplyStatus>,
    errorName: Option<string>,
    traceback: Option<seq<Bytes>>)

  const NoEvidence := Evidence(false, false, None, None, None)

  function Captured(v: Evidence, c: Content): Evidence {
    v.(errorName := Coalesce(c.errorName, v.errorName), traceback := Coalesce(c.traceback, v.traceback))
  }

  /** What one matching event adds to the evidence. */
  function Absorb(v: Evidence, e: KernelEvent): Evidence {
    if IsValidReply(e) then
      if v.reply then v
      else
        var status := e.message.content.value.status.status;
        var replied := v.(reply := true, status := Some(status));
        if status == ReplyOk then replied else Captured(replied, e.message.content.value)
    else if IsIdle(e) then v.(idle := true)
    else if IsErrorReport(e) then Captured(v, e.message.content.value)
    else v
  }

  /** The error names with which Jupyter reports a delivered interrupt. */
  predicate IsInterruptError(name: Option<string>) {
    name in {Some("KeyboardInterrupt"), Some("InterruptedError"), Some("CancelledError")}
  }

  predicate ShowsInterrupt(v: Evidence) {
    v.status == Some(ReplyAborted) || IsInterruptError(v.errorName)
  }

  /** ExecutionProof._terminal_state: the live verdict. */
  function LiveVerdict(v: Evidence, requested: Option<State>): Option<State> {
    if !(v.reply && v.idle) then None
    else if v.status == Some(ReplyOk) then Some(Finished)
    else if requested.Some? && ShowsInterrupt(v) then requested
    else Some(Error)
  }

  /** DurableStore._terminal_state_from_evidence: the verdict computed after a restart. */
  function RestartVerdict(v: Evidence, requested: Option<State>): Option<State> {
    if !(v.reply && v.idle) then None
    else if v.status == Some(ReplyOk) then Some(Finished)
    else if requested in {Some(Interrupted), Some(TimedOut)} && ShowsInterrupt(v) then requested
    else if v.status in {Some(ReplyError), Some(ReplyAborted)} then Some(Error)
    else None
  }

  /** The value of an ExecutionProof object. */
  datatype ProofState = ProofState(
    messageId: MsgId,
    confirmed: bool,
    evidence: Evidence,
    errorValue: Option<string>,
    requested: Option<State>)

  function Fresh(id: MsgId): ProofState {
    ProofState(id, false, NoEvidence, None, None)
  }

  function Verdict(p: ProofState): Option<State> {
    LiveVerdict(p.evidence, p.requested)
  }

  /** A timeout, once requested of the object, is never replaced by a cancel. */
  function Requesting(p: ProofState, target: State): ProofState {
    if p.requested == Some(TimedOut) then p else p.(requested := Some(target))
  }

  function ErrorValueAfter(p: ProofState, e: KernelEvent): Option<string> {
    if (IsValidReply(e) && !p.evidence.reply && e.message.content.value.status.status != ReplyOk)
       || (IsErrorReport(e) && !IsReply(e) && !IsIdle(e))
    then Coalesce(e.message.content.value.errorValue, p.errorValue)
    else p.errorValue
  }

  function Observed(p: ProofState, e: KernelEvent): ProofState {
    if !Matches(e, p.messageId) then p
    else p.(confirmed := true, evidence := Absorb(p.evidence, e), errorValue := ErrorValueAfter(p, e))
  }

  /** What observe() reports to the worker. */
  datatype Observation = Observation(
    matched: bool,
    confirm: bool,
    validReply: Option<bool>,
    reply: bool,
    idle: bool,
    terminal: Option<State>,
    status: Option<ReplyStatus>,
    errorName: Option<string>,
    errorValue: Option<string>,
    traceback: Option<seq<Bytes>>)

  const Unmatched := Observation(false, false, None, false, false, None, None, None, None, None)

  function Report(p: ProofState, e: KernelEvent): Observation {
    if !Matches(e, p.messageId) then Unmatched
    else
      var q := Observed(p, e);
      Observation(
        true,
        !p.confirmed,
        if IsReply(e) then Some(IsValidReply(e)) else None,
        IsValidReply(e),
        IsIdle(e) && !p.evidence.idle,
        Verdict(q),
        q.evidence.status, q.evidence.errorName, q.errorValue, q.evidence.traceback)
  }

  /** The proof object, with the fields and branches of the program. */
  class ExecutionProof {
    const messageId: MsgId
    var dispatchConfirmed: bool
    var replyReceived: bool
    var idleReceived: bool
    var replyStatus: Option<ReplyStatus>
    var errorName: Option<string>
    var errorValue: Option<string>
    var traceback: Option<seq<Bytes>>
    var requestedTerminal: Option<State>

    ghost function Value(): ProofState
      reads this
    {
      ProofState(messageId, dispatchConfirmed,
                 Evidence(replyReceived, idleReceived, replyStatus, errorName, traceback),
                 errorValue, requestedTerminal)
    }

    constructor (id: MsgId)
      ensures Value() == Fresh(id)
    {
      messageId := id;
      dispatchConfirmed, replyReceived, idleReceived := false, false, false;
      replyStatus, errorName, errorValue, traceback, requestedTerminal := None, None, None, None, None;
    }

    /** Returns false where the program raises ValueError. */
    method RequestInterrupt(target: State) returns (ok: bool)
      modifies this`requestedTerminal
      ensures ok == (target in {Interrupted, TimedOut})
      ensures Value() == if ok then Requesting(old(Value()), target) else old(Value())
    {
      if target !in {Interrupted, TimedOut} {
        return false;
      }
      if requestedTerminal != Some(TimedOut) {
        requestedTerminal := Some(target);
      }
      return true;
    }

    /** Restore evidence committed before a reconnect. */
    method Restore(confirmed: bool, v: Evidence, value: Option<string>, requested: Option<State>) returns (ok: bool)
      modifies this
      ensures ok == (requested in {None, Some(Interrupted), Some(TimedOut)})
      ensures
        var restored := ProofState(messageId, confirmed, v, value, old(requestedTerminal));
        Value() == if ok && requested.Some? then Requesting(restored, requested.value) else restored
    {
      dispatchConfirmed := confirmed;
      replyReceived, idleReceived, replyStatus := v.reply, v.idle, v.status;
      errorName, errorValue, traceback := v.errorName, value, v.traceback;
      ok := true;
      if requested.Some? {
        ok := RequestInterrupt(requested.value);
      }
    }

    method CaptureError(c: Content)
      modifies this`errorName, this`errorValue, this`traceback
      ensures errorName == Coalesce(c.errorName, old(errorName))
      ensures errorValue == Coalesce(c.errorValue, old(errorValue))
      ensures traceback == Coalesce(c.traceback, old(traceback))
    {
      if c.errorName.Some? {
        errorName := c.errorName;
      }
      if c.errorValue.Some? {
        errorValue := c.errorValue;
      }
      if c.traceback.Some? {
        traceback := c.traceback;
      }
    }

    method TerminalState() returns (verdict: Option<State>)
      ensures verdict == Verdict(Value())
    {
      if !(replyReceived && idleReceived) {
        return None;
      }
      if replyStatus == Some(ReplyOk) {
        return Some(Finished);
      }
      if requestedTerminal.Some? && (replyStatus == Some(ReplyAborted) || IsInterruptError(errorName)) {
        return requestedTerminal;
      }
      return Some(Error);
    }

    method Observe(event: KernelEvent) returns (o: Observation)
      modifies this
      ensures Value() == Observed(old(Value()), event)
      ensures o == Report(old(Value()), event)
    {
      var m := event.message;
      if m.parent != Some(messageId) {
        return Unmatched;
      }
      var firstMatch := !dispatchConfirmed;
      dispatchConfirmed := true;
      var kind := ProofKind(m);
      var validReply: Option<bool> := None;
      var replyDelta, idleDelta := false, false;
      if event.channel == Shell && kind == Some(ExecuteReply) {
        if m.content.Some? && m.content.value.status.Known? {
          var status := m.content.value.status.status;
          if !replyReceived {
            replyReceived, replyStatus := true, Some(status);
            if status != ReplyOk {
              CaptureError(m.content.value);
            }
          }
          validReply, replyDelta := Some(true), true;
        } else {
          validReply := Some(false);
        }
      } else if event.channel == Iopub && kind == Some(StatusReport) && m.content.Some? && m.content.value.idle {
        if !idleReceived {
          idleReceived, idleDelta := true, true;
        }
      } else if event.channel == Iopub && kind == Some(ErrorReport) && m.content.Some? {
        CaptureError(m.content.value);
      }
      var verdict := TerminalState();
      o := Observation(true, firstMatch, validReply, replyDelta, idleDelta, verdict,
                       replyStatus, errorName, errorValue, traceback);
    }
  }

  // ---------------------------------------------------------------- what a verdict means

  /** Observing a whole history, oldest first. */
  function ObserveAll(p: ProofState, events: seq<KernelEvent>): ProofState
    decreases |events|
  {
    if events == [] then p else ObserveAll(Observed(p, events[0]), events[1..])
  }

  lemma {:induction false} ObserveAllAppend(p: ProofState, xs: seq<KernelEvent>, ys: seq<KernelEvent>)
    ensures ObserveAll(p, xs + ys) == ObserveAll(ObserveAll(p, xs), ys)
    decreases |xs|
  {
    if xs == [] {
      assert xs + ys == ys;
    } else {
      assert (xs + ys)[1..] == xs[1..] + ys;
      ObserveAllAppend(Observed(p, xs[0]), xs[1..], ys);
    }
  }

  /** The first valid reply to `id` has status s. */
  ghost predicate FirstReplyIs(events: seq<KernelEvent>, id: MsgId, s: ReplyStatus) {
    exists i :: 0 <= i < |events| && ReplyAt(events, id, i, s)
                && forall j :: 0 <= j < i ==> !(Matches(events[j], id) && IsValidReply(events[j]))
  }

  ghost predicate ReplyAt(events: seq<KernelEvent>, id: MsgId, i: nat, s: ReplyStatus)
    requires i < |events|
  {
    Matches(events[i], id) && IsValidReply(events[i]) && events[i].message.content.value.status.status == s
  }

  ghost predicate HasReply(events: seq<KernelEvent>, id: MsgId) {
    exists i :: 0 <= i < |events| && Matches(events[i], id) && IsValidReply(events[i])
  }

  ghost predicate HasIdle(events: seq<KernelEvent>, id: MsgId) {
    exists i :: 0 <= i < |events| && Matches(events[i], id) && IsIdle(events[i])
  }

  /** What an accumulated proof says about the events it saw. */
  lemma {:induction false} EvidenceMeans(id: MsgId, events: seq<KernelEvent>)
    ensures var p := ObserveAll(Fresh(id), events);
            && p.messageId == id && p.requested == None
            && (p.evidence.reply <==> HasReply(events, id))
            && (p.evidence.reply <==> p.evidence.status.Some?)
            && (p.evidence.idle <==> HasIdle(events, id))
            && (forall s :: p.evidence.status == Some(s) <==> FirstReplyIs(events, id, s))
  {
    if events != [] {
      var n := |events| - 1;
      var init, e := events[..n], events[n];
      assert events == init + [e];
      EvidenceMeans(id, init);
      var p := ObserveAll(Fresh(id), init);
      ObserveAllAppend(Fresh(id), init, [e]);
      assert ObserveAll(p, [e]) == Observed(p, e);
      var q := Observed(p, e);
      assert HasReply(events, id) <==> HasReply(init, id) || (Matches(e, id) && IsValidReply(e)) by {
        if HasReply(init, id) {
          var i :| 0 <= i < |init| && Matches(init[i], id) && IsValidReply(init[i]);
          assert events[i] == init[i];
        }
        if Matches(e, id) && IsValidReply(e) { assert events[n] == e; }
      }
      assert HasIdle(events, id) <==> HasIdle(init, id) || (Matches(e, id) && IsIdle(e)) by {
        if HasIdle(init, id) {
          var i :| 0 <= i < |init| && Matches(init[i], id) && IsIdle(init[i]);
          assert events[i] == init[i];
        }
        if Matches(e, id) && IsIdle(e) { assert events[n] == e; }
      }
      forall s ensures q.evidence.status == Some(s) <==> FirstReplyIs(events, id, s) {
        FirstReplyExtends(init, e, id, s);
      }
    }
  }

  lemma FirstReplyExtends(init: seq<KernelEvent>, e: KernelEvent, id: MsgId, s: ReplyStatus)
    ensures FirstReplyIs(init + [e], id, s)
            <==> FirstReplyIs(init, id, s) || (!HasReply(init, id) && ReplyAt([e], id, 0, s))
  {
    var events := init + [e];
    if FirstReplyIs(events, id, s) {
      var i :| 0 <= i < |events| && ReplyAt(events, id, i, s)
               && forall j :: 0 <= j < i ==> !(Matches(events[j], id) && IsValidReply(events[j]));
      if i < |init| {
        assert ReplyAt(init, id, i, s);
        forall j | 0 <= j < i ensures !(Matches(init[j], id) && IsValidReply(init[j])) {
          assert events[j] == init[j];
        }
      } else {
        forall j | 0 <= j < |init| ensures !(Matches(init[j], id) && IsValidReply(init[j])) {
          assert events[j] == init[j];
        }
      }
    }
    if FirstReplyIs(init, id, s) {
      var i :| 0 <= i < |init| && ReplyAt(init, id, i, s)
               && forall j :: 0 <= j < i ==> !(Matches(init[j], id) && IsValidReply(init[j]));
      assert ReplyAt(events, id, i, s);
    }
    if !HasReply(init, id) && ReplyAt([e], id, 0, s) {
      assert ReplyAt(events, id, |init|, s);
    }
  }

  /**
   Success is never inferred: whatever interrupts were requested, the verdict is FINISHED
   exactly when the first valid matching reply is "ok" and a matching idle was seen.
   */
  lemma FinishedMeans(id: MsgId, events: seq<KernelEvent>, requested: Option<State>)
    requires requested in {None, Some(Interrupted), Some(TimedOut)}
    ensures var v := ObserveAll(Fresh(id), events).evidence;
            && (LiveVerdict(v, requested) == Some(Finished)
                <==> FirstReplyIs(events, id, ReplyOk) && HasIdle(events, id))
            && (LiveVerdict(v, requested).Some? <==> HasReply(events, id) && HasIdle(events, id))
            && (LiveVerdict(v, requested) in {Some(Interrupted), Some(TimedOut)}
                ==> requested == LiveVerdict(v, requested) && !FirstReplyIs(events, id, ReplyOk))
  {
    EvidenceMeans(id, events);
  }

  // ---------------------------------------------------------------- saving and restoring

  /** The worker saves evidence only for an observation that carries some. */
  predicate CarriesEvidence(o: Observation) {
    o.reply || o.idle || o.errorName.Some? || o.traceback.Some?
  }

  /** record_execution_evidence with the arguments the worker passes. */
  function Recorded(v: Evidence, o: Observation): Evidence {
    Evidence(
      o.reply || v.reply,
      o.idle || v.idle,
      Coalesce(if o.reply then o.status else None, v.status),
      Coalesce(o.errorName, v.errorName),
      Coalesce(o.traceback, v.traceback))
  }

  function Saved(v: Evidence, o: Observation): Evidence {
    if o.matched && CarriesEvidence(o) then Recorded(v, o) else v
  }

  /** Saving after each observation keeps the durable row equal to the live evidence. */
  lemma SavedTracks(p: ProofState, e: KernelEvent)
    requires p.evidence.reply <==> p.evidence.status.Some?
    ensures var q := Observed(p, e);
            && (q.evidence.reply <==> q.evidence.status.Some?)
            && Saved(p.evidence, Report(p, e)) == q.evidence
            && (Matches(e, p.messageId) && CarriesEvidence(Report(p, e))
                ==> Recorded(p.evidence, Report(p, e)) == q.evidence)
  {
  }

  /** Everything that can happen to a proof between two crashes. */
  datatype Input = Event(e: KernelEvent) | Request(target: State)

  function Fed(p: ProofState, i: Input): ProofState {
    match i
    case Event(e) => Observed(p, e)
    case Request(target) => Requesting(p, target)
  }

  function FeedAll(p: ProofState, inputs: seq<Input>): ProofState
    decreases |inputs|
  {
    if inputs == [] then p else FeedAll(Fed(p, inputs[0]), inputs[1..])
  }

  /** The evidence columns after the same inputs, each observation saved as it is made. */
  function SaveAll(v: Evidence, p: ProofState, inputs: seq<Input>): Evidence
    decreases |inputs|
  {
    if inputs == [] then v
    else
      var v' := if inputs[0].Event? then Saved(v, Report(p, inputs[0].e)) else v;
      SaveAll(v', Fed(p, inputs[0]), inputs[1..])
  }

  lemma {:induction false} FeedAllAppend(p: ProofState, xs: seq<Input>, ys: seq<Input>)
    ensures FeedAll(p, xs + ys) == FeedAll(FeedAll(p, xs), ys)
    decreases |xs|
  {
    if xs == [] {
      assert xs + ys == ys;
    } else {
      assert (xs + ys)[1..] == xs[1..] + ys;
      FeedAllAppend(Fed(p, xs[0]), xs[1..], ys);
    }
  }

  lemma {:induction false} SaveAllTracks(p: ProofState, inputs: seq<Input>)
    requires p.evidence.reply <==> p.evidence.status.Some?
    ensures var q := FeedAll(p, inputs);
            && SaveAll(p.evidence, p, inputs) == q.evidence
            && (q.evidence.reply <==> q.evidence.status.Some?)
            && q.messageId == p.messageId
    decreases |inputs|
  {
    if inputs != [] {
      if inputs[0].Event? {
        SavedTracks(p, inputs[0].e);
      }
      SaveAllTracks(Fed(p, inputs[0]), inputs[1..]);
    }
  }

  /** _restored_proof: a new object filled from the durable columns. */
  function Restored(id: MsgId, confirmed: bool, v: Evidence, value: Option<string>, requested: Option<State>): ProofState {
    var p := ProofState(id, confirmed, v, value, None);
    if requested.Some? then Requesting(p, requested.value) else p
  }

  /** Proof objects that differ at most in the error value. */
  predicate SameProof(p: ProofState, q: ProofState) {
    p.messageId == q.messageId && p.confirmed == q.confirmed && p.evidence == q.evidence && p.requested == q.requested
  }

  lemma {:induction false} SameProofFed(p: ProofState, q: ProofState, inputs: seq<Input>)
    requires SameProof(p, q)
    ensures SameProof(FeedAll(p, inputs), FeedAll(q, inputs))
    decreases |inputs|
  {
    if inputs != [] {
      SameProofFed(Fed(p, inputs[0]), Fed(q, inputs[0]), inputs[1..]);
    }
  }

  /**
   Restore commutes with observe: cut any history at any point, save, crash, restore from the
   durable columns and go on; the proof, and so every later verdict, is that of an
   uninterrupted object, as long as the durable request is the one the object held.
   */
  lemma RestoreCommutes(id: MsgId, xs: seq<Input>, ys: seq<Input>, value: Option<string>, requested: Option<State>)
    requires requested == FeedAll(Fresh(id), xs).requested
    ensures var before := FeedAll(Fresh(id), xs);
            var durable := SaveAll(NoEvidence, Fresh(id), xs);
            var restored := Restored(id, before.confirmed, durable, value, requested);
            var uninterrupted := FeedAll(Fresh(id), xs + ys);
            && SameProof(FeedAll(restored, ys), uninterrupted)
            && Verdict(FeedAll(restored, ys)) == Verdict(uninterrupted)
  {
    SaveAllTracks(Fresh(id), xs);
    FeedAllAppend(Fresh(id), xs, ys);
    var before := FeedAll(Fresh(id), xs);
    SameProofFed(Restored(id, before.confirmed, before.evidence, value, requested), before, ys);
  }

  /**
   The two separate implementations of the verdict agree exactly when they are given the same
   request, or the evidence does not show a delivered interrupt (or is not terminal anyway).
   */
  lemma RestartVerdictAgrees(v: Evidence, live: Option<State>, durable: Option<State>)
    requires v.reply <==> v.status.Some?
    requires live in {None, Some(Interrupted), Some(TimedOut)}
    requires durable in {None, Some(Interrupted), Some(TimedOut)}
    ensures RestartVerdict(v, durable) == LiveVerdict(v, live)
            <==> live == durable || !v.reply || !v.idle || v.status == Some(ReplyOk) || !ShowsInterrupt(v)
  {
    if v.reply && v.idle {
      match v.status.value
      case ReplyOk =>
      case ReplyError =>
      case ReplyAborted =>
    }
  }

  /** The disagreement is real: a cancel that arrives after a timeout, then a crash. */
  lemma CancelAfterTimeoutDisagrees()
    ensures var v := Evidence(true, true, Some(ReplyAborted), None, None);
            var live := Requesting(Requesting(Fresh(0), TimedOut), Interrupted).requested;
            && LiveVerdict(v, live) == Some(TimedOut)
            && RestartVerdict(v, Some(Interrupted)) == Some(Interrupted)
  {
  }

  /** A lone idle, kernel-info traffic or output never moves a verdict. */
  lemma OnlyReplyAndIdleDecide(p: ProofState, e: KernelEvent)
    requires Verdict(p) == None
    requires Verdict(Observed(p, e)).Some?
    ensures Matches(e, p.messageId)
    ensures (IsValidReply(e) && !p.evidence.reply && p.evidence.idle) || (IsIdle(e) && !p.evidence.idle && p.evidence.reply)
  {
  }

  // ---------------------------------------------------------------- kernel idle boundary

  /** KernelIdleProof: the kernel answered a kernel_info request and went idle again. */
  class KernelIdleProof {
    const messageId: MsgId
    var replyReceived: bool
    var idleReceived: bool

    ghost function Value(): (MsgId, bool, bool)
      reads this
    {
      (messageId, replyReceived, idleReceived)
    }

    constructor (id: MsgId)
      ensures Value() == (id, false, false)
    {
      messageId := id;
      replyReceived, idleReceived := false, false;
    }

    method Observe(event: KernelEvent) returns (matched: bool)
      modifies this
      ensures matched == Matches(event, messageId)
      ensures (replyReceived, idleReceived) == IdleAfter(messageId, event, (old(replyReceived), old(idleReceived)))
    {
      var m := event.message;
      if m.parent != Some(messageId) {
        return false;
      }
      if event.channel == Shell && ProofKind(m) == Some(KernelInfoReply) && m.content.Some?
         && m.content.value.status in {NoStatus, Known(ReplyOk)} {
        replyReceived := true;
      } else if event.channel == Iopub && ProofKind(m) == Some(StatusReport) && m.content.Some? && m.content.value.idle {
        idleReceived := true;
      }
      return true;
    }
  }

  predicate IsInfoReply(e: KernelEvent) {
    && e.channel == Shell
    && ProofKind(e.message) == Some(KernelInfoReply)
    && e.message.content.Some?
    && e.message.content.value.status in {NoStatus, Known(ReplyOk)}
  }

  function IdleAfter(id: MsgId, e: KernelEvent, before: (bool, bool)): (bool, bool) {
    if !Matches(e, id) then before
    else (before.0 || IsInfoReply(e), before.1 || IsIdle(e))
  }
}
