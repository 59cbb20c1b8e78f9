/**
 What a verdict says about the messages themselves, spelled out in their fields: the answers to
 the request, the error names they carry, and the verdict these call for.
 */
module Verdicts {
  import opened Wrappers
  import opened Lifecycle
  import opened KernelProof

  /** The message names this kind: in its header, or bare where the header names none. */
  predicate Names(m: Message, k: Kind) {
    match m.header
    case HeaderOf(kind) => kind == k
    case _ => m.bareKind == Some(k)
  }

  /** A message of a kind that answers the request, on this channel and with an object for content. */
  predicate Brings(e: KernelEvent, id: MsgId, on: Channel, k: Kind) {
    e.message.parent == Some(id) && e.channel == on && Names(e.message, k) && e.message.content.Some?
  }

  predicate Replies(e: KernelEvent, id: MsgId, s: ReplyStatus) {
    Brings(e, id, Shell, ExecuteReply) && e.message.content.value.status == Known(s)
  }

  predicate RepliesAny(e: KernelEvent, id: MsgId) {
    Replies(e, id, ReplyOk) || Replies(e, id, ReplyError) || Replies(e, id, ReplyAborted)
  }

  predicate GoesIdle(e: KernelEvent, id: MsgId) {
    Brings(e, id, Iopub, StatusReport) && e.message.content.value.idle
  }

  predicate Reports(e: KernelEvent, id: MsgId) {
    Brings(e, id, Iopub, ErrorReport)
  }

  predicate TellsInfo(e: KernelEvent, id: MsgId) {
    && Brings(e, id, Shell, KernelInfoReply)
    && (e.message.content.value.status == NoStatus || e.message.content.value.status == Known(ReplyOk))
  }

  // ---------------------------------------------------------------- histories

  ghost predicate Replied(es: seq<KernelEvent>, id: MsgId) {
    exists e <- es :: RepliesAny(e, id)
  }

  ghost predicate WentIdle(es: seq<KernelEvent>, id: MsgId) {
    exists e <- es :: GoesIdle(e, id)
  }

  /** No reply before the i-th message, which is one with this status. */
  ghost predicate FirstAt(es: seq<KernelEvent>, id: MsgId, i: nat, s: ReplyStatus) {
    i < |es| && Replies(es[i], id, s) && forall j | 0 <= j < i :: !RepliesAny(es[j], id)
  }

  ghost predicate FirstReplies(es: seq<KernelEvent>, id: MsgId, s: ReplyStatus) {
    exists i: nat :: FirstAt(es, id, i, s)
  }

  /** The messages an error name is taken from: error reports, and the first reply unless it is "ok". */
  ghost predicate Carries(es: seq<KernelEvent>, id: MsgId, i: nat) {
    i < |es| && (Reports(es[i], id) || FirstAt(es, id, i, ReplyError) || FirstAt(es, id, i, ReplyAborted))
  }

  function NameOf(c: Content): Option<string> {
    c.errorName
  }

  function ValueOf(c: Content): Option<string> {
    c.errorValue
  }

  function LinesOf(c: Content): Option<seq<Bytes>> {
    c.traceback
  }

  ghost predicate CarriesThis<T(!new)>(es: seq<KernelEvent>, id: MsgId, i: nat, get: Content -> Option<T>, value: T) {
    Carries(es, id, i) && get(es[i].message.content.value) == Some(value)
  }

  ghost predicate CarriesNone<T(!new)>(es: seq<KernelEvent>, id: MsgId, i: nat, get: Content -> Option<T>) {
    Carries(es, id, i) ==> get(es[i].message.content.value).None?
  }

  /** The last such entry, a name, a value or a traceback, that any of the messages carries. */
  ghost predicate Last<T(!new)>(es: seq<KernelEvent>, id: MsgId, get: Content -> Option<T>, value: T) {
    exists i: nat :: CarriesThis(es, id, i, get, value) && forall j: nat | i < j < |es| :: CarriesNone(es, id, j, get)
  }

  /** The kernel was interrupted: the reply says so, or the last name does. */
  ghost predicate Delivered(es: seq<KernelEvent>, id: MsgId) {
    || FirstReplies(es, id, ReplyAborted)
    || (FirstReplies(es, id, ReplyError)
        && (Last(es, id, NameOf, "KeyboardInterrupt") || Last(es, id, NameOf, "InterruptedError") || Last(es, id, NameOf, "CancelledError")))
  }

  /** The verdict the messages call for under a request. */
  ghost predicate CallsFor(es: seq<KernelEvent>, id: MsgId, requested: Option<State>, to: State) {
    && WentIdle(es, id)
    && match to
       case Finished => FirstReplies(es, id, ReplyOk)
       case Interrupted => requested == Some(Interrupted) && Delivered(es, id)
       case TimedOut => requested == Some(TimedOut) && Delivered(es, id)
       case Error => Replied(es, id) && !FirstReplies(es, id, ReplyOk) && (requested.None? || !Delivered(es, id))
       case _ => false
  }

  // ---------------------------------------------------------------- what the proof objects hold

  lemma FieldsOf(e: KernelEvent, id: MsgId)
    ensures RepliesAny(e, id) <==> Matches(e, id) && IsValidReply(e)
    ensures forall s :: Replies(e, id, s) <==> Matches(e, id) && IsValidReply(e) && e.message.content.value.status.status == s
    ensures GoesIdle(e, id) <==> Matches(e, id) && IsIdle(e)
    ensures Reports(e, id) <==> Matches(e, id) && IsErrorReport(e)
    ensures TellsInfo(e, id) <==> Matches(e, id) && IsInfoReply(e)
  {
    if e.message.content.Some? {
      match e.message.content.value.status
      case NoStatus =>
      case Unrecognised =>
      case Known(status) => SomeStatus(status);
    }
  }

  lemma SomeStatus(s: ReplyStatus)
    ensures s == ReplyOk || s == ReplyError || s == ReplyAborted
  {
  }

  /** Evidence v is what the messages say. */
  ghost predicate Tells(es: seq<KernelEvent>, id: MsgId, v: Evidence) {
    && (v.reply <==> Replied(es, id))
    && (v.reply <==> v.status.Some?)
    && (v.idle <==> WentIdle(es, id))
    && (forall s :: v.status == Some(s) <==> FirstReplies(es, id, s))
    && Holds(es, id, NameOf, v.errorName)
    && Holds(es, id, LinesOf, v.traceback)
  }

  /** What is held is the last that was carried. */
  ghost predicate Holds<T(!new)>(es: seq<KernelEvent>, id: MsgId, get: Content -> Option<T>, held: Option<T>) {
    match held
    case Some(value) => Last(es, id, get, value)
    case None => forall j: nat | j < |es| :: CarriesNone(es, id, j, get)
  }

  lemma RepliedMore(es: seq<KernelEvent>, e: KernelEvent, id: MsgId)
    ensures Replied(es + [e], id) <==> Replied(es, id) || RepliesAny(e, id)
    ensures WentIdle(es + [e], id) <==> WentIdle(es, id) || GoesIdle(e, id)
  {
    assert forall x :: x in es + [e] <==> x in es || x == e;
  }

  lemma FirstAtMore(es: seq<KernelEvent>, e: KernelEvent, id: MsgId, i: nat, s: ReplyStatus)
    ensures i < |es| ==> (FirstAt(es + [e], id, i, s) <==> FirstAt(es, id, i, s))
    ensures FirstAt(es + [e], id, |es|, s) <==> !Replied(es, id) && Replies(e, id, s)
  {
    if i < |es| {
      assert forall j | 0 <= j <= i :: (es + [e])[j] == es[j];
    }
    assert forall j | 0 <= j < |es| :: (es + [e])[j] == es[j];
  }

  lemma FirstMore(es: seq<KernelEvent>, e: KernelEvent, id: MsgId, s: ReplyStatus)
    ensures FirstReplies(es + [e], id, s) <==> FirstReplies(es, id, s) || (!Replied(es, id) && Replies(e, id, s))
  {
    FirstAtMore(es, e, id, |es|, s);
    if FirstReplies(es + [e], id, s) {
      var i: nat :| FirstAt(es + [e], id, i, s);
      FirstAtMore(es, e, id, i, s);
    }
    if FirstReplies(es, id, s) {
      var i: nat :| FirstAt(es, id, i, s);
      FirstAtMore(es, e, id, i, s);
    }
  }

  /** The message just added carries an error name. */
  ghost predicate CarriesNext(es: seq<KernelEvent>, e: KernelEvent, id: MsgId) {
    Reports(e, id) || (!Replied(es, id) && (Replies(e, id, ReplyError) || Replies(e, id, ReplyAborted)))
  }

  lemma CarriesMore(es: seq<KernelEvent>, e: KernelEvent, id: MsgId, i: nat)
    ensures i < |es| ==> (Carries(es + [e], id, i) <==> Carries(es, id, i))
    ensures Carries(es + [e], id, |es|) <==> CarriesNext(es, e, id)
  {
    FirstAtMore(es, e, id, i, ReplyError);
    FirstAtMore(es, e, id, i, ReplyAborted);
  }

  lemma HoldsMore<T(!new)>(es: seq<KernelEvent>, e: KernelEvent, id: MsgId, get: Content -> Option<T>, held: Option<T>)
    requires Holds(es, id, get, held)
    ensures Holds(es + [e], id, get, if CarriesNext(es, e, id) then Coalesce(get(e.message.content.value), held) else held)
  {
    var more := es + [e];
    forall j: nat | j < |es| ensures CarriesNone(more, id, j, get) <==> CarriesNone(es, id, j, get) {
      CarriesMore(es, e, id, j);
    }
    CarriesMore(es, e, id, |es|);
    if CarriesNext(es, e, id) && get(e.message.content.value).Some? {
      assert CarriesThis(more, id, |es|, get, get(e.message.content.value).value);
    } else if held.Some? {
      var i: nat :| CarriesThis(es, id, i, get, held.value) && forall j: nat | i < j < |es| :: CarriesNone(es, id, j, get);
      CarriesMore(es, e, id, i);
      assert CarriesThis(more, id, i, get, held.value);
      assert CarriesNone(more, id, |es|, get);
    }
  }

  lemma TellsMore(es: seq<KernelEvent>, e: KernelEvent, id: MsgId, v: Evidence)
    requires Tells(es, id, v)
    ensures Tells(es + [e], id, if Matches(e, id) then Absorb(v, e) else v)
  {
    FieldsOf(e, id);
    RepliedMore(es, e, id);
    HoldsMore(es, e, id, NameOf, v.errorName);
    HoldsMore(es, e, id, LinesOf, v.traceback);
    forall s ensures FirstReplies(es + [e], id, s) <==> FirstReplies(es, id, s) || (!Replied(es, id) && Replies(e, id, s)) {
      FirstMore(es, e, id, s);
    }
    AbsorbedDetails(es, e, id, v);
  }

  lemma AbsorbedDetails(es: seq<KernelEvent>, e: KernelEvent, id: MsgId, v: Evidence)
    requires v.reply <==> Replied(es, id)
    ensures var u := if Matches(e, id) then Absorb(v, e) else v;
            && u.errorName == (if CarriesNext(es, e, id) then Coalesce(NameOf(e.message.content.value), v.errorName) else v.errorName)
            && u.traceback == (if CarriesNext(es, e, id) then Coalesce(LinesOf(e.message.content.value), v.traceback) else v.traceback)
  {
    FieldsOf(e, id);
    if e.message.content.Some? && e.message.content.value.status.Known? {
      match e.message.content.value.status.status
      case ReplyOk =>
      case ReplyError =>
      case ReplyAborted =>
    }
  }

  lemma TellsNothing(id: MsgId)
    ensures Tells([], id, NoEvidence)
  {
  }

  lemma {:induction false} ObservedTells(p: ProofState, before: seq<KernelEvent>, es: seq<KernelEvent>)
    requires Tells(before, p.messageId, p.evidence)
    ensures Tells(before + es, p.messageId, ObserveAll(p, es).evidence)
    ensures ObserveAll(p, es).messageId == p.messageId && ObserveAll(p, es).requested == p.requested
    decreases |es|
  {
    if es == [] {
      assert before + es == before;
    } else {
      TellsMore(before, es[0], p.messageId, p.evidence);
      assert before + [es[0]] + es[1..] == before + es;
      ObservedTells(Observed(p, es[0]), before + [es[0]], es[1..]);
    }
  }

  predicate IsRequest(requested: Option<State>) {
    requested.None? || requested == Some(Interrupted) || requested == Some(TimedOut)
  }

  lemma FirstIsOne(es: seq<KernelEvent>, id: MsgId, s: ReplyStatus, t: ReplyStatus)
    requires FirstReplies(es, id, s) && FirstReplies(es, id, t)
    ensures s == t
  {
    var i: nat :| FirstAt(es, id, i, s);
    var j: nat :| FirstAt(es, id, j, t);
    assert RepliesAny(es[i], id) && RepliesAny(es[j], id);
  }

  lemma HeldIsOne<T(!new)>(es: seq<KernelEvent>, id: MsgId, get: Content -> Option<T>, value: T, held: Option<T>)
    requires Holds(es, id, get, held)
    ensures Last(es, id, get, value) <==> held == Some(value)
  {
    if Last(es, id, get, value) {
      var i: nat :| CarriesThis(es, id, i, get, value) && forall j: nat | i < j < |es| :: CarriesNone(es, id, j, get);
      assert !CarriesNone(es, id, i, get);
      if held.Some? {
        var k: nat :| CarriesThis(es, id, k, get, held.value) && forall j: nat | k < j < |es| :: CarriesNone(es, id, j, get);
        assert !CarriesNone(es, id, k, get);
      }
    }
  }

  lemma DeliveredMeans(es: seq<KernelEvent>, id: MsgId, v: Evidence)
    requires Tells(es, id, v) && v.reply && v.status != Some(ReplyOk)
    ensures Delivered(es, id) <==> ShowsInterrupt(v)
  {
    HeldIsOne(es, id, NameOf, "KeyboardInterrupt", v.errorName);
    HeldIsOne(es, id, NameOf, "InterruptedError", v.errorName);
    HeldIsOne(es, id, NameOf, "CancelledError", v.errorName);
    SomeStatus(v.status.value);
  }

  lemma Undelivered(es: seq<KernelEvent>, id: MsgId, v: Evidence)
    requires Tells(es, id, v) && (!v.reply || v.status == Some(ReplyOk))
    ensures !Delivered(es, id)
  {
    assert v.status != Some(ReplyAborted) && v.status != Some(ReplyError);
  }

  lemma VerdictFor(es: seq<KernelEvent>, id: MsgId, v: Evidence, requested: Option<State>, to: State)
    requires Tells(es, id, v) && IsRequest(requested)
    ensures LiveVerdict(v, requested) == Some(to) <==> CallsFor(es, id, requested, to)
    ensures RestartVerdict(v, requested) == Some(to) <==> CallsFor(es, id, requested, to)
  {
    if v.reply && v.status != Some(ReplyOk) {
      DeliveredMeans(es, id, v);
    } else {
      Undelivered(es, id, v);
    }
    assert v.status == Some(ReplyOk) <==> FirstReplies(es, id, ReplyOk);
    if v.reply {
      match v.status.value
      case ReplyOk =>
      case ReplyError =>
      case ReplyAborted =>
    }
  }

  /**
   The live verdict after any history, in the fields of its messages: none without a reply and an
   idle; otherwise FINISHED, the requested state, or ERROR, exactly as the messages call for.
   */
  lemma VerdictMeans(id: MsgId, es: seq<KernelEvent>, requested: Option<State>)
    requires IsRequest(requested)
    ensures var v := ObserveAll(Fresh(id), es).evidence;
            && (forall to :: LiveVerdict(v, requested) == Some(to) <==> CallsFor(es, id, requested, to))
            && (LiveVerdict(v, requested).None? <==> !Replied(es, id) || !WentIdle(es, id))
  {
    TellsNothing(id);
    ObservedTells(Fresh(id), [], es);
    assert [] + es == es;
    var v := ObserveAll(Fresh(id), es).evidence;
    forall to ensures LiveVerdict(v, requested) == Some(to) <==> CallsFor(es, id, requested, to) {
      VerdictFor(es, id, v, requested, to);
    }
  }

  /** The error the proof object holds after any history is the last name, value and traceback carried, each for itself. */
  lemma {:induction false} ErrorMeans(id: MsgId, es: seq<KernelEvent>)
    ensures var p := ObserveAll(Fresh(id), es);
            && p.messageId == id && Tells(es, id, p.evidence)
            && Holds(es, id, NameOf, p.evidence.errorName)
            && Holds(es, id, ValueOf, p.errorValue)
            && Holds(es, id, LinesOf, p.evidence.traceback)
    decreases |es|
  {
    if es == [] {
      TellsNothing(id);
    } else {
      var n := |es| - 1;
      ErrorMeans(id, es[..n]);
      var p := ObserveAll(Fresh(id), es[..n]);
      assert es == es[..n] + [es[n]];
      ObserveAllAppend(Fresh(id), es[..n], [es[n]]);
      assert ObserveAll(p, [es[n]]) == Observed(p, es[n]);
      TellsMore(es[..n], es[n], id, p.evidence);
      HoldsMore(es[..n], es[n], id, ValueOf, p.errorValue);
      ObservedValue(es[..n], es[n], p);
    }
  }

  lemma ObservedValue(es: seq<KernelEvent>, e: KernelEvent, p: ProofState)
    requires p.evidence.reply <==> Replied(es, p.messageId)
    ensures Observed(p, e).errorValue
            == if CarriesNext(es, e, p.messageId) then Coalesce(ValueOf(e.message.content.value), p.errorValue) else p.errorValue
  {
    FieldsOf(e, p.messageId);
    if e.message.content.Some? && e.message.content.value.status.Known? {
      SomeStatus(e.message.content.value.status.status);
    }
  }

  // ---------------------------------------------------------------- after a restart

  /** The messages among the inputs. */
  function MessagesIn(inputs: seq<Input>): seq<KernelEvent> {
    if inputs == [] then []
    else
      var before := MessagesIn(inputs[..|inputs| - 1]);
      if inputs[|inputs| - 1].Event? then before + [inputs[|inputs| - 1].e] else before
  }

  lemma FeedLast(p: ProofState, inputs: seq<Input>)
    requires inputs != []
    ensures FeedAll(p, inputs) == Fed(FeedAll(p, inputs[..|inputs| - 1]), inputs[|inputs| - 1])
  {
    var n := |inputs| - 1;
    assert inputs == inputs[..n] + [inputs[n]];
    FeedAllAppend(p, inputs[..n], [inputs[n]]);
    var q := FeedAll(p, inputs[..n]);
    assert FeedAll(q, [inputs[n]]) == Fed(q, inputs[n]);
  }

  lemma {:induction false} FedTells(id: MsgId, inputs: seq<Input>)
    ensures var q := FeedAll(Fresh(id), inputs);
            q.messageId == id && Tells(MessagesIn(inputs), id, q.evidence)
    decreases |inputs|
  {
    if inputs == [] {
      TellsNothing(id);
    } else {
      var n := |inputs| - 1;
      FedTells(id, inputs[..n]);
      FeedLast(Fresh(id), inputs);
      if inputs[n].Event? {
        TellsMore(MessagesIn(inputs[..n]), inputs[n].e, id, FeedAll(Fresh(id), inputs[..n]).evidence);
      }
    }
  }

  /** What a proof object was last asked for; a timeout stays. */
  ghost predicate Asked(inputs: seq<Input>, requested: Option<State>) {
    match requested
    case None => forall x <- inputs :: x.Event?
    case Some(TimedOut) => Request(TimedOut) in inputs
    case Some(to) => to == Interrupted && Request(Interrupted) in inputs && Request(TimedOut) !in inputs
  }

  lemma {:induction false} FedAsked(id: MsgId, inputs: seq<Input>)
    requires forall x <- inputs :: x.Event? || x == Request(Interrupted) || x == Request(TimedOut)
    ensures Asked(inputs, FeedAll(Fresh(id), inputs).requested)
    decreases |inputs|
  {
    if inputs != [] {
      var n := |inputs| - 1;
      var init, last := inputs[..n], inputs[n];
      assert forall x :: x in inputs <==> x in init || x == last by {
        assert inputs == init + [last];
      }
      FedAsked(id, init);
      FeedLast(Fresh(id), inputs);
    }
  }

  /**
   Any history of messages and requests, saved as it goes: the live object decides by the messages
   and what it was asked for, and after a restart the saved columns decide by the same messages and
   the request in the row.
   */
  lemma SavedVerdictMeans(id: MsgId, inputs: seq<Input>, durable: Option<State>)
    requires forall x <- inputs :: x.Event? || x == Request(Interrupted) || x == Request(TimedOut)
    requires IsRequest(durable)
    ensures var live := FeedAll(Fresh(id), inputs);
            var saved := SaveAll(NoEvidence, Fresh(id), inputs);
            && Asked(inputs, live.requested)
            && (forall to :: Verdict(live) == Some(to) <==> CallsFor(MessagesIn(inputs), id, live.requested, to))
            && (forall to :: RestartVerdict(saved, durable) == Some(to) <==> CallsFor(MessagesIn(inputs), id, durable, to))
  {
    var live := FeedAll(Fresh(id), inputs);
    var es := MessagesIn(inputs);
    FedTells(id, inputs);
    FedAsked(id, inputs);
    SaveAllTracks(Fresh(id), inputs);
    forall to ensures Verdict(live) == Some(to) <==> CallsFor(es, id, live.requested, to) {
      VerdictFor(es, id, live.evidence, live.requested, to);
    }
    forall to ensures RestartVerdict(live.evidence, durable) == Some(to) <==> CallsFor(es, id, durable, to) {
      VerdictFor(es, id, live.evidence, durable, to);
    }
  }
}
