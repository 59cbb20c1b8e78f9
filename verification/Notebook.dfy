/**
 Rebuilding notebook outputs from stored output events: chunks of one text are regrouped,
 deferred clears are applied, and display updates replace what they update.
 */
module Notebook {
  import opened Wrappers
  import opened KernelProof

  datatype Artifact = CompleteText | Content(value: int)

  datatype EventKind = ArtifactEvent | ClearEvent | StreamEvent | ErrorEvent | DisplayEvent(of: Kind) | OtherEvent

  /** A stored output event in wire form; absent entries are None. */
  datatype Event = Event(
    kind: EventKind,
    text: Option<Bytes>,
    stream: Option<string>,
    wait: bool,
    errorName: Option<string>,
    errorValue: Option<string>,
    traceback: Option<seq<Bytes>>,
    mime: Option<string>,
    displayId: Option<string>,
    artifact: Option<Artifact>,
    metadata: Option<int>,
    executionCount: Option<int>)

  /** Lines given by the kernel, or str.splitlines of the joined text. */
  datatype Traceback = Listed(lines: seq<Bytes>) | SplitLines(text: Bytes)

  /** A display value: the text, json.loads of it, or what an artifact file contains. */
  datatype Value = Plain(text: Bytes) | Parsed(text: Bytes) | FromArtifact(artifact: Artifact)

  datatype Output =
    | StreamOutput(name: string, text: Bytes)
    | ErrorOutput(name: string, value: string, traceback: Traceback)
    | DisplayOutput(isResult: bool, data: Option<(string, Value)>, metadata: Option<int>, count: Option<int>, displayId: Option<string>)

  function TextOf(e: Event): Bytes {
    if e.text.Some? then e.text.value else []
  }

  /** `value or default` on strings. */
  function Or(s: Option<string>, default: string): string {
    if s.Some? && s.value != "" then s.value else default
  }

  predicate Skipped(e: Event) {
    e.kind == ArtifactEvent || e.artifact == Some(CompleteText)
  }

  predicate Grouped(e: Event) {
    e.kind.StreamEvent? || e.kind.ErrorEvent? || e.kind.DisplayEvent?
  }

  predicate SameGroup(e: Event, f: Event) {
    && f.kind == e.kind
    && match e.kind
       case StreamEvent => Or(f.stream, "stdout") == Or(e.stream, "stdout")
       case ErrorEvent => true
       case DisplayEvent(_) => f.mime == e.mime && f.displayId == e.displayId
       case _ => false
  }

  /** What the inner loops collect from consecutive events of one group. */
  datatype Group = Group(
    first: Event, text: Bytes, errorName: string, errorValue: string, traceback: seq<Bytes>, artifact: Option<Artifact>)

  function Extended(g: Group, e: Event): Group {
    Group(g.first, g.text + TextOf(e), Or(e.errorName, g.errorName), Or(e.errorValue, g.errorValue),
          if e.traceback.Some? then e.traceback.value else g.traceback,
          if e.artifact.Some? then e.artifact else g.artifact)
  }

  /** The loops start empty; of the first event only what is not text is kept aside. */
  function Empty(e: Event): Group {
    Group(e.(text := None, errorName := None, errorValue := None, traceback := None), [], "Error", "", [], None)
  }

  predicate IsJson(mime: string) {
    mime == "application/json" || (|mime| >= 5 && mime[|mime| - 5..] == "+json")
  }

  predicate IsPresent(s: Option<string>) {
    s.Some? && s.value != ""
  }

  function OutputOf(g: Group): Output {
    match g.first.kind
    case StreamEvent => StreamOutput(Or(g.first.stream, "stdout"), g.text)
    case ErrorEvent =>
      ErrorOutput(g.errorName, g.errorValue, if g.traceback == [] && g.text != [] then SplitLines(g.text) else Listed(g.traceback))
    case DisplayEvent(of) =>
      var value := if g.artifact.Some? then FromArtifact(g.artifact.value)
                   else if g.first.mime.Some? && IsJson(g.first.mime.value) then Parsed(g.text) else Plain(g.text);
      DisplayOutput(of == ExecuteResult,
                    if IsPresent(g.first.mime) then Some((g.first.mime.value, value)) else None,
                    g.first.metadata,
                    if of == ExecuteResult then g.first.executionCount else None,
                    if IsPresent(g.first.displayId) then g.first.displayId else None)
    case _ => StreamOutput("", [])
  }

  predicate Updates(g: Group) {
    g.first.kind == DisplayEvent(UpdateDisplayData) && IsPresent(g.first.displayId)
  }

  predicate Shows(o: Output, id: Option<string>) {
    o.DisplayOutput? && o.displayId == id
  }

  /** Replace the last output shown under the id, or append. */
  function Replaced(outs: seq<Output>, output: Output): seq<Output>
    requires output.DisplayOutput?
  {
    if outs == [] then [output]
    else
      var n := |outs| - 1;
      if Shows(outs[n], output.displayId) then outs[n := output]
      else if exists o <- outs :: Shows(o, output.displayId) then Replaced(outs[..n], output) + [outs[n]]
      else outs + [output]
  }

  function Placed(outs: seq<Output>, g: Group): seq<Output> {
    if Updates(g) then Replaced(outs, OutputOf(g)) else outs + [OutputOf(g)]
  }

  // ---------------------------------------------------------------- the loop, event by event

  /** Progress through the events; an open group has been started but not yet placed. */
  datatype Progress = Progress(outs: seq<Output>, pendingClear: bool, open: Option<Group>)

  function Closed(p: Progress): Progress {
    if p.open.Some? then Progress(Placed(p.outs, p.open.value), p.pendingClear, None) else p
  }

  function Begin(p: Progress, e: Event): Progress {
    if Skipped(e) then p
    else if e.kind == ClearEvent then
      if e.wait then p.(pendingClear := true) else Progress([], false, None)
    else
      Progress(if p.pendingClear then [] else p.outs, false, if Grouped(e) then Some(Extended(Empty(e), e)) else None)
  }

  function Advance(p: Progress, e: Event): Progress {
    if p.open.Some? && SameGroup(p.open.value.first, e) then p.(open := Some(Extended(p.open.value, e)))
    else Begin(Closed(p), e)
  }

  function AdvanceAll(p: Progress, events: seq<Event>): Progress {
    if events == [] then p else Advance(AdvanceAll(p, events[..|events| - 1]), events[|events| - 1])
  }

  const NOTHING := Progress([], false, None)

  function Rebuilt(events: seq<Event>): seq<Output> {
    Closed(AdvanceAll(NOTHING, events)).outs
  }

  lemma AdvanceNext(events: seq<Event>, position: nat)
    requires position < |events|
    ensures AdvanceAll(NOTHING, events[..position + 1]) == Advance(AdvanceAll(NOTHING, events[..position]), events[position])
  {
    assert events[..position + 1][..position] == events[..position];
  }

  /** The event at a position either continues the open group or starts afresh. */
  predicate Between(p: Progress, outs: seq<Output>, pendingClear: bool) {
    Closed(p) == Progress(outs, pendingClear, None)
  }

  predicate Fresh(p: Progress, events: seq<Event>, position: nat) {
    position < |events| && p.open.Some? ==> !SameGroup(p.open.value.first, events[position])
  }

  lemma GroupStarts(p: Progress, e: Event)
    requires Grouped(e) && !Skipped(e) && (p.open.Some? ==> !SameGroup(p.open.value.first, e))
    ensures Advance(p, e) == Progress(if p.pendingClear then [] else Closed(p).outs, false, Some(Extended(Empty(e), e)))
  {
  }

  lemma GroupGoesOn(outs: seq<Output>, g: Group, e: Event)
    requires SameGroup(g.first, e)
    ensures Advance(Progress(outs, false, Some(g)), e) == Progress(outs, false, Some(Extended(g, e)))
  {
  }

  /** Where the loop is inside a group: nothing collected yet, or the group is what the events so far leave open. */
  predicate Collecting(events: seq<Event>, start: nat, position: nat, outs: seq<Output>, g: Group)
    requires start <= position <= |events| && start < |events|
  {
    if position == start then
      g == Empty(events[start]) && outs == Cleared(AdvanceAll(NOTHING, events[..start]))
    else AdvanceAll(NOTHING, events[..position]) == Progress(outs, false, Some(g))
  }

  /** The outputs when a new one is about to be placed. */
  function Cleared(p: Progress): seq<Output> {
    if p.pendingClear then [] else Closed(p).outs
  }

  lemma CollectNext(events: seq<Event>, start: nat, position: nat, outs: seq<Output>, g: Group)
    requires start <= position < |events| && Collecting(events, start, position, outs, g)
    requires Grouped(events[start]) && !Skipped(events[start]) && Fresh(AdvanceAll(NOTHING, events[..start]), events, start)
    requires g.first == Empty(events[start]).first && SameGroup(events[start], events[position])
    ensures Collecting(events, start, position + 1, outs, Extended(g, events[position]))
  {
    AdvanceNext(events, position);
    if position == start {
      GroupStarts(AdvanceAll(NOTHING, events[..start]), events[start]);
    } else {
      GroupGoesOn(outs, g, events[position]);
    }
  }

  /** One inner loop: collect the group that starts at a position. */
  method Collect(events: seq<Event>, start: nat) returns (position: nat, g: Group)
    requires start < |events| && Grouped(events[start]) && !Skipped(events[start])
    requires Fresh(AdvanceAll(NOTHING, events[..start]), events, start)
    ensures start < position <= |events|
    ensures AdvanceAll(NOTHING, events[..position]) == Progress(Cleared(AdvanceAll(NOTHING, events[..start])), false, Some(g))
    ensures position < |events| ==> !SameGroup(g.first, events[position])
  {
    var event := events[start];
    g, position := Empty(event), start;
    ghost var outs := Cleared(AdvanceAll(NOTHING, events[..start]));
    while position < |events| && SameGroup(event, events[position])
      invariant start <= position <= |events|
      invariant Collecting(events, start, position, outs, g)
      invariant g.first == Empty(event).first
    {
      CollectNext(events, start, position, outs, g);
      var current := events[position];
      var name := Or(current.errorName, g.errorName);
      var value := Or(current.errorValue, g.errorValue);
      var lines := if current.traceback.Some? then current.traceback.value else g.traceback;
      var artifact := if current.artifact.Some? then current.artifact else g.artifact;
      g := Group(g.first, g.text + TextOf(current), name, value, lines, artifact);
      position := position + 1;
    }
  }

  /** The reversed search for the output an update replaces. */
  method Replace(outs: seq<Output>, output: Output) returns (result: seq<Output>)
    requires output.DisplayOutput?
    ensures result == Replaced(outs, output)
  {
    var index := |outs| - 1;
    while index >= 0
      invariant -1 <= index < |outs|
      invariant forall k :: index < k < |outs| ==> !Shows(outs[k], output.displayId)
    {
      if Shows(outs[index], output.displayId) {
        ReplacedAt(outs, output, index);
        return outs[index := output];
      }
      index := index - 1;
    }
    NotReplaced(outs, output);
    return outs + [output];
  }

  lemma {:induction false} ReplacedAt(outs: seq<Output>, output: Output, index: nat)
    requires output.DisplayOutput? && index < |outs| && Shows(outs[index], output.displayId)
    requires forall k :: index < k < |outs| ==> !Shows(outs[k], output.displayId)
    ensures Replaced(outs, output) == outs[index := output]
    decreases |outs|
  {
    var n := |outs| - 1;
    if index < n {
      assert outs[index] in outs;
      ReplacedAt(outs[..n], output, index);
      assert outs[..n][index := output] + [outs[n]] == outs[index := output];
    }
  }

  lemma NotReplaced(outs: seq<Output>, output: Output)
    requires output.DisplayOutput?
    requires forall k :: 0 <= k < |outs| ==> !Shows(outs[k], output.displayId)
    ensures Replaced(outs, output) == outs + [output]
  {
  }

  /** _notebook_outputs */
  method NotebookOutputs(events: seq<Event>) returns (outputs: seq<Output>)
    ensures outputs == Rebuilt(events)
    ensures forall k :: 0 <= k < |events| && IsClear(events[k], false) && AllQuiet(events[k + 1..]) ==> outputs == []
    ensures forall k :: 0 <= k < |events| && IsClear(events[k], true) && AllQuiet(events[k + 1..]) ==> outputs == Rebuilt(events[..k])
  {
    outputs := [];
    var pendingClear, position := false, 0;
    assert events[..0] == [];
    while position < |events|
      invariant position <= |events|
      invariant Between(AdvanceAll(NOTHING, events[..position]), outputs, pendingClear)
      invariant Fresh(AdvanceAll(NOTHING, events[..position]), events, position)
      decreases |events| - position
    {
      var event := events[position];
      AdvanceNext(events, position);
      if Skipped(event) {
        position := position + 1;
      } else if event.kind == ClearEvent {
        if event.wait {
          pendingClear := true;
        } else {
          outputs, pendingClear := [], false;
        }
        position := position + 1;
      } else {
        if Grouped(event) {
          var next, g := Collect(events, position);
          if pendingClear {
            outputs, pendingClear := [], false;
          }
          if Updates(g) {
            outputs := Replace(outputs, OutputOf(g));
          } else {
            outputs := outputs + [OutputOf(g)];
          }
          position := next;
        } else {
          if pendingClear {
            outputs, pendingClear := [], false;
          }
          position := position + 1;
        }
      }
    }
    assert events[..position] == events;
    forall k | 0 <= k < |events| && (IsClear(events[k], false) || IsClear(events[k], true)) && AllQuiet(events[k + 1..])
      ensures outputs == if events[k].wait then Rebuilt(events[..k]) else []
    {
      ClearLast(events, k);
    }
  }

  lemma ClearLast(events: seq<Event>, k: nat)
    requires k < |events| && AllQuiet(events[k + 1..])
    requires IsClear(events[k], false) || IsClear(events[k], true)
    ensures Rebuilt(events) == if events[k].wait then Rebuilt(events[..k]) else []
  {
    assert events == events[..k] + [events[k]] + events[k + 1..];
    if events[k].wait {
      DeferredClearWaits(events[..k], events[k], events[k + 1..]);
    } else {
      ClearForgets(events[..k], events[k], events[k + 1..]);
    }
  }

  // ---------------------------------------------------------------- chunk invariance

  /** A stream, error or artifact-free display event: what the store may cut into chunks. */
  predicate Chunkable(e: Event) {
    Grouped(e) && e.artifact.None?
  }

  function Continuation(e: Event): Event {
    e.(errorName := None, errorValue := None, traceback := None)
  }

  function JoinTexts(es: seq<Event>): Bytes {
    if es == [] then [] else JoinTexts(es[..|es| - 1]) + TextOf(es[|es| - 1])
  }

  predicate SameButText(e: Event, f: Event) {
    e.(text := None) == f.(text := None)
  }

  /** es are like e but for their texts, with error details on the first only. */
  predicate PiecesOf(e: Event, es: seq<Event>) {
    && es != [] && SameButText(es[0], e)
    && forall k :: 0 < k < |es| ==> SameButText(es[k], Continuation(e))
  }

  /** es are consecutive chunks of e's text. */
  predicate ChunksOf(e: Event, es: seq<Event>) {
    Chunkable(e) && PiecesOf(e, es) && JoinTexts(es) == TextOf(e)
  }

  /** After the first chunks the loop is where it would be after one event with their joined text. */
  lemma {:induction false} ChunksAdvance(p: Progress, e: Event, es: seq<Event>)
    requires Chunkable(e) && PiecesOf(e, es)
    ensures AdvanceAll(p, es) == Advance(p, e.(text := Some(JoinTexts(es))))
    decreases |es|
  {
    var n := |es| - 1;
    if n == 0 {
      assert es[..0] == [];
      assert JoinTexts(es) == TextOf(es[0]);
      SameTextAdvance(p, es[0], e.(text := Some(TextOf(es[0]))));
    } else {
      ChunksAdvance(p, e, es[..n]);
      var head := JoinTexts(es[..n]);
      assert JoinTexts(es) == head + TextOf(es[n]);
      ContinuationAdvance(p, e, head, es[n]);
    }
  }

  lemma SameTextAdvance(p: Progress, e: Event, f: Event)
    requires SameButText(e, f) && TextOf(e) == TextOf(f)
    ensures Advance(p, e) == Advance(p, f)
  {
  }

  lemma ContinuationAdvance(p: Progress, e: Event, head: Bytes, c: Event)
    requires Chunkable(e) && SameButText(c, Continuation(e))
    ensures Advance(Advance(p, e.(text := Some(head))), c) == Advance(p, e.(text := Some(head + TextOf(c))))
  {
    var q := Advance(p, e.(text := Some(head)));
    assert q.open.Some? && SameGroup(q.open.value.first, c);
    assert q.open.value.text + TextOf(c)
           == (if p.open.Some? && SameGroup(p.open.value.first, e) then p.open.value.text else []) + (head + TextOf(c));
  }

  lemma {:induction false} AdvanceAllAppend(p: Progress, xs: seq<Event>, ys: seq<Event>)
    ensures AdvanceAll(p, xs + ys) == AdvanceAll(AdvanceAll(p, xs), ys)
    decreases |ys|
  {
    if ys == [] {
      assert xs + ys == xs;
    } else {
      var n := |ys| - 1;
      assert (xs + ys)[..|xs + ys| - 1] == xs + ys[..n];
      AdvanceAllAppend(p, xs, ys[..n]);
    }
  }

  /** ys is xs with any of its events cut into chunks. */
  ghost predicate Chunking(xs: seq<Event>, ys: seq<Event>)
    decreases |xs|
  {
    if xs == [] then ys == []
    else
      var last, init := xs[|xs| - 1], xs[..|xs| - 1];
      exists k: nat :: ChunkedFrom(last, ys, k) && Chunking(init, ys[..k])
  }

  predicate ChunkedFrom(e: Event, ys: seq<Event>, k: nat) {
    k <= |ys| && StandsFor(e, ys[k..])
  }

  /** es are e, or chunks of e. */
  predicate StandsFor(e: Event, es: seq<Event>) {
    es == [e] || ChunksOf(e, es)
  }

  lemma StandsForAdvance(p: Progress, e: Event, es: seq<Event>)
    requires StandsFor(e, es)
    ensures AdvanceAll(p, es) == Advance(p, e)
  {
    if es == [e] {
      assert [e][..0] == [];
    } else {
      ChunksAdvance(p, e, es);
      SameTextAdvance(p, e, e.(text := Some(JoinTexts(es))));
    }
  }

  lemma LastCut(xs: seq<Event>, ys: seq<Event>) returns (head: seq<Event>, tail: seq<Event>)
    requires Chunking(xs, ys) && xs != []
    ensures ys == head + tail && StandsFor(xs[|xs| - 1], tail) && Chunking(xs[..|xs| - 1], head)
  {
    var last, init := xs[|xs| - 1], xs[..|xs| - 1];
    var k: nat :| ChunkedFrom(last, ys, k) && Chunking(init, ys[..k]);
    head, tail := ys[..k], ys[k..];
  }

  lemma AdvancesMore(p: Progress, xs: seq<Event>, ys: seq<Event>, head: seq<Event>, tail: seq<Event>)
    requires xs != [] && AdvanceAll(p, xs[..|xs| - 1]) == AdvanceAll(p, head)
    requires ys == head + tail && StandsFor(xs[|xs| - 1], tail)
    ensures AdvanceAll(p, xs) == AdvanceAll(p, ys)
  {
    AdvanceAllAppend(p, head, tail);
    StandsForAdvance(AdvanceAll(p, head), xs[|xs| - 1], tail);
  }

  lemma {:induction false} ChunkingAdvances(p: Progress, xs: seq<Event>, ys: seq<Event>)
    requires Chunking(xs, ys)
    ensures AdvanceAll(p, xs) == AdvanceAll(p, ys)
    decreases |xs|
  {
    if xs != [] {
      var n := |xs| - 1;
      var head, tail := LastCut(xs, ys);
      ChunkingAdvances(p, xs[..n], head);
      AdvancesMore(p, xs, ys, head, tail);
    }
  }

  /** How finely the store cut its texts never shows in the notebook, around clears and display updates alike. */
  lemma ChunkInvariance(xs: seq<Event>, ys: seq<Event>)
    requires Chunking(xs, ys)
    ensures Rebuilt(xs) == Rebuilt(ys)
  {
    ChunkingAdvances(NOTHING, xs, ys);
  }

  // ---------------------------------------------------------------- what clears and outputs do, event by event

  predicate IsClear(e: Event, wait: bool) {
    e.kind == ClearEvent && e.wait == wait && e.artifact != Some(CompleteText)
  }

  /** Shows nothing: skipped, or a clear that waits for the next output. */
  predicate Quiet(e: Event) {
    e.kind == ArtifactEvent || e.artifact == Some(CompleteText) || (e.kind == ClearEvent && e.wait)
  }

  predicate AllQuiet(es: seq<Event>) {
    forall e <- es :: Quiet(e)
  }

  lemma AdvanceLast(p: Progress, es: seq<Event>, e: Event)
    ensures AdvanceAll(p, es + [e]) == Advance(AdvanceAll(p, es), e)
  {
    assert (es + [e])[..|es|] == es;
  }

  /** After an immediate clear the notebook is what the events behind it make of an empty one. */
  lemma ClearForgets(before: seq<Event>, c: Event, after: seq<Event>)
    requires IsClear(c, false)
    ensures Rebuilt(before + [c] + after) == Rebuilt(after)
    ensures AllQuiet(after) ==> Rebuilt(before + [c] + after) == []
  {
    AdvanceLast(NOTHING, before, c);
    AdvanceAllAppend(NOTHING, before + [c], after);
    if AllQuiet(after) {
      StaysQuiet([], false, after);
    }
  }

  /** Quiet events change no output and open no group. */
  lemma {:induction false} StaysQuiet(outs: seq<Output>, pending: bool, es: seq<Event>)
    requires AllQuiet(es)
    ensures var p := AdvanceAll(Progress(outs, pending, None), es);
            p.outs == outs && p.open.None? && (pending ==> p.pendingClear)
    decreases |es|
  {
    if es != [] {
      assert es[|es| - 1] in es && forall e <- es[..|es| - 1] :: e in es;
      StaysQuiet(outs, pending, es[..|es| - 1]);
    }
  }

  /** Once something is shown after a deferred clear, what was there before makes no difference. */
  lemma {:induction false} ForgetsWhenShown(outs: seq<Output>, es: seq<Event>)
    requires !AllQuiet(es)
    ensures AdvanceAll(Progress(outs, true, None), es) == AdvanceAll(NOTHING, es)
    decreases |es|
  {
    var n := |es| - 1;
    if AllQuiet(es[..n]) {
      StaysQuiet(outs, true, es[..n]);
      StaysQuiet([], false, es[..n]);
      assert es == es[..n] + [es[n]];
      assert !Quiet(es[n]);
    } else {
      ForgetsWhenShown(outs, es[..n]);
    }
  }

  /** A deferred clear alone changes nothing; the next output, or an immediate clear, removes all that was there. */
  lemma DeferredClearWaits(before: seq<Event>, d: Event, after: seq<Event>)
    requires IsClear(d, true)
    ensures Rebuilt(before + [d] + after) == if AllQuiet(after) then Rebuilt(before) else Rebuilt(after)
  {
    var outs := Rebuilt(before);
    AdvanceLast(NOTHING, before, d);
    AdvanceAllAppend(NOTHING, before + [d], after);
    assert AdvanceAll(NOTHING, before + [d]) == Progress(outs, true, None);
    if AllQuiet(after) {
      StaysQuiet(outs, true, after);
    } else {
      ForgetsWhenShown(outs, after);
    }
  }

  /** A deferred clear is waiting: nothing was shown since. */
  ghost predicate ClearWaits(es: seq<Event>) {
    exists k :: 0 <= k < |es| && ClearWaitsAt(es, k)
  }

  ghost predicate ClearWaitsAt(es: seq<Event>, k: nat)
    requires k < |es|
  {
    IsClear(es[k], true) && AllQuiet(es[k + 1..])
  }

  lemma {:induction false} PendingMeans(es: seq<Event>)
    ensures AdvanceAll(NOTHING, es).pendingClear <==> ClearWaits(es)
    ensures AdvanceAll(NOTHING, es).pendingClear ==> AdvanceAll(NOTHING, es).open.None?
    decreases |es|
  {
    if es != [] {
      var n := |es| - 1;
      PendingMeans(es[..n]);
      WaitsMore(es[..n], es[n]);
      assert es == es[..n] + [es[n]];
    }
  }

  lemma QuietMore(es: seq<Event>, e: Event)
    ensures AllQuiet(es + [e]) <==> AllQuiet(es) && Quiet(e)
  {
    assert e in es + [e] && forall x <- es :: x in es + [e];
  }

  lemma WaitsMore(es: seq<Event>, e: Event)
    ensures ClearWaits(es + [e]) <==> IsClear(e, true) || (Quiet(e) && ClearWaits(es))
  {
    var more := es + [e];
    assert more[|es| + 1..] == [];
    forall k | 0 <= k < |es| ensures ClearWaitsAt(more, k) <==> ClearWaitsAt(es, k) && Quiet(e) {
      assert more[k + 1..] == es[k + 1..] + [e];
      QuietMore(es[k + 1..], e);
    }
    assert IsClear(e, true) ==> ClearWaitsAt(more, |es|);
    if ClearWaits(es) && Quiet(e) {
      var k :| 0 <= k < |es| && ClearWaitsAt(es, k);
      assert ClearWaitsAt(more, k);
    }
    if ClearWaits(more) {
      var k :| 0 <= k < |more| && ClearWaitsAt(more, k);
      assert k < |es| ==> ClearWaitsAt(es, k);
    }
  }

  /** What the notebook shows of one stream, error or display that stands alone. */
  predicate ShowsAlone(e: Event, o: Output) {
    match e.kind
    case StreamEvent => o.StreamOutput? && o.text == TextOf(e) && (if IsPresent(e.stream) then Some(o.name) == e.stream else o.name == "stdout")
    case ErrorEvent =>
      && o.ErrorOutput?
      && (if IsPresent(e.errorName) then Some(o.name) == e.errorName else o.name == "Error")
      && (if IsPresent(e.errorValue) then Some(o.value) == e.errorValue else o.value == "")
      && (if e.traceback.Some? && e.traceback.value != [] then o.traceback == Listed(e.traceback.value)
          else if TextOf(e) != [] then o.traceback == SplitLines(TextOf(e))
          else o.traceback == Listed([]))
    case DisplayEvent(of) =>
      && o.DisplayOutput? && (o.isResult <==> of == ExecuteResult)
      && o.metadata == e.metadata && (of == ExecuteResult ==> o.count == e.executionCount)
      && (if IsPresent(e.displayId) then o.displayId == e.displayId else o.displayId.None?)
      && (if !IsPresent(e.mime) then o.data.None?
          else o.data == Some((e.mime.value,
                               if e.artifact.Some? then FromArtifact(e.artifact.value)
                               else if IsJson(e.mime.value) then Parsed(TextOf(e)) else Plain(TextOf(e)))))
    case _ => false
  }

  /**
   A stream, error or display after something of another kind is shown as a new output behind the
   others, or alone where a deferred clear was waiting; an update of a display that is there replaces it.
   */
  lemma NewOutputIsShown(es: seq<Event>, e: Event) returns (o: Output)
    requires Grouped(e) && e.artifact != Some(CompleteText)
    requires es == [] || es[|es| - 1].kind != e.kind
    ensures ShowsAlone(e, o)
    ensures var there := if ClearWaits(es) then [] else Rebuilt(es);
            var updates := e.kind == DisplayEvent(UpdateDisplayData) && IsPresent(e.displayId);
            Rebuilt(es + [e]) == if updates then Replaced(there, o) else there + [o]
  {
    var p := AdvanceAll(NOTHING, es);
    AdvanceLast(NOTHING, es, e);
    PendingMeans(es);
    OpenIsLast(es);
    o := OutputOf(Extended(Empty(e), e));
    assert Empty(e).text + TextOf(e) == TextOf(e);
    GroupStarts(p, e);
  }

  /** An open group is of the kind of the last event. */
  lemma {:induction false} OpenIsLast(es: seq<Event>)
    ensures var p := AdvanceAll(NOTHING, es);
            p.open.Some? ==> es != [] && p.open.value.first.kind == es[|es| - 1].kind
    decreases |es|
  {
    if es != [] {
      OpenIsLast(es[..|es| - 1]);
    }
  }

  lemma SameStreamPlaced(outs: seq<Output>, g: Group, h: Group)
    requires g.first.kind == StreamEvent && h.first.kind == StreamEvent && g.text == h.text
    requires Or(g.first.stream, "stdout") == Or(h.first.stream, "stdout")
    ensures Placed(outs, g) == Placed(outs, h)
  {
  }

  lemma Associates(a: Bytes, b: Bytes, c: Bytes)
    ensures a + b + c == a + (b + c)
  {
  }

  lemma StreamsMergeBehind(p: Progress, e: Event, f: Event, both: Event)
    requires e.kind == StreamEvent && f.kind == StreamEvent && Or(f.stream, "stdout") == Or(e.stream, "stdout")
    requires e.artifact.None? && f.artifact.None? && both == e.(text := Some(TextOf(e) + TextOf(f)))
    ensures Closed(Advance(Advance(p, e), f)).outs == Closed(Advance(p, both)).outs
  {
    if p.open.Some? && SameGroup(p.open.value.first, e) {
      var g := p.open.value;
      Associates(g.text, TextOf(e), TextOf(f));
      SameStreamPlaced(p.outs, Extended(Extended(g, e), f), Extended(g, both));
    } else {
      GroupStarts(p, e);
      GroupStarts(p, both);
      var g, outs := Extended(Empty(e), e), if p.pendingClear then [] else Closed(p).outs;
      GroupGoesOn(outs, g, f);
      Associates([], TextOf(e), TextOf(f));
      SameStreamPlaced(outs, Extended(g, f), Extended(Empty(both), both));
    }
  }

  /** Text to one stream directly behind text to the same stream is one output. */
  lemma StreamsMerge(es: seq<Event>, e: Event, f: Event)
    requires e.kind == StreamEvent && f.kind == StreamEvent && Or(f.stream, "stdout") == Or(e.stream, "stdout")
    requires e.artifact.None? && f.artifact.None?
    ensures Rebuilt(es + [e] + [f]) == Rebuilt(es + [e.(text := Some(TextOf(e) + TextOf(f)))])
  {
    var both := e.(text := Some(TextOf(e) + TextOf(f)));
    AdvanceLast(NOTHING, es, e);
    AdvanceLast(NOTHING, es + [e], f);
    AdvanceLast(NOTHING, es, both);
    StreamsMergeBehind(AdvanceAll(NOTHING, es), e, f, both);
  }
}
