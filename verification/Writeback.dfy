/** Notebook writeback reads stored rows; how the store cut their texts makes no difference to it. */
module Writeback {
  import opened Wrappers
  import opened KernelProof
  import opened Spool
  import opened EndToEnd
  import opened Lifecycle
  import opened Outputs
  import opened KernelWorker
  import opened WorkerRuns
  import Notebook
  import Utf8

  function KindOf(kind: Kind): Notebook.EventKind {
    match kind
    case Stream => Notebook.StreamEvent
    case ErrorReport => Notebook.ErrorEvent
    case ClearOutput => Notebook.ClearEvent
    case DisplayData => Notebook.DisplayEvent(kind)
    case ExecuteResult => Notebook.DisplayEvent(kind)
    case UpdateDisplayData => Notebook.DisplayEvent(kind)
    case OtherKind => Notebook.ArtifactEvent
    case _ => Notebook.OtherEvent
  }

  /** The wire form of a row with the given text; only rows without text refer to artifacts. */
  function EventFor(info: Info, text: Option<Bytes>, artifact: Option<Notebook.Artifact>): Notebook.Event {
    Notebook.Event(
      KindOf(info.kind), text, info.stream, info.wait,
      if info.error.Some? then Some(info.error.value.name) else None,
      if info.error.Some? then Some(info.error.value.value) else None,
      if info.error.Some? then Some(info.error.value.traceback) else None,
      info.mime, info.displayId, artifact, None, None)
  }

  function RowEvent(file: Bytes, row: Row, artifacts: Info -> Option<Notebook.Artifact>): Notebook.Event {
    if row.range.Some? then EventFor(row.info, Some(RowText(file, row)), None)
    else EventFor(row.info, None, artifacts(row.info))
  }

  function RowEvents(file: Bytes, rows: seq<Row>, artifacts: Info -> Option<Notebook.Artifact>): seq<Notebook.Event> {
    seq(|rows|, i requires 0 <= i < |rows| => RowEvent(file, rows[i], artifacts))
  }

  function ItemEvent(item: Item, artifacts: Info -> Option<Notebook.Artifact>): Notebook.Event {
    match item
    case TextItem(info, text) => EventFor(info, Some(text), None)
    case PlainItem(info) => EventFor(info, None, artifacts(info))
  }

  function ItemEvents(items: seq<Item>, artifacts: Info -> Option<Notebook.Artifact>): seq<Notebook.Event> {
    seq(|items|, i requires 0 <= i < |items| => ItemEvent(items[i], artifacts))
  }

  /** Texts of the kinds the store spools. */
  predicate Spoolable(info: Info) {
    info.kind.Stream? || info.kind.ErrorReport? || info.kind.DisplayData? || info.kind.ExecuteResult? || info.kind.UpdateDisplayData?
  }

  lemma {:induction false} RowInfo(info: Info, chunks: seq<Bytes>, offset: nat, k: nat)
    requires k < |chunks|
    ensures |RowsFor(info, chunks, offset)| == |chunks|
    ensures RowsFor(info, chunks, offset)[k] == Row(if k == 0 then info else Continued(info), Some((offset + Total(chunks[..k]), |chunks[k]|)))
    decreases |chunks|
  {
    if k == 0 {
      RowCount(info, chunks, offset);
      assert chunks[..0] == [];
    } else {
      RowInfo(Continued(info), chunks[1..], offset + |chunks[0]|, k - 1);
      assert chunks[..k][1..] == chunks[1..][..k - 1];
      assert RowsFor(info, chunks, offset)[k] == RowsFor(Continued(info), chunks[1..], offset + |chunks[0]|)[k - 1];
    }
  }

  lemma {:induction false} RowCount(info: Info, chunks: seq<Bytes>, offset: nat)
    ensures |RowsFor(info, chunks, offset)| == |chunks|
    decreases |chunks|
  {
    if chunks != [] {
      RowCount(Continued(info), chunks[1..], offset + |chunks[0]|);
    }
  }

  lemma {:induction false} JoinedTexts(file: Bytes, es: seq<Notebook.Event>, chunks: seq<Bytes>)
    requires |es| == |chunks|
    requires forall k :: 0 <= k < |es| ==> Notebook.TextOf(es[k]) == chunks[k]
    ensures Notebook.JoinTexts(es) == Utf8.Flatten(chunks)
    decreases |es|
  {
    if es != [] {
      JoinedTexts(file, es[..|es| - 1], chunks[..|chunks| - 1]);
    }
  }

  /** A chunk starts where the chunks before it end. */
  lemma {:induction false} ChunkText(text: Bytes, chunks: seq<Bytes>, k: nat)
    requires Utf8.Flatten(chunks) == text && k < |chunks|
    ensures Total(chunks[..k]) + |chunks[k]| <= |text|
    ensures text[Total(chunks[..k])..Total(chunks[..k]) + |chunks[k]|] == chunks[k]
    decreases |chunks|
  {
    var n := |chunks| - 1;
    var init := chunks[..n];
    FlattenSize(init);
    assert text == Utf8.Flatten(init) + chunks[n];
    if k < n {
      ChunkText(Utf8.Flatten(init), init, k);
      assert init[..k] == chunks[..k];
    } else {
      assert chunks[..k] == init;
    }
  }

  lemma SliceOfSlice(file: Bytes, offset: nat, text: Bytes, from: nat, length: nat)
    requires offset + |text| <= |file| && file[offset..offset + |text|] == text
    requires from + length <= |text|
    ensures file[offset + from..offset + from + length] == text[from..from + length]
  {
    var slice := file[offset + from..offset + from + length];
    forall k | 0 <= k < length ensures slice[k] == text[from + k] {
      assert slice[k] == file[offset..offset + |text|][from + k];
    }
  }

  lemma RowEventIsChunk(file: Bytes, info: Info, text: Bytes, chunks: seq<Bytes>, offset: nat, k: nat, artifacts: Info -> Option<Notebook.Artifact>)
    requires Utf8.Flatten(chunks) == text && k < |chunks|
    requires offset + |text| <= |file| && file[offset..offset + |text|] == text
    ensures k < |RowsFor(info, chunks, offset)|
    ensures RowEvent(file, RowsFor(info, chunks, offset)[k], artifacts)
            == EventFor(if k == 0 then info else Continued(info), Some(chunks[k]), None)
  {
    RowInfo(info, chunks, offset, k);
    ChunkText(text, chunks, k);
    SliceOfSlice(file, offset, text, Total(chunks[..k]), |chunks[k]|);
  }

  /** The stored rows of one text are chunks of it, in the sense in which the notebook ignores chunking. */
  lemma StoredRowsAreChunks(file: Bytes, info: Info, text: Bytes, chunks: seq<Bytes>, offset: nat, artifacts: Info -> Option<Notebook.Artifact>)
    requires Spoolable(info) && chunks != [] && Utf8.Flatten(chunks) == text
    requires offset + |text| <= |file| && file[offset..offset + |text|] == text
    ensures Notebook.ChunksOf(EventFor(info, Some(text), None), RowEvents(file, RowsFor(info, chunks, offset), artifacts))
  {
    var es := RowEvents(file, RowsFor(info, chunks, offset), artifacts);
    RowCount(info, chunks, offset);
    forall k | 0 <= k < |es|
      ensures es[k] == EventFor(if k == 0 then info else Continued(info), Some(chunks[k]), None)
    {
      RowEventIsChunk(file, info, text, chunks, offset, k, artifacts);
    }
    JoinedTexts(file, es, chunks);
  }

  lemma ChunkingMore(xs: seq<Notebook.Event>, ys: seq<Notebook.Event>, e: Notebook.Event, es: seq<Notebook.Event>)
    requires Notebook.Chunking(xs, ys) && Notebook.StandsFor(e, es)
    ensures Notebook.Chunking(xs + [e], ys + es)
  {
    assert (xs + [e])[..|xs|] == xs;
    assert (ys + es)[|ys|..] == es && (ys + es)[..|ys|] == ys;
    assert Notebook.ChunkedFrom(e, ys + es, |ys|);
  }

  lemma RowEventsAppend(file: Bytes, xs: seq<Row>, ys: seq<Row>, artifacts: Info -> Option<Notebook.Artifact>)
    ensures RowEvents(file, xs + ys, artifacts) == RowEvents(file, xs, artifacts) + RowEvents(file, ys, artifacts)
  {
  }

  predicate AllSpoolable(items: seq<Item>) {
    forall item <- items :: item.TextItem? ==> Spoolable(item.info)
  }

  /** The rows of one item stand for the item. */
  lemma RowsOfItem(file: Bytes, before: seq<Row>, from: nat, item: Item, rows: seq<Row>, size: nat, artifacts: Info -> Option<Notebook.Artifact>)
    returns (es: seq<Notebook.Event>)
    requires Adds(file, before, from, item, rows, size) && (item.TextItem? ==> Spoolable(item.info))
    ensures Notebook.StandsFor(ItemEvent(item, artifacts), es)
    ensures RowEvents(file, rows, artifacts) == RowEvents(file, before, artifacts) + es
  {
    match item {
      case PlainItem(info) =>
        es := [EventFor(info, None, artifacts(info))];
        assert RowEvents(file, [Row(info, None)], artifacts) == es;
        RowEventsAppend(file, before, [Row(info, None)], artifacts);
      case TextItem(info, text) =>
        var chunks :| IndexedAs(info, text, before, from, rows, chunks);
        es := RowEvents(file, RowsFor(info, chunks, from), artifacts);
        StoredRowsAreChunks(file, info, text, chunks, from, artifacts);
        RowEventsAppend(file, before, RowsFor(info, chunks, from), artifacts);
    }
  }

  lemma ItemEventsLast(items: seq<Item>, artifacts: Info -> Option<Notebook.Artifact>)
    requires items != []
    ensures var n := |items| - 1; ItemEvents(items, artifacts) == ItemEvents(items[..n], artifacts) + [ItemEvent(items[n], artifacts)]
  {
  }

  lemma {:induction false} HeldChunking(file: Bytes, rows: seq<Row>, size: nat, items: seq<Item>, artifacts: Info -> Option<Notebook.Artifact>)
    requires Holds(file, rows, size, items) && AllSpoolable(items)
    ensures Notebook.Chunking(ItemEvents(items, artifacts), RowEvents(file, rows, artifacts))
    decreases |items|
  {
    if items == [] {
      HoldsNothing(file, rows, size);
    } else {
      var n := |items| - 1;
      ItemEventsLast(items, artifacts);
      var before, from := HoldsLast(file, rows, size, items);
      HeldChunking(file, before, from, items[..n], artifacts);
      var es := RowsOfItem(file, before, from, items[n], rows, size, artifacts);
      ChunkingMore(ItemEvents(items[..n], artifacts), RowEvents(file, before, artifacts), ItemEvent(items[n], artifacts), es);
    }
  }

  /** A notebook rebuilt from the stored rows is the notebook rebuilt from the uncut output. */
  lemma WritebackIgnoresChunking(file: Bytes, rows: seq<Row>, size: nat, items: seq<Item>, artifacts: Info -> Option<Notebook.Artifact>)
    requires Holds(file, rows, size, items) && AllSpoolable(items)
    ensures Notebook.Rebuilt(RowEvents(file, rows, artifacts)) == Notebook.Rebuilt(ItemEvents(items, artifacts))
  {
    HeldChunking(file, rows, size, items, artifacts);
    Notebook.ChunkInvariance(ItemEvents(items, artifacts), RowEvents(file, rows, artifacts));
  }

  lemma AllSpoolableAppend(xs: seq<Item>, ys: seq<Item>)
    requires AllSpoolable(xs) && AllSpoolable(ys)
    ensures AllSpoolable(xs + ys)
  {
  }

  lemma {:induction false} DisplaySpoolable(kind: Kind, representations: seq<(string, Bytes)>, displayId: Option<string>)
    requires kind.DisplayData? || kind.ExecuteResult? || kind.UpdateDisplayData?
    ensures AllSpoolable(DisplayItems(kind, representations, displayId))
  {
    if representations != [] {
      DisplaySpoolable(kind, representations[1..], displayId);
    }
  }

  /** Whatever the kernel sends, only streams, errors and displays put text in the spool. */
  lemma {:induction false} StoredIsSpoolable(events: seq<KernelEvent>)
    ensures AllSpoolable(ItemsOfAll(StoredAll(events)))
  {
    if events != [] {
      StoredIsSpoolable(events[1..]);
      var o := Normalize(events[0]);
      if o.Some? {
        assert StoredAll(events)[1..] == StoredAll(events[1..]);
        if o.value.DisplayOutput? {
          DisplaySpoolable(o.value.kind, o.value.representations, o.value.displayId);
        }
        AllSpoolableAppend(ItemsOf(o.value), ItemsOfAll(StoredAll(events[1..])));
      } else {
        assert StoredAll(events) == StoredAll(events[1..]);
      }
    }
  }

  /** The row of a promoted artifact is skipped, wherever a deferred clear or a group stands. */
  lemma ArtifactIsSkipped(events: seq<Notebook.Event>, e: Notebook.Event)
    requires e.kind == Notebook.ArtifactEvent
    ensures Notebook.Rebuilt(events + [e]) == Notebook.Rebuilt(events)
  {
    assert (events + [e])[..|events|] == events;
  }

  /** So it makes no difference whether finalization added it. */
  lemma SpooledRebuilds(x: Exec, items: seq<Item>, artifacts: Info -> Option<Notebook.Artifact>)
    requires IsSpooled(x, items)
    ensures Notebook.Rebuilt(ItemEvents(items, artifacts)) == Notebook.Rebuilt(ItemEvents(ItemsOfAll(x.world.rec.outputs), artifacts))
  {
    var stored := ItemsOfAll(x.world.rec.outputs);
    if items != stored {
      ItemEventsLast(items, artifacts);
      assert items[..|items| - 1] == stored;
      ArtifactIsSkipped(ItemEvents(stored, artifacts), ItemEvent(PlainItem(ARTIFACT_ROW.info), artifacts));
    }
  }

  // ---------------------------------------------------------------- from messages to the notebook

  /** A notebook event of which only the kind is known. */
  function Blank(kind: Notebook.EventKind): Notebook.Event {
    Notebook.Event(kind, None, None, false, None, None, None, None, None, None, None, None)
  }

  /** A display with its representations: text up to 32 KiB stands in the event, anything else in an artifact. */
  function ShownAs(k: Kind, representations: seq<(string, Bytes)>, displayId: Option<string>, artifacts: Info -> Option<Notebook.Artifact>)
    : seq<Notebook.Event>
  {
    if representations == [] then []
    else
      var (mime, value) := representations[0];
      var event := Blank(Notebook.DisplayEvent(k)).(mime := Some(mime), displayId := displayId);
      [if IsTextMime(mime) && |value| <= 32768 then event.(text := Some(value))
       else event.(artifact := artifacts(Info(k, None, Some(mime), displayId, false, None)))]
      + ShownAs(k, representations[1..], displayId, artifacts)
  }

  /** What a message tells the notebook, by its fields and uncut. */
  function Told(e: KernelEvent, artifacts: Info -> Option<Notebook.Artifact>): seq<Notebook.Event> {
    if e.message.content.None? then []
    else
      var c := e.message.content.value;
      if Sends(e, Stream) then
        [Blank(Notebook.StreamEvent).(stream := Some(if c.streamName == "" then "stdout" else c.streamName), text := Some(c.text))]
      else if Sends(e, ErrorReport) then
        var lines := if c.traceback.Some? then c.traceback.value else [];
        [Blank(Notebook.ErrorEvent).(
           errorName := if c.errorName.None? || c.errorName.value == "" then Some("Error") else c.errorName,
           errorValue := if c.errorValue.None? then Some("") else c.errorValue,
           traceback := Some(lines), text := Some(JoinLines(lines)))]
      else if Sends(e, Kind.ClearOutput) then
        [Blank(Notebook.ClearEvent).(wait := c.wait, artifact := artifacts(Info(Kind.ClearOutput, None, None, None, c.wait, None)))]
      else if Sends(e, DisplayData) then ToldDisplay(DisplayData, c, artifacts)
      else if Sends(e, ExecuteResult) then ToldDisplay(ExecuteResult, c, artifacts)
      else if Sends(e, UpdateDisplayData) then ToldDisplay(UpdateDisplayData, c, artifacts)
      else []
  }

  function ToldDisplay(k: Kind, c: Content, artifacts: Info -> Option<Notebook.Artifact>): seq<Notebook.Event> {
    if c.representations == [] then
      [Blank(Notebook.DisplayEvent(k)).(displayId := c.displayId, artifact := artifacts(Info(k, None, None, c.displayId, false, None)))]
    else ShownAs(k, c.representations, c.displayId, artifacts)
  }

  function ToldAll(events: seq<KernelEvent>, artifacts: Info -> Option<Notebook.Artifact>): seq<Notebook.Event> {
    if events == [] then [] else Told(events[0], artifacts) + ToldAll(events[1..], artifacts)
  }

  lemma ItemEventsAppend(xs: seq<Item>, ys: seq<Item>, artifacts: Info -> Option<Notebook.Artifact>)
    ensures ItemEvents(xs + ys, artifacts) == ItemEvents(xs, artifacts) + ItemEvents(ys, artifacts)
  {
  }

  lemma {:induction false} DisplayIsShown(k: Kind, representations: seq<(string, Bytes)>, displayId: Option<string>,
                                          artifacts: Info -> Option<Notebook.Artifact>)
    requires k == DisplayData || k == ExecuteResult || k == UpdateDisplayData
    ensures ItemEvents(DisplayItems(k, representations, displayId), artifacts) == ShownAs(k, representations, displayId, artifacts)
    decreases |representations|
  {
    if representations != [] {
      var items := DisplayItems(k, representations, displayId);
      DisplayIsShown(k, representations[1..], displayId, artifacts);
      ItemEventsAppend([items[0]], DisplayItems(k, representations[1..], displayId), artifacts);
      assert items == [items[0]] + DisplayItems(k, representations[1..], displayId);
    }
  }

  lemma ItemsOfOne(o: Output)
    ensures ItemsOfAll([o]) == ItemsOf(o)
  {
    ItemsOfLast([o]);
    assert [o][..0] == [];
  }

  /** What a message stores is what it tells. */
  lemma StoredIsTold(e: KernelEvent, artifacts: Info -> Option<Notebook.Artifact>)
    ensures ItemEvents(ItemsOfAll(Stored(e)), artifacts) == Told(e, artifacts)
  {
    if Normalize(e).None? {
      StoredMeans(e, Output.ClearOutput(false));
    } else {
      var o := Normalize(e).value;
      StoredMeans(e, o);
      ItemsOfOne(o);
      if o.DisplayOutput? && o.representations != [] {
        DisplayIsShown(o.kind, o.representations, o.displayId, artifacts);
      }
    }
  }

  lemma {:induction false} StoredAllIsTold(events: seq<KernelEvent>, artifacts: Info -> Option<Notebook.Artifact>)
    ensures ItemEvents(ItemsOfAll(StoredAll(events)), artifacts) == ToldAll(events, artifacts)
  {
    if events != [] {
      StoredIsTold(events[0], artifacts);
      StoredAllIsTold(events[1..], artifacts);
      FlatAppend(ItemsOf, Stored(events[0]), StoredAll(events[1..]));
      ItemEventsAppend(ItemsOfAll(Stored(events[0])), ItemsOfAll(StoredAll(events[1..])), artifacts);
    }
  }

  /**
   For a complete execution the notebook rebuilt from the stored rows is the one rebuilt from what its
   messages tell, each message by its own fields, uncut and in order.
   */
  lemma NotebookShowsWhatWasSent(run: seq<Exec>, i: nat, file: Bytes, rows: seq<Row>, size: nat, items: seq<Item>,
                                 artifacts: Info -> Option<Notebook.Artifact>)
    requires IsRun(run) && i < |run| && IsComplete(run[i].world.rec)
    requires Holds(file, rows, size, items) && IsSpooled(run[i], items)
    ensures Notebook.Rebuilt(RowEvents(file, rows, artifacts)) == Notebook.Rebuilt(ToldAll(run[i].world.watched, artifacts))
  {
    CompleteOutputIsExact(run, i);
    StoredAllIsTold(run[i].world.watched, artifacts);
    SpooledChunking(run[i], file, rows, size, items, artifacts);
  }

  /** With the output exact, what is spooled is rebuilt as if it had not been cut. */
  lemma SpooledChunking(x: Exec, file: Bytes, rows: seq<Row>, size: nat, items: seq<Item>, artifacts: Info -> Option<Notebook.Artifact>)
    requires x.world.rec.outputs == StoredAll(x.world.watched)
    requires Holds(file, rows, size, items) && IsSpooled(x, items)
    ensures Notebook.Rebuilt(RowEvents(file, rows, artifacts)) == Notebook.Rebuilt(ItemEvents(ItemsOfAll(StoredAll(x.world.watched)), artifacts))
  {
    StoredIsSpoolable(x.world.watched);
    WritebackIgnoresChunking(file, rows, size, items, artifacts);
    SpooledRebuilds(x, items, artifacts);
  }
}
