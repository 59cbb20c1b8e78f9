/**
 From kernel messages to what a client reads: output events become spooled chunks, chunks become
 pages, and the stream text joined over the pages is the text the kernel sent.
 */
module EndToEnd {
  import opened Wrappers
  import opened Lifecycle
  import opened KernelProof
  import opened Outputs
  import opened KernelWorker
  import opened WorkerRuns
  import opened Spool
  import Paging
  import Utf8

  const LARGE_MIME := 32 * 1024

  /** What one append transaction adds: a text cut into chunks, or a row without text. */
  datatype Item = TextItem(info: Info, text: Bytes) | PlainItem(info: Info)

  predicate EndsWith(s: string, suffix: string) {
    |s| >= |suffix| && s[|s| - |suffix|..] == suffix
  }

  predicate IsTextMime(mime: string) {
    || "text/" <= mime
    || mime in ["application/json", "application/javascript", "application/xml", "image/svg+xml"]
    || EndsWith(mime, "+json")
    || EndsWith(mime, "+xml")
  }

  function JoinLines(lines: seq<Bytes>): Bytes {
    if lines == [] then []
    else if |lines| == 1 then lines[0]
    else lines[0] + [10] + JoinLines(lines[1..])
  }

  /** Text representations up to 32 KiB are spooled; anything else becomes an artifact with a plain row. */
  function DisplayItems(kind: Kind, representations: seq<(string, Bytes)>, displayId: Option<string>): seq<Item> {
    if representations == [] then []
    else
      var (mime, value) := representations[0];
      var info := Info(kind, None, Some(mime), displayId, false, None);
      [if IsTextMime(mime) && |value| <= LARGE_MIME then TextItem(info, value) else PlainItem(info)]
      + DisplayItems(kind, representations[1..], displayId)
  }

  /** append_output_event */
  function ItemsOf(o: Output): seq<Item> {
    match o
    case StreamOutput(name, text) => [TextItem(Info(Stream, Some(name), None, None, false, None), text)]
    case ErrorOutput(name, value, traceback) =>
      [TextItem(Info(ErrorReport, None, None, None, false, Some(ErrorDetails(name, value, traceback))), JoinLines(traceback))]
    case ClearOutput(wait) => [PlainItem(Info(Kind.ClearOutput, None, None, None, wait, None))]
    case DisplayOutput(kind, representations, displayId) =>
      if representations == [] then [PlainItem(Info(kind, None, None, displayId, false, None))]
      else DisplayItems(kind, representations, displayId)
  }

  function Flat<T>(f: T -> seq<Item>, xs: seq<T>): seq<Item> {
    if xs == [] then [] else f(xs[0]) + Flat(f, xs[1..])
  }

  lemma {:induction false} FlatAppend<T>(f: T -> seq<Item>, xs: seq<T>, ys: seq<T>)
    ensures Flat(f, xs + ys) == Flat(f, xs) + Flat(f, ys)
  {
    if xs == [] {
      assert xs + ys == ys;
    } else {
      assert (xs + ys)[1..] == xs[1..] + ys;
      FlatAppend(f, xs[1..], ys);
    }
  }

  function ItemsOfAll(outs: seq<Output>): seq<Item> {
    Flat(ItemsOf, outs)
  }

  /** Appending the item took the index from `before` to `after`, and the text from `from` to `to`. */
  ghost predicate Adds(file: Bytes, before: seq<Row>, from: nat, item: Item, after: seq<Row>, to: nat) {
    match item
    case PlainItem(info) => from == to && after == before + [Row(info, None)]
    case TextItem(info, text) =>
      from + |text| == to <= |file| && file[from..to] == text && Indexed(info, text, before, from, after)
  }

  /** The index and the size of the text after some of the items. */
  datatype Stage = Stage(rows: seq<Row>, size: nat)

  ghost predicate AddsAt(file: Bytes, stages: seq<Stage>, items: seq<Item>, k: nat) {
    && k < |items| && k + 1 < |stages|
    && Adds(file, stages[k].rows, stages[k].size, items[k], stages[k + 1].rows, stages[k + 1].size)
  }

  ghost predicate LaidOut(file: Bytes, stages: seq<Stage>, items: seq<Item>) {
    && |stages| == |items| + 1 && stages[0] == Stage([], 0)
    && forall k: nat :: k < |items| ==> AddsAt(file, stages, items, k)
  }

  /** The index and the first `size` bytes of the file are exactly the items, appended in order. */
  ghost predicate Holds(file: Bytes, rows: seq<Row>, size: nat, items: seq<Item>) {
    size <= |file| && exists stages :: LaidOut(file, stages, items) && stages[|items|] == Stage(rows, size)
  }

  lemma HoldsNothing(file: Bytes, rows: seq<Row>, size: nat)
    ensures Holds(file, rows, size, []) <==> rows == [] && size == 0
  {
    if rows == [] && size == 0 {
      assert LaidOut(file, [Stage([], 0)], []);
    }
  }

  lemma HoldsLast(file: Bytes, rows: seq<Row>, size: nat, items: seq<Item>) returns (before: seq<Row>, from: nat)
    requires Holds(file, rows, size, items) && items != []
    ensures Adds(file, before, from, items[|items| - 1], rows, size) && Holds(file, before, from, items[..|items| - 1])
  {
    var n := |items| - 1;
    var stages: seq<Stage> :| LaidOut(file, stages, items) && stages[|items|] == Stage(rows, size);
    before, from := stages[n].rows, stages[n].size;
    assert AddsAt(file, stages, items, n);
    var earlier, init := stages[..n + 1], items[..n];
    forall k: nat | k < n ensures AddsAt(file, earlier, init, k) {
      assert AddsAt(file, stages, items, k);
    }
    assert LaidOut(file, earlier, init);
  }

  lemma HoldsMore(file: Bytes, before: seq<Row>, from: nat, items: seq<Item>, item: Item, rows: seq<Row>, size: nat)
    requires Holds(file, before, from, items) && Adds(file, before, from, item, rows, size)
    ensures Holds(file, rows, size, items + [item])
  {
    var stages: seq<Stage> :| LaidOut(file, stages, items) && stages[|items|] == Stage(before, from);
    var longer := stages + [Stage(rows, size)];
    var more := items + [item];
    forall k: nat | k < |more| ensures AddsAt(file, longer, more, k) {
      if k < |items| {
        assert AddsAt(file, stages, items, k);
      }
    }
    assert LaidOut(file, longer, more);
  }

  lemma AddsPrefix(file: Bytes, file': Bytes, before: seq<Row>, from: nat, item: Item, after: seq<Row>, to: nat)
    requires Adds(file, before, from, item, after, to)
    requires to <= |file| && to <= |file'| && file'[..to] == file[..to]
    ensures Adds(file', before, from, item, after, to) && from <= to && file'[..from] == file[..from]
  {
    assert file'[..to][..from] == file'[..from] && file[..to][..from] == file[..from];
    assert file'[..to][from..] == file'[from..to] && file[..to][from..] == file[from..to];
  }

  lemma {:induction false} HoldsPrefix(file: Bytes, file': Bytes, rows: seq<Row>, size: nat, items: seq<Item>)
    requires Holds(file, rows, size, items)
    requires size <= |file'| && file'[..size] == file[..size]
    ensures Holds(file', rows, size, items)
    decreases |items|
  {
    if items == [] {
      HoldsNothing(file, rows, size);
      HoldsNothing(file', rows, size);
    } else {
      var n := |items| - 1;
      var before, from := HoldsLast(file, rows, size, items);
      AddsPrefix(file, file', before, from, items[n], rows, size);
      HoldsPrefix(file, file', before, from, items[..n]);
      HoldsMore(file', before, from, items[..n], items[n], rows, size);
      assert items == items[..n] + [items[n]];
    }
  }

  lemma TextAtEnd(file: Bytes, size: nat, text: Bytes)
    requires size <= |file|
    ensures var more := file[..size] + text;
            |more| == size + |text| && more[..size] == file[..size] && more[size..size + |text|] == text
  {
  }

  lemma HoldsMoreText(file: Bytes, rows: seq<Row>, size: nat, items: seq<Item>, info: Info, text: Bytes, file': Bytes, rows': seq<Row>)
    requires Holds(file, rows, size, items)
    requires file' == file[..size] + text && Indexed(info, text, rows, size, rows')
    ensures Holds(file', rows', size + |text|, items + [TextItem(info, text)])
  {
    TextAtEnd(file, size, text);
    HoldsPrefix(file, file', rows, size, items);
    HoldsMore(file', rows, size, items, TextItem(info, text), rows', size + |text|);
  }

  lemma HoldsMorePlain(file: Bytes, rows: seq<Row>, size: nat, items: seq<Item>, info: Info)
    requires Holds(file, rows, size, items)
    ensures Holds(file, rows + [Row(info, None)], size, items + [PlainItem(info)])
  {
    HoldsMore(file, rows, size, items, PlainItem(info), rows + [Row(info, None)], size);
  }

  ghost predicate Carries(spool: OutputSpool, items: seq<Item>)
    reads spool
  {
    Holds(spool.file, spool.rows, spool.size, items)
  }

  method AppendTextItem(spool: OutputSpool, info: Info, text: Bytes, ghost items: seq<Item>) returns (ok: bool)
    requires spool.Valid() && Carries(spool, items)
    modifies spool
    ensures spool.Valid() && spool.digest == old(spool.digest)
    ensures ok ==> old(spool.digest).None? && Carries(spool, items + [TextItem(info, text)])
  {
    ghost var file, rows, size := spool.file, spool.rows, spool.size;
    var result := spool.AppendText(info, text);
    if result.Err? {
      return false;
    }
    HoldsMoreText(file, rows, size, items, info, text, spool.file, spool.rows);
    return true;
  }

  method AppendPlainItem(spool: OutputSpool, info: Info, ghost items: seq<Item>) returns (ok: bool)
    requires spool.Valid() && Carries(spool, items)
    modifies spool
    ensures spool.Valid() && spool.digest == old(spool.digest)
    ensures ok ==> old(spool.digest).None? && Carries(spool, items + [PlainItem(info)])
  {
    ghost var file, rows, size := spool.file, spool.rows, spool.size;
    var result := spool.AppendIndex(info);
    if result.Err? {
      return false;
    }
    HoldsMorePlain(file, rows, size, items, info);
    return true;
  }

  method AppendItem(spool: OutputSpool, item: Item, ghost items: seq<Item>) returns (ok: bool)
    requires spool.Valid() && Carries(spool, items)
    modifies spool
    ensures spool.Valid() && spool.digest == old(spool.digest)
    ensures ok ==> old(spool.digest).None? && Carries(spool, items + [item])
  {
    match item {
      case TextItem(info, text) => ok := AppendTextItem(spool, info, text, items);
      case PlainItem(info) => ok := AppendPlainItem(spool, info, items);
    }
  }

  method AppendItems(spool: OutputSpool, todo: seq<Item>, ghost items: seq<Item>) returns (ok: bool)
    requires spool.Valid() && Carries(spool, items)
    modifies spool
    ensures spool.Valid()
    ensures ok ==> Carries(spool, items + todo)
    ensures ok && todo != [] ==> old(spool.digest).None?
  {
    assert items + todo[..0] == items;
    for k := 0 to |todo|
      invariant spool.Valid() && spool.digest == old(spool.digest) && (k > 0 ==> spool.digest.None?)
      invariant Carries(spool, items + todo[..k])
    {
      var more := AppendItem(spool, todo[k], items + todo[..k]);
      if !more {
        return false;
      }
      assert items + todo[..k + 1] == items + todo[..k] + [todo[k]];
    }
    assert todo[..|todo|] == todo;
    return true;
  }

  /** append_output_event on the spool: items are appended one transaction each. */
  method AppendOutputEvent(spool: OutputSpool, o: Output, ghost items: seq<Item>) returns (ok: bool)
    requires spool.Valid() && Carries(spool, items)
    modifies spool
    ensures spool.Valid()
    ensures ok ==> Carries(spool, items + ItemsOf(o))
    ensures ok && ItemsOf(o) != [] ==> old(spool.digest).None?
  {
    ok := AppendItems(spool, ItemsOf(o), items);
  }

  // ---------------------------------------------------------------- reading stream text back

  predicate IsStream(info: Info, name: string) {
    info.kind == Stream && info.stream == Some(name)
  }

  function RowText(file: Bytes, row: Row): Bytes {
    match ReadRow(file, row)
    case Ok(Some(text)) => text
    case _ => []
  }

  function StreamOfRows(file: Bytes, rows: seq<Row>, name: string): Bytes {
    if rows == [] then []
    else (if IsStream(rows[0].info, name) then RowText(file, rows[0]) else []) + StreamOfRows(file, rows[1..], name)
  }

  function StreamOfItem(item: Item, name: string): Bytes {
    if item.TextItem? && IsStream(item.info, name) then item.text else []
  }

  function StreamOfItems(items: seq<Item>, name: string): Bytes {
    if items == [] then [] else StreamOfItem(items[0], name) + StreamOfItems(items[1..], name)
  }

  /** The text the kernel sent to a stream in these messages. */
  function StreamSent(events: seq<KernelEvent>, name: string): Bytes {
    if events == [] then []
    else (if SendsTo(events[0], name) then events[0].message.content.value.text else []) + StreamSent(events[1..], name)
  }

  lemma {:induction false} StreamOfRowsAppend(file: Bytes, xs: seq<Row>, ys: seq<Row>, name: string)
    ensures StreamOfRows(file, xs + ys, name) == StreamOfRows(file, xs, name) + StreamOfRows(file, ys, name)
  {
    if xs == [] {
      assert xs + ys == ys;
    } else {
      assert (xs + ys)[1..] == xs[1..] + ys;
      StreamOfRowsAppend(file, xs[1..], ys, name);
    }
  }

  lemma {:induction false} StreamOfItemsAppend(xs: seq<Item>, ys: seq<Item>, name: string)
    ensures StreamOfItems(xs + ys, name) == StreamOfItems(xs, name) + StreamOfItems(ys, name)
  {
    if xs == [] {
      assert xs + ys == ys;
    } else {
      assert (xs + ys)[1..] == xs[1..] + ys;
      StreamOfItemsAppend(xs[1..], ys, name);
    }
  }

  lemma StreamOfFirst(file: Bytes, row: Row, rows: seq<Row>, name: string)
    ensures StreamOfRows(file, [row] + rows, name)
            == (if IsStream(row.info, name) then RowText(file, row) else []) + StreamOfRows(file, rows, name)
  {
    assert ([row] + rows)[1..] == rows;
  }

  lemma Slices(file: Bytes, a: nat, b: nat, c: nat, kept: bool, first: Bytes, later: Bytes)
    requires a <= b <= c <= |file|
    requires first == if kept then file[a..b] else []
    requires later == if kept then file[b..c] else []
    ensures first + later == if kept then file[a..c] else []
  {
  }

  lemma FirstChunk(file: Bytes, row: Row, offset: nat, length: nat, name: string)
    requires row.range == Some((offset, length)) && offset + length <= |file|
    ensures (if IsStream(row.info, name) then RowText(file, row) else [])
            == if IsStream(row.info, name) then file[offset..offset + length] else []
  {
  }

  lemma {:induction false} StreamOfChunks(file: Bytes, info: Info, chunks: seq<Bytes>, offset: nat, end: nat, name: string)
    requires end == offset + Total(chunks) && end <= |file|
    ensures StreamOfRows(file, RowsFor(info, chunks, offset), name) == if IsStream(info, name) then file[offset..end] else []
    decreases |chunks|
  {
    if chunks == [] {
      assert file[offset..end] == [];
    } else {
      var next := offset + |chunks[0]|;
      var row := Row(info, Some((offset, |chunks[0]|)));
      var later := RowsFor(Continued(info), chunks[1..], next);
      StreamOfChunks(file, Continued(info), chunks[1..], next, end, name);
      StreamOfFirst(file, row, later, name);
      FirstChunk(file, row, offset, |chunks[0]|, name);
      Slices(file, offset, next, end, IsStream(info, name),
             if IsStream(info, name) then RowText(file, row) else [], StreamOfRows(file, later, name));
    }
  }

  lemma TextStream(file: Bytes, before: seq<Row>, from: nat, info: Info, text: Bytes, rows: seq<Row>, name: string)
    requires from + |text| <= |file| && file[from..from + |text|] == text && Indexed(info, text, before, from, rows)
    ensures StreamOfRows(file, rows, name) == StreamOfRows(file, before, name) + if IsStream(info, name) then text else []
  {
    var chunks :| IndexedAs(info, text, before, from, rows, chunks);
    StreamOfRowsAppend(file, before, RowsFor(info, chunks, from), name);
    ChunksStream(file, from, info, text, chunks, name);
  }

  lemma ChunksStream(file: Bytes, from: nat, info: Info, text: Bytes, chunks: seq<Bytes>, name: string)
    requires from + |text| <= |file| && file[from..from + |text|] == text && Utf8.Flatten(chunks) == text
    ensures StreamOfRows(file, RowsFor(info, chunks, from), name) == if IsStream(info, name) then text else []
  {
    FlattenSize(chunks);
    StreamOfChunks(file, info, chunks, from, from + |text|, name);
  }

  lemma PlainStream(file: Bytes, rows: seq<Row>, info: Info, name: string)
    ensures StreamOfRows(file, rows + [Row(info, None)], name) == StreamOfRows(file, rows, name)
  {
    StreamOfRowsAppend(file, rows, [Row(info, None)], name);
    assert [Row(info, None)][1..] == [];
    assert RowText(file, Row(info, None)) == [];
  }

  lemma AddsStream(file: Bytes, before: seq<Row>, from: nat, item: Item, rows: seq<Row>, size: nat, name: string)
    requires Adds(file, before, from, item, rows, size)
    ensures StreamOfRows(file, rows, name) == StreamOfRows(file, before, name) + StreamOfItem(item, name)
  {
    match item
    case PlainItem(info) => PlainStream(file, before, info, name);
    case TextItem(info, text) => TextStream(file, before, from, info, text, rows, name);
  }

  lemma {:induction false} HeldStream(file: Bytes, rows: seq<Row>, size: nat, items: seq<Item>, name: string)
    requires Holds(file, rows, size, items)
    ensures StreamOfRows(file, rows, name) == StreamOfItems(items, name)
    decreases |items|
  {
    if items == [] {
      HoldsNothing(file, rows, size);
    } else {
      var n := |items| - 1;
      var before, from := HoldsLast(file, rows, size, items);
      HeldStream(file, before, from, items[..n], name);
      AddsStream(file, before, from, items[n], rows, size, name);
      LastStream(items, name);
    }
  }

  lemma LastStream(items: seq<Item>, name: string)
    requires items != []
    ensures StreamOfItems(items, name)
            == StreamOfItems(items[..|items| - 1], name) + StreamOfItem(items[|items| - 1], name)
  {
    var n := |items| - 1;
    assert items == items[..n] + [items[n]] && [items[n]][1..] == [];
    StreamOfItemsAppend(items[..n], [items[n]], name);
  }

  lemma {:induction false} DisplayHasNoStream(kind: Kind, representations: seq<(string, Bytes)>, displayId: Option<string>, name: string)
    ensures StreamOfItems(DisplayItems(kind, representations, displayId), name) == []
  {
    if representations != [] {
      var items := DisplayItems(kind, representations, displayId);
      assert items[1..] == DisplayItems(kind, representations[1..], displayId);
      DisplayHasNoStream(kind, representations[1..], displayId, name);
    }
  }

  lemma ItemsOfStream(o: Output, name: string)
    ensures StreamOfItems(ItemsOf(o), name) == if o.StreamOutput? && o.name == name then o.text else []
  {
    match o
    case StreamOutput(_, _) => assert ItemsOf(o)[1..] == [];
    case ErrorOutput(_, _, _) => assert ItemsOf(o)[1..] == [];
    case ClearOutput(_) => assert ItemsOf(o)[1..] == [];
    case DisplayOutput(kind, representations, displayId) =>
      if representations == [] {
        assert ItemsOf(o)[1..] == [];
      } else {
        DisplayHasNoStream(kind, representations, displayId, name);
      }
  }

  lemma {:induction false} StoredStream(events: seq<KernelEvent>, name: string)
    ensures StreamOfItems(ItemsOfAll(StoredAll(events)), name) == StreamSent(events, name)
  {
    if events != [] {
      StoredStream(events[1..], name);
      var o := Normalize(events[0]);
      if o.Some? {
        assert StoredAll(events)[1..] == StoredAll(events[1..]);
        StoredMeans(events[0], o.value);
        ItemsOfStream(o.value, name);
        StreamOfItemsAppend(ItemsOf(o.value), ItemsOfAll(StoredAll(events[1..])), name);
      } else {
        StoredMeans(events[0], Output.ClearOutput(false));
        assert StoredAll(events) == StoredAll(events[1..]);
      }
    }
  }

  /** Whatever the budgets, the stream text joined over the pages is that of the items. */
  lemma PagesReturnItems(file: Bytes, rows: seq<Row>, size: nat, items: seq<Item>, sizes: seq<nat>,
                         budgets: seq<int>, pages: seq<Paging.Page<Row>>, name: string)
    requires Holds(file, rows, size, items)
    requires |sizes| == |rows| && Paging.IsTraversal(rows, sizes, None, budgets, pages)
    ensures StreamOfRows(file, Paging.Joined(pages), name) == StreamOfItems(items, name)
  {
    Paging.TraversalIsComplete(rows, sizes, None, budgets, pages);
    assert rows[0..] == rows;
    HeldStream(file, rows, size, items, name);
  }

  /** What the spool of an execution carries, with or without the row for a promoted artifact. */
  predicate IsSpooled(x: Exec, items: seq<Item>) {
    var stored := ItemsOfAll(x.world.rec.outputs);
    items == stored || items == stored + [PlainItem(ARTIFACT_ROW.info)]
  }

  /**
   End to end: for an execution that is over, other than as UNKNOWN, and is flagged complete, a reader
   who follows cursors from the start, with any page budgets, and joins the text of a stream gets
   exactly what the kernel sent to that stream, nothing lost, repeated or reordered.
   */
  lemma PagesReturnStream(run: seq<Exec>, i: nat, file: Bytes, rows: seq<Row>, size: nat, items: seq<Item>, sizes: seq<nat>,
                          budgets: seq<int>, pages: seq<Paging.Page<Row>>, name: string)
    requires IsRun(run) && i < |run| && IsComplete(run[i].world.rec)
    requires Holds(file, rows, size, items) && IsSpooled(run[i], items)
    requires |sizes| == |rows| && Paging.IsTraversal(rows, sizes, None, budgets, pages)
    ensures StreamOfRows(file, Paging.Joined(pages), name) == StreamSent(run[i].world.watched, name)
  {
    CompleteOutputIsExact(run, i);
    PagesReturnItems(file, rows, size, items, sizes, budgets, pages, name);
    SpooledStream(run[i], items, name);
    StoredStream(run[i].world.watched, name);
  }

  lemma ItemsOfLast(outs: seq<Output>)
    requires outs != []
    ensures ItemsOfAll(outs) == ItemsOfAll(outs[..|outs| - 1]) + ItemsOf(outs[|outs| - 1])
  {
    var init, last := outs[..|outs| - 1], outs[|outs| - 1];
    FlatAppend(ItemsOf, init, [last]);
    assert init + [last] == outs && [last][1..] == [];
  }

  /** A crash leaves what the spool carries. */
  method CrashSpool(spool: OutputSpool, debris: Bytes, ghost items: seq<Item>)
    requires spool.Valid() && Carries(spool, items)
    modifies spool`file, spool`synced
    ensures spool.Valid() && Carries(spool, items)
  {
    ghost var file := spool.file;
    var survived := spool.file[..spool.synced] + debris;
    assert survived[..spool.synced] == spool.file[..spool.synced];
    assert survived[..spool.synced][..spool.size] == survived[..spool.size];
    assert file[..spool.synced][..spool.size] == file[..spool.size];
    spool.Crash(survived);
    HoldsPrefix(file, spool.file, spool.rows, spool.size, items);
  }

  /** The spool when a step of the machine commits an output event. */
  method FollowStep(spool: OutputSpool, before: seq<Output>, after: seq<Output>) returns (ok: bool)
    requires spool.Valid() && Carries(spool, ItemsOfAll(before))
    requires AppendsOne(before, after)
    modifies spool
    ensures spool.Valid() && (ok ==> Carries(spool, ItemsOfAll(after)))
  {
    ok := true;
    if after != before {
      ItemsOfLast(after);
      ok := AppendOutputEvent(spool, after[|after| - 1], ItemsOfAll(before));
    }
  }

  /**
   The machine and the spool side by side: whenever a step commits an output event, the event is
   appended to the spool; crashes may come in between, and the spool may be finalized in the end.
   Unless an append fails, the spool then carries what the run says.
   */
  method SpoolOfRun(run: seq<Exec>, debris: seq<Bytes>) returns (spool: OutputSpool, ok: bool, ghost items: seq<Item>)
    requires IsRun(run)
    ensures fresh(spool) && spool.Valid()
    ensures ok ==> Carries(spool, items) && IsSpooled(run[|run| - 1], items)
  {
    spool := new OutputSpool();
    RunStart(run);
    HoldsNothing(spool.file, spool.rows, spool.size);
    for i := 1 to |run|
      invariant spool.Valid() && fresh(spool)
      invariant Carries(spool, ItemsOfAll(run[i - 1].world.rec.outputs))
    {
      StepOfRun(run, i);
      StepAppends(run[i - 1], run[i]);
      ok := FollowStep(spool, run[i - 1].world.rec.outputs, run[i].world.rec.outputs);
      if !ok {
        return spool, false, [];
      }
      if i < |debris| {
        CrashSpool(spool, debris[i], ItemsOfAll(run[i].world.rec.outputs));
      }
    }
    items := ItemsOfAll(run[|run| - 1].world.rec.outputs);
    ghost var rows := spool.rows;
    var finalized := spool.FinalizeOutput();
    if spool.rows != rows {
      HoldsMorePlain(spool.file, rows, spool.size, items, ARTIFACT_ROW.info);
      items := items + [PlainItem(ARTIFACT_ROW.info)];
    }
    return spool, true, items;
  }

  lemma SpooledStream(x: Exec, items: seq<Item>, name: string)
    requires IsSpooled(x, items)
    ensures StreamOfItems(items, name) == StreamOfItems(ItemsOfAll(x.world.rec.outputs), name)
  {
    var artifact := [PlainItem(ARTIFACT_ROW.info)];
    StreamOfItemsAppend(ItemsOfAll(x.world.rec.outputs), artifact, name);
    assert artifact[1..] == [];
  }
}
