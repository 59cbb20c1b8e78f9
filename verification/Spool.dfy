/**
 The output spool: an append-only text file beside an index in the database. Truncation, partial
 writes, the fsync and the commit are separate durable actions, and a crash may come after any.
 */
module Spool {
  import opened Wrappers
  import opened KernelProof
  import Storage
  import Utf8

  const ARTIFACT_THRESHOLD := 64 * 1024

  datatype ErrorDetails = ErrorDetails(name: string, value: string, traceback: seq<Bytes>)

  /** The metadata columns of an output row; error details go with the first chunk only. */
  datatype Info = Info(
    kind: Kind, stream: Option<string>, mime: Option<string>, displayId: Option<string>, wait: bool, error: Option<ErrorDetails>)

  /** One row of the output index. A row without text has no range. */
  datatype Row = Row(info: Info, range: Option<(nat, nat)>)

  /** The index entry of the promoted whole-output artifact. */
  const ARTIFACT_ROW := Row(Info(OtherKind, None, None, None, false, None), None)

  /**
   The file and the index. Bytes up to `synced` survive a crash; what follows them may be lost
   or replaced by anything.
   */
  datatype Disk = Disk(file: Bytes, synced: nat, rows: seq<Row>, size: nat)

  /** The rows' ranges follow one another from `from` to `to`. */
  predicate Tiles(rows: seq<Row>, from: nat, to: nat) {
    if rows == [] then from == to
    else if rows[0].range.None? then Tiles(rows[1..], from, to)
    else rows[0].range.value.0 == from && Tiles(rows[1..], from + rows[0].range.value.1, to)
  }

  predicate Consistent(d: Disk) {
    d.size <= d.synced <= |d.file| && Tiles(d.rows, 0, d.size)
  }

  /** The committed text. */
  function Text(d: Disk): Bytes
    requires Consistent(d)
  {
    d.file[..d.size]
  }

  /** The disk holds exactly this index and this committed text. */
  predicate Same(d: Disk, rows: seq<Row>, size: nat, text: Bytes) {
    Consistent(d) && d.rows == rows && d.size == size && Text(d) == text
  }

  predicate AllSame(states: seq<Disk>, rows: seq<Row>, size: nat, text: Bytes) {
    forall d <- states :: Same(d, rows, size, text)
  }

  /** What a crash can leave behind. */
  predicate CrashedFrom(d: Disk, e: Disk) {
    && e.rows == d.rows && e.size == d.size
    && d.synced <= |d.file| && d.synced <= e.synced <= |e.file|
    && e.file[..d.synced] == d.file[..d.synced]
  }

  /** A crash never damages committed text or its index. */
  lemma CrashKeepsText(d: Disk, e: Disk)
    requires Consistent(d) && CrashedFrom(d, e)
    ensures Same(e, d.rows, d.size, Text(d))
  {
    assert e.file[..d.synced][..d.size] == e.file[..d.size];
    assert d.file[..d.synced][..d.size] == d.file[..d.size];
  }

  /** _output_event_from_row: the bytes a row refers to, or an error when the file is too short. */
  function ReadRow(file: Bytes, row: Row): Result<Option<Bytes>, bool> {
    match row.range
    case None => Ok(None)
    case Some((offset, length)) =>
      if offset + length <= |file| then Ok(Some(file[offset..offset + length])) else Err(false)
  }

  /** The texts of all rows, joined. */
  function Joined(file: Bytes, rows: seq<Row>): Result<Bytes, bool> {
    if rows == [] then Ok([])
    else
      match (ReadRow(file, rows[0]), Joined(file, rows[1..]))
      case (Ok(None), Ok(rest)) => Ok(rest)
      case (Ok(Some(text)), Ok(rest)) => Ok(text + rest)
      case _ => Err(false)
  }

  /** Reading every row returns the committed text, each byte once, whatever lies beyond it. */
  lemma {:induction false} TilesJoin(file: Bytes, rows: seq<Row>, from: nat, to: nat)
    requires Tiles(rows, from, to) && to <= |file|
    ensures from <= to
    ensures Joined(file, rows) == Ok(file[from..to])
  {
    if rows == [] {
      assert file[from..to] == [];
    } else {
      match rows[0].range
      case None => TilesJoin(file, rows[1..], from, to);
      case Some((offset, length)) =>
        TilesJoin(file, rows[1..], from + length, to);
        assert offset == from && from + length <= to;
        assert file[from..to] == file[from..from + length] + file[from + length..to];
    }
  }

  lemma ReadsBack(d: Disk)
    requires Consistent(d)
    ensures Joined(d.file, d.rows) == Ok(Text(d))
  {
    TilesJoin(d.file, d.rows, 0, d.size);
  }

  lemma {:induction false} TilesAppend(xs: seq<Row>, ys: seq<Row>, from: nat, mid: nat, to: nat)
    requires Tiles(xs, from, mid) && Tiles(ys, mid, to)
    ensures Tiles(xs + ys, from, to)
  {
    if xs == [] {
      assert xs + ys == ys;
    } else {
      assert (xs + ys)[1..] == xs[1..] + ys;
      TilesAppend(xs[1..], ys, if xs[0].range.None? then from else from + xs[0].range.value.1, mid, to);
    }
  }

  function Continued(info: Info): Info {
    info.(error := None)
  }

  /** The rows of one text: consecutive ranges, details on the first. */
  function RowsFor(info: Info, chunks: seq<Bytes>, offset: nat): seq<Row>
    decreases |chunks|
  {
    if chunks == [] then []
    else [Row(info, Some((offset, |chunks[0]|)))] + RowsFor(Continued(info), chunks[1..], offset + |chunks[0]|)
  }

  function Total(chunks: seq<Bytes>): nat {
    if chunks == [] then 0 else |chunks[0]| + Total(chunks[1..])
  }

  lemma {:induction false} RowsTile(info: Info, chunks: seq<Bytes>, offset: nat)
    ensures Tiles(RowsFor(info, chunks, offset), offset, offset + Total(chunks))
    decreases |chunks|
  {
    if chunks != [] {
      RowsTile(Continued(info), chunks[1..], offset + |chunks[0]|);
      assert RowsFor(info, chunks, offset)[1..] == RowsFor(Continued(info), chunks[1..], offset + |chunks[0]|);
    }
  }

  lemma {:induction false} TotalAppend(xs: seq<Bytes>, ys: seq<Bytes>)
    ensures Total(xs + ys) == Total(xs) + Total(ys)
  {
    if xs == [] {
      assert xs + ys == ys;
    } else {
      assert (xs + ys)[1..] == xs[1..] + ys;
      TotalAppend(xs[1..], ys);
    }
  }

  lemma {:induction false} RowsForAppend(info: Info, xs: seq<Bytes>, ys: seq<Bytes>, offset: nat)
    ensures RowsFor(info, xs + ys, offset)
            == RowsFor(info, xs, offset) + RowsFor(if xs == [] then info else Continued(info), ys, offset + Total(xs))
    decreases |xs|
  {
    if xs == [] {
      assert xs + ys == ys;
    } else {
      assert (xs + ys)[1..] == xs[1..] + ys;
      RowsForAppend(Continued(info), xs[1..], ys, offset + |xs[0]|);
    }
  }

  lemma {:induction false} FlattenSize(chunks: seq<Bytes>)
    ensures |Utf8.Flatten(chunks)| == Total(chunks)
  {
    if chunks != [] {
      var n := |chunks| - 1;
      FlattenSize(chunks[..n]);
      assert chunks == chunks[..n] + [chunks[n]];
      TotalAppend(chunks[..n], [chunks[n]]);
    }
  }

  lemma RowsExtend(rows: seq<Row>, info: Info, chunks: seq<Bytes>, size: nat)
    requires Tiles(rows, 0, size)
    ensures Tiles(rows + RowsFor(info, chunks, size), 0, size + |Utf8.Flatten(chunks)|)
  {
    FlattenSize(chunks);
    RowsTile(info, chunks, size);
    TilesAppend(rows, RowsFor(info, chunks, size), 0, size, size + Total(chunks));
  }

  /** The rows of one appended text: consecutive chunks of it, within the limit, none of them cutting a character. */
  ghost predicate Indexed(info: Info, text: Bytes, before: seq<Row>, offset: nat, after: seq<Row>) {
    exists chunks :: IndexedAs(info, text, before, offset, after, chunks)
  }

  ghost predicate IndexedAs(info: Info, text: Bytes, before: seq<Row>, offset: nat, after: seq<Row>, chunks: seq<Bytes>) {
    && chunks != [] && Utf8.Flatten(chunks) == text && after == before + RowsFor(info, chunks, offset)
    && (forall c <- chunks :: |c| <= Utf8.CHUNK && (text != [] ==> c != []))
    && (Utf8.WellFormed(text) ==> Utf8.AllWellFormed(chunks))
  }

  datatype SpoolError = Finalized | SpoolIncomplete | IoError

  class OutputSpool {
    // the spool file and how much of it is known to be on disk
    var file: Bytes
    var synced: nat
    // the database
    var rows: seq<Row>
    var pathSet: bool
    var size: nat
    var digest: Option<int>
    var artifact: Option<Bytes>
    // every durable state passed through, and the texts whose append was committed
    var trail: seq<Disk>
    ghost var committed: seq<Bytes>

    function Now(): Disk
      reads this
    {
      Disk(file, synced, rows, size)
    }

    ghost predicate Valid()
      reads this
    {
      && Consistent(Now())
      && Text(Now()) == Utf8.Flatten(committed)
      && (!pathSet ==> size == 0)
      && (forall d <- trail :: Consistent(d))
      && (digest.Some? ==> digest.value == Storage.Digest(Utf8.Flatten(committed)))
      && (artifact.Some? ==> artifact.value <= Utf8.Flatten(committed))
    }

    constructor ()
      ensures Valid() && committed == [] && rows == [] && digest.None?
    {
      file, synced, rows, pathSet, size, digest, artifact := [], 0, [], false, 0, None, None;
      trail, committed := [], [];
    }

    /** A new process finds the disk and the columns as a crash left them. */
    constructor Reopen(d: Disk, pathSet: bool, artifact: Option<Bytes>, ghost texts: seq<Bytes>)
      requires Same(d, d.rows, d.size, Utf8.Flatten(texts)) && (!pathSet ==> d.size == 0)
      requires artifact.Some? ==> artifact.value <= Utf8.Flatten(texts)
      ensures Valid() && Now() == d && committed == texts && digest.None? && this.artifact == artifact && this.pathSet == pathSet
    {
      file, synced, rows, size := d.file, d.synced, d.rows, d.size;
      this.pathSet, this.artifact, digest := pathSet, artifact, None;
      trail, committed := [], texts;
    }

    /** os.ftruncate: never below what the index refers to. */
    method Truncate(length: nat) returns (ok: bool)
      requires Consistent(Now()) && size <= length <= |file|
      modifies this`file, this`synced, this`trail
      ensures file == if ok then old(file)[..length] else old(file)
      ensures Same(Now(), rows, size, old(Text(Now()))) && synced <= old(synced)
      ensures trail == old(trail) + [Now()]
    {
      ok := *;
      if ok {
        file := file[..length];
        synced := if synced < length then synced else length;
        assert file[..size] == old(file)[..size];
      }
      trail := trail + [Now()];
    }

    /** os.write: some nonempty prefix of the view, or an error. */
    method Write(view: Bytes) returns (written: nat, ok: bool)
      requires Consistent(Now()) && view != []
      modifies this`file, this`trail
      ensures ok ==> 0 < written <= |view| && file == old(file) + view[..written]
      ensures !ok ==> written == 0 && file == old(file)
      ensures Same(Now(), rows, size, old(Text(Now()))) && trail == old(trail) + [Now()]
    {
      ok, written := *, 0;
      if ok {
        written :| 0 < written <= |view|;
        file := file + view[..written];
        assert file[..size] == old(file)[..size];
      }
      trail := trail + [Now()];
    }

    method Fsync() returns (ok: bool)
      requires Consistent(Now())
      modifies this`synced, this`trail
      ensures ok ==> synced == |file|
      ensures !ok ==> synced == old(synced)
      ensures Same(Now(), rows, size, old(Text(Now()))) && trail == old(trail) + [Now()]
    {
      ok := *;
      if ok {
        synced := |file|;
      }
      trail := trail + [Now()];
    }

    /** Write all of a chunk, however little each call takes. */
    method WriteAll(chunk: Bytes) returns (ok: bool)
      requires Consistent(Now())
      modifies this`file, this`trail
      ensures Same(Now(), rows, size, old(Text(Now())))
      ensures ok ==> file == old(file) + chunk
      ensures old(trail) <= trail && AllSame(trail[|old(trail)|..], rows, size, old(Text(Now())))
    {
      var view := chunk;
      while view != []
        invariant |view| <= |chunk| && view == chunk[|chunk| - |view|..]
        invariant Same(Now(), rows, size, old(Text(Now()))) && file == old(file) + chunk[..|chunk| - |view|]
        invariant old(trail) <= trail && AllSame(trail[|old(trail)|..], rows, size, old(Text(Now())))
        decreases |view|
      {
        var written, more := Write(view);
        if !more {
          return false;
        }
        assert chunk[..|chunk| - |view| + written] == chunk[..|chunk| - |view|] + view[..written];
        view := view[written..];
      }
      return true;
    }

    /** The transaction's commit: index rows and size change together or not at all. */
    method Commit(added: seq<Row>, newSize: nat, ghost text: Bytes) returns (ok: bool)
      requires Valid() && digest.None?
      requires newSize == |file| == synced && file == Text(Now()) + text
      requires Tiles(rows + added, 0, newSize)
      modifies this`rows, this`size, this`pathSet, this`trail, this`committed
      ensures Valid() && trail == old(trail) + [Now()]
      ensures if ok then rows == old(rows) + added && size == newSize && committed == old(committed) + [text]
              else rows == old(rows) && size == old(size) && committed == old(committed)
      ensures Same(Now(), rows, size, if ok then old(Text(Now())) + text else old(Text(Now())))
    {
      ok := *;
      if ok {
        assert (committed + [text])[..|committed|] == committed;
        rows, size, pathSet := rows + added, newSize, true;
        committed := committed + [text];
        assert file[..size] == file;
      }
      trail := trail + [Now()];
    }

    /** Restore the file after a failed append; errors are suppressed. */
    method Rollback(offset: nat)
      requires Valid() && offset == size
      modifies this`file, this`synced, this`trail
      ensures Valid() && old(trail) <= trail && AllSame(trail[|old(trail)|..], rows, size, old(Text(Now())))
    {
      var ok := Truncate(offset);
      if ok {
        ok := Fsync();
      }
    }

    /**
     _append_text_output. Whatever fails, and wherever a crash stops it, the index still describes
     the committed text; on success file and index agree again, even if an earlier crash left
     bytes behind.
     */
    method AppendText(info: Info, text: Bytes) returns (result: Result<nat, SpoolError>)
      requires Valid()
      modifies this
      ensures Valid() && digest == old(digest) && artifact == old(artifact)
      ensures old(trail) <= trail
      ensures forall d <- trail[|old(trail)|..] ::
                Same(d, old(rows), old(size), old(Text(Now()))) || Same(d, rows, size, Text(Now()))
      ensures result.Err? ==> committed == old(committed) && rows == old(rows) && size == old(size)
      ensures old(digest).Some? ==> result == Err(Finalized)
      ensures result.Ok? ==>
                && committed == old(committed) + [text]
                && file == old(Text(Now())) + text && |file| == size
                && result.value == |old(rows)|
                && Indexed(info, text, old(rows), old(size), rows)
    {
      if digest.Some? {
        return Err(Finalized);
      }
      var chunks := Utf8.Split(text);
      var offset, first := size, |rows|;
      var ok := StoreChunks(info, chunks, text);
      if ok {
        assert IndexedAs(info, text, old(rows), old(size), rows, chunks);
        return Ok(first);
      }
      Rollback(offset);
      return Err(IoError);
    }

    /** The body of the append transaction. */
    method StoreChunks(info: Info, chunks: seq<Bytes>, text: Bytes) returns (ok: bool)
      requires Valid() && digest.None? && Utf8.Flatten(chunks) == text
      modifies this
      ensures Valid() && digest == old(digest) && artifact == old(artifact)
      ensures old(trail) <= trail
      ensures forall d <- trail[|old(trail)|..] ::
                Same(d, old(rows), old(size), old(Text(Now()))) || Same(d, rows, size, Text(Now()))
      ensures !ok ==> committed == old(committed) && rows == old(rows) && size == old(size)
      ensures ok ==> committed == old(committed) + [text] && rows == old(rows) + RowsFor(info, chunks, old(size))
                     && file == old(Text(Now())) + text && |file| == size
    {
      ghost var base := Text(Now());
      ok := StoreText(chunks);
      if ok {
        var added := IndexRows(info, chunks, size);
        RowsExtend(rows, info, chunks, size);
        ok := Commit(added, size + |text|, text);
        assert ok ==> Text(Now()) == file;
      }
    }

    /** Truncate to the index, write, and make it durable. */
    method StoreText(chunks: seq<Bytes>) returns (ok: bool)
      requires Valid()
      modifies this`file, this`synced, this`trail
      ensures Valid() && old(trail) <= trail && AllSame(trail[|old(trail)|..], rows, size, old(Text(Now())))
      ensures ok ==> synced == |file| && file == old(Text(Now())) + Utf8.Flatten(chunks)
    {
      ok := Truncate(size);
      if ok {
        ok := WriteChunks(chunks);
      }
      if ok {
        ok := Fsync();
      }
    }

    /** Write the chunks one after another, after the committed text. */
    method WriteChunks(chunks: seq<Bytes>) returns (ok: bool)
      requires Valid() && |file| == size
      modifies this`file, this`trail
      ensures Valid() && old(trail) <= trail && AllSame(trail[|old(trail)|..], rows, size, old(Text(Now())))
      ensures ok ==> file == old(file) + Utf8.Flatten(chunks)
    {
      var position := 0;
      while position < |chunks|
        invariant position <= |chunks| && Valid()
        invariant file == old(file) + Utf8.Flatten(chunks[..position])
        invariant Text(Now()) == old(Text(Now()))
        invariant old(trail) <= trail && AllSame(trail[|old(trail)|..], rows, size, old(Text(Now())))
      {
        ghost var before := trail;
        var more := WriteAll(chunks[position]);
        assert trail == before + trail[|before|..];
        if !more {
          return false;
        }
        assert chunks[..position + 1][..position] == chunks[..position];
        position := position + 1;
      }
      assert chunks[..position] == chunks;
      return true;
    }

    /** The index rows of the chunks. */
    method IndexRows(info: Info, chunks: seq<Bytes>, offset: nat) returns (added: seq<Row>)
      ensures added == RowsFor(info, chunks, offset)
    {
      added := [];
      var next := offset;
      for k := 0 to |chunks|
        invariant added == RowsFor(info, chunks[..k], offset) && next == offset + Total(chunks[..k])
      {
        var chunkInfo := if k == 0 then info else Continued(info);
        assert chunks[..k + 1] == chunks[..k] + [chunks[k]];
        RowsForAppend(info, chunks[..k], [chunks[k]], offset);
        TotalAppend(chunks[..k], [chunks[k]]);
        added := added + [Row(chunkInfo, Some((next, |chunks[k]|)))];
        next := next + |chunks[k]|;
      }
      assert chunks[..|chunks|] == chunks;
    }

    /** _append_output_index: a row without text. */
    method AppendIndex(info: Info) returns (result: Result<nat, SpoolError>)
      requires Valid()
      modifies this`rows
      ensures Valid()
      ensures old(digest).Some? ==> result == Err(Finalized)
      ensures result.Err? ==> rows == old(rows)
      ensures result.Ok? ==> result.value == |old(rows)| && rows == old(rows) + [Row(info, None)]
    {
      if digest.Some? {
        return Err(Finalized);
      }
      var ok := *;
      if !ok {
        return Err(IoError);
      }
      TilesAppend(rows, [Row(info, None)], 0, size, size);
      result := Ok(|rows|);
      rows := rows + [Row(info, None)];
    }

    /** A crash of the process or the machine between any two actions: what was not synced is arbitrary. */
    method Crash(survived: Bytes)
      requires Valid()
      requires synced <= |survived| && survived[..synced] == file[..synced]
      modifies this`file, this`synced
      ensures Valid() && CrashedFrom(old(Now()), Now()) && file == survived
    {
      ghost var before := Now();
      file, synced := survived, |survived|;
      CrashKeepsText(before, Now());
    }

    /** Copy the spool into an artifact and index it; both before the row is marked finalized. */
    method Promote() returns (ok: bool)
      requires Valid() && artifact.None? && digest.None? && |file| == size > ARTIFACT_THRESHOLD
      modifies this`artifact, this`rows
      ensures Valid()
      ensures artifact == if ok then Some(file) else None
      ensures rows == old(rows) || rows == old(rows) + [ARTIFACT_ROW]
    {
      ok := *;
      if ok {
        artifact := Some(file);
        assert Text(Now()) == file;
        IndexArtifact();
      }
    }

    method IndexArtifact()
      requires Valid()
      modifies this`rows
      ensures Valid()
      ensures rows == old(rows) || rows == old(rows) + [ARTIFACT_ROW]
      ensures ARTIFACT_ROW in rows
    {
      if ARTIFACT_ROW !in rows {
        TilesAppend(rows, [ARTIFACT_ROW], 0, size, size);
        rows := rows + [ARTIFACT_ROW];
      }
    }

    /**
     finalize_output. It is refused when the file is longer than its index (a crash came between
     fsync and commit). When it succeeds the digest is of the committed text. An artifact it
     creates is that text; one left by an interrupted earlier attempt is kept as it is, and is
     that text exactly when its recorded size is still the size of the output.
     */
    method FinalizeOutput() returns (result: Result<int, SpoolError>)
      requires Valid()
      modifies this`digest, this`artifact, this`synced, this`rows
      ensures Valid()
      ensures result.Err? && result.error == SpoolIncomplete <==> old(digest).None? && pathSet && |file| != size
      ensures result.Ok? ==>
                && digest == Some(result.value)
                && result.value == Storage.Digest(Utf8.Flatten(committed))
      ensures result.Ok? && old(artifact).None? && old(digest).None? ==>
                artifact == if pathSet && size > 65536 then Some(Utf8.Flatten(committed)) else None
      ensures old(artifact).Some? ==>
                && artifact == old(artifact)
                && (artifact.value == Utf8.Flatten(committed) <==> |artifact.value| == size)
      ensures result.Err? ==> digest == old(digest)
      ensures rows == old(rows) || rows == old(rows) + [ARTIFACT_ROW]
    {
      if artifact.Some? {
        ArtifactIsPrefix();
      }
      if digest.Some? {
        if artifact.Some? {
          IndexArtifact();
        }
        return Ok(digest.value);
      }
      var measured, hash, byteSize := Measure();
      if !measured {
        return Err(SpoolIncomplete);
      }
      result := Seal(hash, byteSize);
    }

    /** Promote or keep the artifact, then record the digest. */
    method Seal(hash: int, byteSize: nat) returns (result: Result<int, SpoolError>)
      requires Valid() && digest.None? && hash == Storage.Digest(Utf8.Flatten(committed)) && byteSize == size
      requires size > 0 ==> pathSet && file == Utf8.Flatten(committed)
      modifies this`digest, this`artifact, this`rows
      ensures Valid()
      ensures if result.Ok? then result.value == hash && digest == Some(hash) else result.error == IoError && digest == old(digest)
      ensures result.Ok? && old(artifact).None? ==>
                artifact == if size > ARTIFACT_THRESHOLD then Some(Utf8.Flatten(committed)) else None
      ensures old(artifact).Some? ==> artifact == old(artifact)
      ensures rows == old(rows) || rows == old(rows) + [ARTIFACT_ROW]
    {
      if artifact.Some? {
        IndexArtifact();
      } else if byteSize > ARTIFACT_THRESHOLD {
        var promoted := Promote();
        if !promoted {
          return Err(IoError);
        }
      }
      var ok: bool := *;
      if !ok {
        return Err(IoError);
      }
      digest := Some(hash);
      return Ok(hash);
    }

    /** Hash the file, and compare its length with the index. */
    method Measure() returns (ok: bool, hash: int, byteSize: nat)
      requires Valid()
      modifies this`synced
      ensures Valid()
      ensures ok <==> !pathSet || |file| == size
      ensures ok ==> hash == Storage.Digest(Utf8.Flatten(committed)) && byteSize == size
      ensures ok && size > 0 ==> pathSet && file == Utf8.Flatten(committed)
    {
      if !pathSet {
        assert Text(Now()) == [];
        return true, Storage.Digest([]), 0;
      }
      synced := |file|;
      hash, byteSize := Storage.Digest(file), |file|;
      ok := byteSize == size;
      if ok {
        assert Text(Now()) == file;
      }
    }

    lemma ArtifactIsPrefix()
      requires Valid() && artifact.Some?
      ensures artifact.value == Utf8.Flatten(committed) <==> |artifact.value| == size
    {
      assert |Text(Now())| == size;
    }
  }

  /** After a crash at any state of an append the disk holds the texts committed before it, or those and the new one. */
  lemma CrashedAppend(spool: OutputSpool, before: Disk, texts: seq<Bytes>, d: Disk, e: Disk)
    requires spool.Valid() && Consistent(before) && Text(before) == Utf8.Flatten(texts)
    requires Same(d, before.rows, before.size, Text(before)) || Same(d, spool.rows, spool.size, Text(spool.Now()))
    requires CrashedFrom(d, e)
    ensures Same(e, before.rows, before.size, Utf8.Flatten(texts)) || Same(e, spool.rows, spool.size, Utf8.Flatten(spool.committed))
  {
    CrashKeepsText(d, e);
  }

  /**
   An append is cut short by a crash after the k-th of its actions, with anything beyond the synced
   bytes; a new process then appends. The spool it finds holds the old texts, with or without the
   one whose append was cut short, and a successful append leaves file and index in agreement.
   */
  method AppendAfterCrash(spool: OutputSpool, info: Info, text: Bytes, k: nat, debris: Bytes, nextInfo: Info, next: Bytes)
    returns (reopened: OutputSpool, result: Result<nat, SpoolError>)
    requires spool.Valid() && spool.digest.None?
    modifies spool
    ensures fresh(reopened) && reopened.Valid()
    ensures exists survived :: (survived == old(spool.committed) || survived == old(spool.committed) + [text])
              && reopened.committed == if result.Ok? then survived + [next] else survived
    ensures result.Ok? ==> |reopened.file| == reopened.size && reopened.file == Utf8.Flatten(reopened.committed)
  {
    ghost var texts := spool.committed;
    var e: Disk;
    ghost var survived: seq<Bytes>;
    e, survived := AppendAndCrash(spool, info, text, k, debris);
    if spool.artifact.Some? {
      ArtifactSurvives(spool.artifact.value, texts, survived, text);
    }
    reopened := new OutputSpool.Reopen(e, spool.pathSet || e.size > 0, spool.artifact, survived);
    result := reopened.AppendText(nextInfo, next);
    if result.Ok? {
      assert (survived + [next])[..|survived|] == survived;
    }
  }

  /** The disk after the crash. */
  method AppendAndCrash(spool: OutputSpool, info: Info, text: Bytes, k: nat, debris: Bytes) returns (e: Disk, ghost survived: seq<Bytes>)
    requires spool.Valid() && spool.digest.None?
    modifies spool
    ensures survived == old(spool.committed) || survived == old(spool.committed) + [text]
    ensures Same(e, e.rows, e.size, Utf8.Flatten(survived))
    ensures spool.artifact == old(spool.artifact)
  {
    ghost var before, texts := spool.Now(), spool.committed;
    var passed := |spool.trail|;
    var first := spool.AppendText(info, text);
    var d := if k < |spool.trail| - passed then spool.trail[passed + k] else spool.Now();
    if k < |spool.trail| - passed {
      assert d == spool.trail[passed..][k];
    }
    assert Same(d, before.rows, before.size, Text(before)) || Same(d, spool.rows, spool.size, Text(spool.Now()));
    var kept := d.file[..d.synced];
    e := Disk(kept + debris, d.synced, d.rows, d.size);
    assert e.file[..d.synced] == kept;
    CrashedAppend(spool, before, texts, d, e);
    survived := if Same(e, before.rows, before.size, Utf8.Flatten(texts)) then texts else spool.committed;
  }

  lemma ArtifactSurvives(artifact: Bytes, texts: seq<Bytes>, survived: seq<Bytes>, text: Bytes)
    requires artifact <= Utf8.Flatten(texts) && (survived == texts || survived == texts + [text])
    ensures artifact <= Utf8.Flatten(survived)
  {
    assert (texts + [text])[..|texts|] == texts;
    assert Utf8.Flatten(texts + [text]) == Utf8.Flatten(texts) + text;
  }

  /**
   An artifact can be stale: finalization is cut short after promoting the spool, recovery appends
   more output, and the next finalization keeps the old artifact. Whenever the three succeed, the
   artifact is of the text whose digest is recorded if and only if nothing was added.
   */
  method InterruptedFinalization(spool: OutputSpool, info: Info, more: Bytes) returns (done: bool)
    requires spool.Valid() && spool.artifact.None? && spool.digest.None?
    requires |spool.file| == spool.size > ARTIFACT_THRESHOLD
    modifies spool
    ensures spool.Valid()
    ensures done ==>
              && spool.artifact == Some(Utf8.Flatten(old(spool.committed)))
              && spool.digest == Some(Storage.Digest(Utf8.Flatten(spool.committed)))
              && spool.committed == old(spool.committed) + [more]
              && (spool.artifact == Some(Utf8.Flatten(spool.committed)) <==> more == [])
  {
    ghost var texts := spool.committed;
    assert Text(spool.Now()) == spool.file;
    var promoted := spool.Promote();
    if !promoted {
      return false;
    }
    var appended := spool.AppendText(info, more);
    if appended.Err? {
      return false;
    }
    assert (texts + [more])[..|texts|] == texts;
    assert Utf8.Flatten(spool.committed) == Utf8.Flatten(texts) + more;
    var finalized := spool.FinalizeOutput();
    return finalized.Ok?;
  }
}
