/** Cutting stored text into chunks without cutting a character. */
module Utf8 {
  import opened KernelProof

  const CHUNK := 512

  /** A byte whose two high bits are 10. */
  predicate IsTail(b: Byte) {
    128 <= b < 192
  }

  predicate Tails(data: Bytes, from: nat, to: nat)
    requires from <= to <= |data|
  {
    forall i :: from <= i < to ==> IsTail(data[i])
  }

  /** The length of the character at the front, by section 4 of RFC 3629; 0 when there is none. */
  function FirstLength(data: Bytes): (n: nat)
    ensures n <= 4 && n <= |data|
    ensures n > 0 ==> !IsTail(data[0]) && Tails(data, 1, n)
  {
    if data == [] then 0
    else
      var b := data[0];
      if b < 128 then 1
      else if 194 <= b < 224 then if |data| >= 2 && IsTail(data[1]) then 2 else 0
      else if 224 <= b < 240 then
        if |data| >= 3 && IsTail(data[1]) && IsTail(data[2]) && (b == 224 ==> data[1] >= 160) && (b == 237 ==> data[1] < 160) then 3 else 0
      else if 240 <= b < 245 then
        if |data| >= 4 && IsTail(data[1]) && IsTail(data[2]) && IsTail(data[3]) && (b == 240 ==> data[1] >= 144) && (b == 244 ==> data[1] < 144)
        then 4 else 0
      else 0
  }

  predicate WellFormed(data: Bytes) {
    data == [] || (FirstLength(data) > 0 && WellFormed(data[FirstLength(data)..]))
  }

  lemma FirstLengthOfPrefix(data: Bytes, k: nat)
    requires FirstLength(data) > 0 && FirstLength(data) <= k <= |data|
    ensures FirstLength(data[..k]) == FirstLength(data)
  {
  }

  /** Well-formed text may be cut wherever the next byte is not a tail. */
  lemma {:induction false} CutBetween(data: Bytes, k: nat)
    requires WellFormed(data) && k <= |data|
    requires k < |data| ==> !IsTail(data[k])
    ensures WellFormed(data[..k]) && WellFormed(data[k..])
    decreases |data|
  {
    if k == 0 {
      assert data[..0] == [] && data[0..] == data;
    } else if k == |data| {
      assert data[..k] == data && data[k..] == [];
    } else {
      var n := FirstLength(data);
      assert k >= n;
      var rest := data[n..];
      assert k < |data| ==> rest[k - n] == data[k];
      CutBetween(rest, k - n);
      assert data[..k][n..] == rest[..k - n] && data[k..] == rest[k - n..];
      FirstLengthOfPrefix(data, k);
    }
  }

  /** At most three tails in a row. */
  lemma {:induction false} CharacterNearby(data: Bytes, k: nat) returns (j: nat)
    requires WellFormed(data) && k < |data|
    ensures j <= k < j + 4 && !IsTail(data[j])
    decreases |data|
  {
    var n := FirstLength(data);
    if k < n {
      j := 0;
    } else {
      j := CharacterNearby(data[n..], k - n);
      j := j + n;
    }
  }

  function Min(a: nat, b: nat): nat {
    if a < b then a else b
  }

  function Flatten(chunks: seq<Bytes>): Bytes {
    if chunks == [] then [] else Flatten(chunks[..|chunks| - 1]) + chunks[|chunks| - 1]
  }

  /** Where the chunk that starts at `start` ends. */
  method ChunkEnd(data: Bytes, start: nat) returns (end: nat)
    requires start < |data|
    ensures start < end <= Min(start + CHUNK, |data|)
    ensures WellFormed(data[start..]) ==> WellFormed(data[start..end]) && WellFormed(data[end..])
    ensures WellFormed(data[start..]) && end < |data| ==> 508 < end - start <= 512
  {
    end := Min(start + CHUNK, |data|);
    if end < |data| {
      ghost var from := end;
      while end > start && IsTail(data[end])
        invariant start <= end <= from
        invariant Tails(data, end + 1, from + 1)
      {
        end := end - 1;
      }
      if WellFormed(data[start..]) {
        NeverFallsBack(data, start, end);
      }
    }
    if end == start {
      // Only for bytes that are not UTF-8.
      assert !WellFormed(data[start..]);
      end := Min(start + CHUNK, |data|);
    } else if WellFormed(data[start..]) {
      CutBetween(data[start..], end - start);
      assert data[start..][..end - start] == data[start..end] && data[start..][end - start..] == data[end..];
    }
  }

  predicate AllWellFormed(chunks: seq<Bytes>) {
    forall c <- chunks :: WellFormed(c)
  }

  predicate AllFull(chunks: seq<Bytes>) {
    forall c <- chunks :: 508 < |c| <= 512
  }

  /**
   _split_utf8. The chunks are the text, in order; none exceeds the limit and none is empty
   unless the text is. For well-formed text every chunk is itself well-formed, and every chunk but
   the last is as long as the limit allows: at most three bytes are missing.
   */
  method Split(data: Bytes) returns (chunks: seq<Bytes>)
    ensures Flatten(chunks) == data
    ensures data == [] ==> chunks == [[]]
    ensures chunks != []
    ensures forall c <- chunks :: |c| <= CHUNK && (data != [] ==> c != [])
    ensures WellFormed(data) ==> AllWellFormed(chunks)
    ensures WellFormed(data) ==> AllFull(chunks[..|chunks| - 1])
  {
    if data == [] {
      assert Flatten([[]]) == [];
      return [[]];
    }
    chunks := [];
    var start := 0;
    assert data[0..] == data;
    while start < |data|
      invariant start <= |data|
      invariant Flatten(chunks) == data[..start]
      invariant forall c <- chunks :: 0 < |c| <= CHUNK
      invariant WellFormed(data) ==> WellFormed(data[start..]) && AllWellFormed(chunks)
      invariant WellFormed(data) ==> AllFull(if start < |data| then chunks else chunks[..|chunks| - 1])
      invariant start == |data| ==> chunks != []
    {
      var end := ChunkEnd(data, start);
      var chunk := data[start..end];
      assert (chunks + [chunk])[..|chunks|] == chunks;
      assert data[..end] == data[..start] + chunk;
      chunks := chunks + [chunk];
      start := end;
    }
    assert data[..start] == data;
  }

  /** Moving back over tails from a full chunk always stops after at most three bytes. */
  lemma NeverFallsBack(data: Bytes, start: nat, end: nat)
    requires start <= end <= start + CHUNK < |data|
    requires WellFormed(data[start..])
    requires Tails(data, end + 1, start + CHUNK + 1)
    requires end == start || !IsTail(data[end])
    ensures end > start && !IsTail(data[end]) && end > start + CHUNK - 4
  {
    var j := CharacterNearby(data[start..], CHUNK);
    assert data[start..][j] == data[start + j];
  }
}
