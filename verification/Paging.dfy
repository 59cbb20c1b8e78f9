/** Opaque cursors, and budgeted pages of output events. */
module Paging {
  import opened Wrappers

  // ---------------------------------------------------------------- cursors

  const PREFIX := "c1_"

  /** Digits are 0-9, then a-z. */
  function DigitChar(d: nat): char
    requires d < 36
  {
    if d < 10 then ('0' as int + d) as char else ('a' as int + d - 10) as char
  }

  function DigitValue(c: char): Option<nat> {
    if '0' <= c <= '9' then Some(c as int - '0' as int)
    else if 'a' <= c <= 'z' then Some(c as int - 'a' as int + 10)
    else None
  }

  /** int(text, 36), None when a character is not a lower-case digit. */
  function Value(text: string): Option<nat> {
    if text == [] then Some(0)
    else
      match (Value(text[..|text| - 1]), DigitValue(text[|text| - 1]))
      case (Some(high), Some(low)) => Some(36 * high + low)
      case _ => None
  }

  /** decode_cursor: None stands for ValueError. */
  function Decode(cursor: Option<string>): Option<nat> {
    if cursor.None? then Some(0)
    else if |cursor.value| > 3 && cursor.value[..3] == PREFIX then Value(cursor.value[3..])
    else None
  }

  function Encode(n: nat): string {
    if n < 36 then [DigitChar(n)] else Encode(n / 36) + [DigitChar(n % 36)]
  }

  function Cursor(n: nat): string {
    PREFIX + Encode(n)
  }

  function Reversed(parts: string): string {
    if parts == [] then [] else Reversed(parts[1..]) + [parts[0]]
  }

  /** encode_cursor: digits are produced lowest first, then reversed. */
  method EncodeCursor(offset: int) returns (cursor: Option<string>)
    ensures cursor == if offset < 0 then None else Some(Cursor(offset))
  {
    if offset < 0 {
      return None;
    }
    var encoded := "0";
    if offset > 0 {
      var parts, value := "", offset;
      while value > 0
        invariant value >= 0
        invariant value > 0 ==> Encode(value) + Reversed(parts) == Encode(offset)
        invariant value == 0 ==> Reversed(parts) == Encode(offset)
      {
        ghost var before := parts;
        parts := parts + [DigitChar(value % 36)];
        ReversedAppend(before, DigitChar(value % 36));
        value := value / 36;
      }
      encoded := Reversed(parts);
    }
    return Some(PREFIX + encoded);
  }

  lemma {:induction false} ReversedAppend(parts: string, c: char)
    ensures Reversed(parts + [c]) == [c] + Reversed(parts)
  {
    if parts != [] {
      assert (parts + [c])[1..] == parts[1..] + [c];
      ReversedAppend(parts[1..], c);
    }
  }

  lemma {:induction false} ValueOfEncode(n: nat)
    ensures Value(Encode(n)) == Some(n)
  {
    assert DigitValue(DigitChar(n % 36)) == Some(n % 36);
    if n < 36 {
      assert [DigitChar(n)][..0] == [];
    } else {
      ValueOfEncode(n / 36);
      assert Encode(n)[..|Encode(n)| - 1] == Encode(n / 36);
    }
  }

  /** Every offset survives the trip through a cursor; so two offsets never share one. */
  lemma CursorRoundTrip(n: nat)
    ensures Decode(Some(Cursor(n))) == Some(n)
  {
    ValueOfEncode(n);
    assert Cursor(n)[..3] == PREFIX && Cursor(n)[3..] == Encode(n);
  }

  /** The text of a cursor: "c1_" and lower-case digits of base 36. */
  predicate IsCursor(text: string) {
    && |text| > 3 && text[0] == 'c' && text[1] == '1' && text[2] == '_'
    && forall i :: 3 <= i < |text| ==> '0' <= text[i] <= '9' || 'a' <= text[i] <= 'z'
  }

  lemma {:induction false} ValueOfDigits(text: string)
    ensures Value(text).Some? <==> forall i :: 0 <= i < |text| ==> '0' <= text[i] <= '9' || 'a' <= text[i] <= 'z'
  {
    if text != [] {
      var n := |text| - 1;
      ValueOfDigits(text[..n]);
      assert text == text[..n] + [text[n]];
    }
  }

  /** Exactly such texts are accepted as cursors; no cursor stands for the start. */
  lemma DecodesIff(cursor: Option<string>)
    ensures Decode(cursor).Some? <==> cursor.None? || IsCursor(cursor.value)
    ensures cursor.None? ==> Decode(cursor) == Some(0)
    ensures cursor.Some? && IsCursor(cursor.value) && |cursor.value| == 4 ==> Decode(cursor).value < 36
  {
    if cursor.Some? && |cursor.value| > 3 {
      var text := cursor.value;
      ValueOfDigits(text[3..]);
      assert forall i :: 3 <= i < |text| ==> text[i] == text[3..][i - 3];
      assert text[..3] == [text[0], text[1], text[2]];
      if |text| == 4 {
        assert text[3..][..0] == [];
      }
    }
  }

  // ---------------------------------------------------------------- pages

  const MIN_PAGE := 512
  const MAX_PAGE := 131_072

  datatype PageError = BudgetTooSmall | InvalidMaxBytes | InvalidCursor | EventTooLarge(bytes: nat)

  datatype Page<T> = Page(events: seq<T>, nextCursor: Option<string>, hasMore: bool)

  /** The page is filled greedily: the index after the last event that still fits. */
  function Fill(sizes: seq<nat>, from: nat, used: nat, budget: nat): (end: nat)
    requires from <= |sizes|
    ensures from <= end <= |sizes|
    decreases |sizes| - from
  {
    if from == |sizes| || used + sizes[from] > budget then from
    else Fill(sizes, from + 1, used + sizes[from], budget)
  }

  /** The page that starts at an offset, for a supported budget. */
  function PageFrom<T>(events: seq<T>, sizes: seq<nat>, offset: nat, maxBytes: nat): Result<Page<T>, PageError>
    requires |events| == |sizes|
  {
    if offset > |events| then Err(InvalidCursor)
    else if offset == |events| then Ok(Page([], None, false))
    else if sizes[offset] > maxBytes then Err(EventTooLarge(sizes[offset]))
    else
      var end := Fill(sizes, offset + 1, sizes[offset], maxBytes);
      Ok(Page(events[offset..end], if end < |events| then Some(Cursor(end)) else None, end < |events|))
  }

  function PageAt<T>(events: seq<T>, sizes: seq<nat>, cursor: Option<string>, maxBytes: int): Result<Page<T>, PageError>
    requires |events| == |sizes|
  {
    if maxBytes < MIN_PAGE then Err(BudgetTooSmall)
    else if maxBytes > MAX_PAGE then Err(InvalidMaxBytes)
    else if Decode(cursor).None? then Err(InvalidCursor)
    else PageFrom(events, sizes, Decode(cursor).value, maxBytes)
  }

  /** read_output_page; sizes are the serialized sizes of the events. */
  method ReadPage<T>(events: seq<T>, sizes: seq<nat>, cursor: Option<string>, maxBytes: int) returns (result: Result<Page<T>, PageError>)
    requires |events| == |sizes|
    ensures result == PageAt(events, sizes, cursor, maxBytes)
  {
    if maxBytes < MIN_PAGE {
      return Err(BudgetTooSmall);
    }
    if maxBytes > MAX_PAGE {
      return Err(InvalidMaxBytes);
    }
    var decoded := Decode(cursor);
    if decoded.None? {
      return Err(InvalidCursor);
    }
    var offset := decoded.value;
    if offset >= |events| {
      if offset > |events| {
        return Err(InvalidCursor);
      }
    }
    var page: seq<T>, used: nat, next: nat, hasMore := [], 0, offset, false;
    while next < |events| && !hasMore
      invariant offset <= next <= |events|
      invariant page == events[offset..next]
      invariant page == [] ==> next == offset && used == 0 && !hasMore
      invariant next > offset ==> sizes[offset] <= maxBytes
      invariant next > offset ==> Fill(sizes, offset + 1, sizes[offset], maxBytes) == if hasMore then next else Fill(sizes, next, used, maxBytes)
      invariant hasMore ==> next < |events|
      decreases |events| - next, if hasMore then 0 else 1
    {
      var size := sizes[next];
      if page != [] && used + size > maxBytes {
        hasMore := true;
      } else {
        if page == [] && size > maxBytes {
          return Err(EventTooLarge(size));
        }
        page := page + [events[next]];
        used := used + size;
        next := next + 1;
      }
    }
    var nextCursor: Option<string> := None;
    if hasMore {
      nextCursor := EncodeCursor(next);
    }
    return Ok(Page(page, nextCursor, hasMore));
  }

  /** When there is a page, and which error there is otherwise. */
  lemma PagesIff<T>(events: seq<T>, sizes: seq<nat>, cursor: Option<string>, maxBytes: int)
    requires |events| == |sizes|
    ensures var result := PageAt(events, sizes, cursor, maxBytes);
            var supported := 512 <= maxBytes <= 131072;
            var known := Decode(cursor).Some? && Decode(cursor).value <= |events|;
            var fits := known && (Decode(cursor).value < |events| ==> sizes[Decode(cursor).value] <= maxBytes);
            && (result.Ok? <==> supported && known && fits)
            && (result == Err(BudgetTooSmall) <==> maxBytes < 512)
            && (result == Err(InvalidMaxBytes) <==> maxBytes > 131072)
            && (result == Err(InvalidCursor) <==> supported && !known)
            && (supported && known && !fits <==> result.Err? && result.error.EventTooLarge?)
            && (supported && known && !fits ==> result.error.bytes == sizes[Decode(cursor).value])
  {
  }

  function Sum(sizes: seq<nat>): nat {
    if sizes == [] then 0 else sizes[0] + Sum(sizes[1..])
  }

  lemma {:induction false} FillFits(sizes: seq<nat>, from: nat, used: nat, budget: nat)
    requires from <= |sizes| && used <= budget
    ensures used + Sum(sizes[from..Fill(sizes, from, used, budget)]) <= budget
    ensures Fill(sizes, from, used, budget) < |sizes| ==>
              used + Sum(sizes[from..Fill(sizes, from, used, budget)]) + sizes[Fill(sizes, from, used, budget)] > budget
    decreases |sizes| - from
  {
    var end := Fill(sizes, from, used, budget);
    if from < end {
      FillFits(sizes, from + 1, used + sizes[from], budget);
      assert sizes[from..end][1..] == sizes[from + 1..end];
    }
  }

  /** A page stays within its budget, and ends only where the next event would not fit. */
  lemma PageFits<T>(events: seq<T>, sizes: seq<nat>, offset: nat, maxBytes: nat)
    requires |events| == |sizes| && offset < |events| && sizes[offset] <= maxBytes
    ensures var page := PageFrom(events, sizes, offset, maxBytes).value;
            var end := offset + |page.events|;
            && 0 < |page.events| && end <= |events| && page.events == events[offset..end]
            && Sum(sizes[offset..end]) <= maxBytes
            && (page.hasMore <==> end < |events|)
            && (page.hasMore ==> Sum(sizes[offset..end]) + sizes[end] > maxBytes && Decode(page.nextCursor) == Some(end))
  {
    var end := Fill(sizes, offset + 1, sizes[offset], maxBytes);
    FillFits(sizes, offset + 1, sizes[offset], maxBytes);
    assert sizes[offset..end][1..] == sizes[offset + 1..end];
    assert Sum(sizes[offset..end]) == sizes[offset] + Sum(sizes[offset + 1..end]);
    CursorRoundTrip(end);
  }

  lemma {:induction false} FillStable(sizes: seq<nat>, more: seq<nat>, from: nat, used: nat, budget: nat)
    requires from <= |sizes|
    ensures Fill(sizes, from, used, budget) < |sizes| ==> Fill(sizes + more, from, used, budget) == Fill(sizes, from, used, budget)
    decreases |sizes| - from
  {
    if from < |sizes| && used + sizes[from] <= budget {
      FillStable(sizes, more, from + 1, used + sizes[from], budget);
    }
  }

  /** A page that is not the last one is the same page for ever, whatever is appended later. */
  lemma PageStable<T>(events: seq<T>, sizes: seq<nat>, laterEvents: seq<T>, laterSizes: seq<nat>, cursor: Option<string>, maxBytes: int)
    requires |events| == |sizes| && |laterEvents| == |laterSizes|
    requires PageAt(events, sizes, cursor, maxBytes).Ok? && PageAt(events, sizes, cursor, maxBytes).value.hasMore
    ensures PageAt(events + laterEvents, sizes + laterSizes, cursor, maxBytes) == PageAt(events, sizes, cursor, maxBytes)
  {
    var offset := Decode(cursor).value;
    var end := Fill(sizes, offset + 1, sizes[offset], maxBytes);
    FillStable(sizes, laterSizes, offset + 1, sizes[offset], maxBytes);
    assert (events + laterEvents)[offset..end] == events[offset..end];
  }

  /** A reader following cursors: page k is read with its own budget, from the cursor page k - 1 returned. */
  ghost predicate IsTraversal<T>(events: seq<T>, sizes: seq<nat>, cursor: Option<string>, budgets: seq<int>, pages: seq<Page<T>>)
    requires |events| == |sizes|
    decreases |pages|
  {
    && |pages| == |budgets| && pages != []
    && PageAt(events, sizes, cursor, budgets[0]) == Ok(pages[0])
    && if pages[0].hasMore then IsTraversal(events, sizes, pages[0].nextCursor, budgets[1..], pages[1..]) else |pages| == 1
  }

  function Joined<T>(pages: seq<Page<T>>): seq<T> {
    if pages == [] then [] else pages[0].events + Joined(pages[1..])
  }

  /** Whatever the budgets, following cursors to the end visits every event once, in order. */
  lemma {:induction false} TraversalIsComplete<T>(events: seq<T>, sizes: seq<nat>, cursor: Option<string>, budgets: seq<int>, pages: seq<Page<T>>)
    requires |events| == |sizes|
    requires IsTraversal(events, sizes, cursor, budgets, pages)
    ensures Decode(cursor).Some? && Decode(cursor).value <= |events|
    ensures Joined(pages) == events[Decode(cursor).value..]
    decreases |pages|
  {
    var offset := Decode(cursor).value;
    assert Joined(pages) == pages[0].events + Joined(pages[1..]);
    if pages[0].hasMore {
      var end := Fill(sizes, offset + 1, sizes[offset], budgets[0]);
      CursorRoundTrip(end);
      TraversalIsComplete(events, sizes, pages[0].nextCursor, budgets[1..], pages[1..]);
      assert events[offset..] == events[offset..end] + events[end..];
    } else {
      assert pages[1..] == [];
    }
  }

  /** The pages a reader with one supported budget gets, or the error that stops it. */
  function Traverse<T>(events: seq<T>, sizes: seq<nat>, offset: nat, maxBytes: nat): Result<seq<Page<T>>, PageError>
    requires |events| == |sizes| && offset <= |events|
    decreases |events| - offset
  {
    match PageFrom(events, sizes, offset, maxBytes)
    case Err(e) => Err(e)
    case Ok(page) =>
      if !page.hasMore then Ok([page])
      else
        match Traverse(events, sizes, Fill(sizes, offset + 1, sizes[offset], maxBytes), maxBytes)
        case Err(e) => Err(e)
        case Ok(rest) => Ok([page] + rest)
  }

  /** Those are the pages the cursors lead to. */
  lemma {:induction false} TraverseFollowsCursors<T>(events: seq<T>, sizes: seq<nat>, offset: nat, maxBytes: nat)
    requires |events| == |sizes| && offset <= |events|
    requires MIN_PAGE <= maxBytes <= MAX_PAGE
    requires Traverse(events, sizes, offset, maxBytes).Ok?
    ensures var pages := Traverse(events, sizes, offset, maxBytes).value;
            IsTraversal(events, sizes, Some(Cursor(offset)), seq(|pages|, _ => maxBytes), pages)
    decreases |events| - offset
  {
    CursorRoundTrip(offset);
    var pages := Traverse(events, sizes, offset, maxBytes).value;
    if pages[0].hasMore {
      var end := Fill(sizes, offset + 1, sizes[offset], maxBytes);
      TraverseFollowsCursors(events, sizes, end, maxBytes);
      assert seq(|pages|, _ => maxBytes)[1..] == seq(|pages| - 1, _ => maxBytes);
      assert pages[1..] == Traverse(events, sizes, end, maxBytes).value;
    }
  }

  /** A reader gets to the end exactly when every remaining event fits its budget. */
  lemma {:induction false} TraverseSucceeds<T>(events: seq<T>, sizes: seq<nat>, offset: nat, maxBytes: nat)
    requires |events| == |sizes| && offset <= |events|
    ensures Traverse(events, sizes, offset, maxBytes).Ok? <==> forall k | offset <= k < |sizes| :: sizes[k] <= maxBytes
    decreases |events| - offset
  {
    if offset < |events| && sizes[offset] <= maxBytes {
      PageFits(events, sizes, offset, maxBytes);
      var end := Fill(sizes, offset + 1, sizes[offset], maxBytes);
      forall k | offset <= k < end ensures sizes[k] <= maxBytes {
        SumBounds(sizes[offset..end], k - offset);
      }
      if end < |events| {
        TraverseSucceeds(events, sizes, end, maxBytes);
      }
    }
  }

  lemma {:induction false} SumBounds(sizes: seq<nat>, k: nat)
    requires k < |sizes|
    ensures sizes[k] <= Sum(sizes)
  {
    if k > 0 {
      SumBounds(sizes[1..], k - 1);
    }
  }
}
