/** internal/report/html.go: from hit counts to highlighted source. */
module Ranges {
  import opened Basics
  import opened Sums
  import opened SignalCodec
  import opened Hits

  datatype Range = Range(startPos: nat, length: nat, hitCount: int)

  function End(r: Range): nat {
    r.startPos + r.length
  }

  predicate Contains(r: Range, b: nat) {
    r.startPos <= b < End(r)
  }

  predicate Sorted(rs: seq<Range>) {
    forall i, j :: 0 <= i < j < |rs| ==> rs[i].startPos <= rs[j].startPos
  }

  /** Non-empty, in order, and one behind the other. */
  predicate Row(rs: seq<Range>) {
    && (forall i :: 0 <= i < |rs| ==> rs[i].length > 0)
    && (forall i, j :: 0 <= i < j < |rs| ==> End(rs[i]) <= rs[j].startPos)
  }

  /** The hit count of the first of the first `n` ranges that contains byte `b`. */
  function Owner(rs: seq<Range>, n: nat, b: nat): Option<int>
    requires n <= |rs|
  {
    if n == 0 then None
    else
      var earlier := Owner(rs, n - 1, b);
      if earlier.Some? then earlier
      else if Contains(rs[n - 1], b) then Some(rs[n - 1].hitCount) else None
  }

  lemma {:induction false} OwnerOfPrefix(rs: seq<Range>, more: seq<Range>, n: nat, b: nat)
    requires n <= |rs|
    ensures Owner(rs + more, n, b) == Owner(rs, n, b)
    decreases n
  {
    if n > 0 {
      OwnerOfPrefix(rs, more, n - 1, b);
    }
  }

  /** A byte has an owner exactly if some range contains it. */
  lemma {:induction false} OwnerIsFirst(rs: seq<Range>, n: nat, b: nat)
    requires n <= |rs|
    ensures match Owner(rs, n, b)
            case None => forall k :: 0 <= k < n ==> !Contains(rs[k], b)
            case Some(h) => exists k :: 0 <= k < n && Contains(rs[k], b) && rs[k].hitCount == h
                                        && forall j :: 0 <= j < k ==> !Contains(rs[j], b)
    decreases n
  {
    if n > 0 {
      OwnerIsFirst(rs, n - 1, b);
    }
  }

  // ----- overlaps -----

  /** `end` is the largest end of the non-empty ones of the first `n` ranges, or 0. */
  predicate LargestEnd(rs: seq<Range>, n: nat, end: nat)
    requires n <= |rs|
  {
    && (forall k :: 0 <= k < n && rs[k].length > 0 ==> End(rs[k]) <= end)
    && (end > 0 ==> exists k :: 0 <= k < n && End(rs[k]) == end)
  }

  ghost predicate SameOwners(a: seq<Range>, b: seq<Range>, n: nat)
    requires n <= |b|
  {
    forall p: nat :: Owner(a, |a|, p) == Owner(b, n, p)
  }

  /** A byte of range `n` that lies before the largest end so far has an owner already. */
  lemma OwnedBefore(rs: seq<Range>, n: nat, end: nat, p: nat)
    requires n < |rs| && Sorted(rs) && LargestEnd(rs, n, end) && rs[n].startPos <= p < end
    ensures Owner(rs, n, p).Some?
  {
    var k :| 0 <= k < n && End(rs[k]) == end;
    assert Contains(rs[k], p);
    OwnerIsFirst(rs, n, p);
  }

  lemma SkipCovered(rs: seq<Range>, n: nat, end: nat, result: seq<Range>)
    requires n < |rs| && Sorted(rs) && LargestEnd(rs, n, end) && (End(rs[n]) <= end || rs[n].length == 0)
    requires SameOwners(result, rs, n)
    ensures SameOwners(result, rs, n + 1) && LargestEnd(rs, n + 1, end)
  {
    forall p: nat ensures Owner(result, |result|, p) == Owner(rs, n + 1, p) {
      assert Owner(result, |result|, p) == Owner(rs, n, p);
      if Contains(rs[n], p) {
        OwnedBefore(rs, n, end, p);
      }
    }
  }

  lemma AppendRest(rs: seq<Range>, n: nat, end: nat, result: seq<Range>, r: Range)
    requires n < |rs| && Sorted(rs) && LargestEnd(rs, n, end) && end < End(rs[n])
    requires SameOwners(result, rs, n)
    requires r.startPos == (if rs[n].startPos > end then rs[n].startPos else end)
    requires r.length > 0 && End(r) == End(rs[n]) && r.hitCount == rs[n].hitCount
    ensures SameOwners(result + [r], rs, n + 1) && LargestEnd(rs, n + 1, End(r))
  {
    var all := result + [r];
    forall p: nat ensures Owner(all, |all|, p) == Owner(rs, n + 1, p) {
      OwnerOfPrefix(result, [r], |result|, p);
      assert Owner(result, |result|, p) == Owner(rs, n, p);
      if Contains(rs[n], p) && p < end {
        OwnedBefore(rs, n, end, p);
      }
    }
    assert End(rs[n]) == End(r);
  }

  /** `resolveOverlappingRanges`: the result is in order and disjoint, and every byte belongs to the first
      range that contained it; so exactly the same bytes are covered. */
  method ResolveOverlappingRanges(ranges: seq<Range>) returns (result: seq<Range>)
    requires Sorted(ranges)
    ensures Row(result) && SameOwners(result, ranges, |ranges|)
  {
    if |ranges| == 0 {
      return ranges;
    }
    hide Owner, SameOwners, LargestEnd, Sorted;
    result := [];
    var currentEnd: nat := 0;
    NoOwners(ranges);
    for i := 0 to |ranges|
      invariant Row(result) && forall k :: 0 <= k < |result| ==> End(result[k]) <= currentEnd
      invariant SameOwners(result, ranges, i) && LargestEnd(ranges, i, currentEnd)
    {
      var rng := ranges[i];
      if End(rng) <= currentEnd {
        SkipCovered(ranges, i, currentEnd, result);
        continue;
      }
      var adjustedStart := if rng.startPos > currentEnd then rng.startPos else currentEnd;
      var adjustedLength := End(rng) - adjustedStart;
      if adjustedLength > 0 {
        var piece := Range(adjustedStart, adjustedLength, rng.hitCount);
        AppendRest(ranges, i, currentEnd, result, piece);
        result := result + [piece];
        currentEnd := adjustedStart + adjustedLength;
      } else {
        SkipCovered(ranges, i, currentEnd, result);
      }
    }
  }

  lemma NoOwners(ranges: seq<Range>)
    ensures SameOwners([], ranges, 0) && LargestEnd(ranges, 0, 0)
  {
  }

  // ----- reading the keys -----

  /** The range a key stands for, if it parses. */
  function RangeOf(posHits: PositionHits, key: string): Option<Range>
    requires key in posHits
  {
    match ParsePositionKey(key)
    case None => None
    case Some((start, length)) => Some(Range(start, length, posHits[key]))
  }

  /** `rs` holds the ranges of the given keys, in any order. */
  predicate RangesOf(rs: seq<Range>, posHits: PositionHits, keys: set<string>)
    requires keys <= posHits.Keys
  {
    && (forall k :: 0 <= k < |rs| ==> exists key :: key in keys && RangeOf(posHits, key) == Some(rs[k]))
    && (forall key :: key in keys && RangeOf(posHits, key).Some? ==> RangeOf(posHits, key).value in rs)
  }

  /** `sort.Slice` by start: some sorted permutation, whatever the order of ties. */
  method SortByStart(rs: seq<Range>) returns (sorted: seq<Range>)
    ensures Sorted(sorted) && multiset(sorted) == multiset(rs)
  {
    sorted := [];
    var rest := rs;
    while rest != []
      invariant multiset(sorted) + multiset(rest) == multiset(rs)
      invariant Sorted(sorted)
      invariant forall i, j :: 0 <= i < |sorted| && 0 <= j < |rest| ==> sorted[i].startPos <= rest[j].startPos
      decreases |rest|
    {
      LeastExists(rest);
      var k :| 0 <= k < |rest| && Least(rest, k);
      WithoutMultiset(rest, k);
      sorted := sorted + [rest[k]];
      rest := Without(rest, k);
    }
  }

  predicate Least(rs: seq<Range>, k: nat)
    requires k < |rs|
  {
    forall j :: 0 <= j < |rs| ==> rs[k].startPos <= rs[j].startPos
  }

  lemma {:induction false} LeastExists(rs: seq<Range>)
    requires rs != []
    ensures exists k :: 0 <= k < |rs| && Least(rs, k)
    decreases |rs|
  {
    var last, init := |rs| - 1, rs[..|rs| - 1];
    if init == [] {
      assert Least(rs, 0);
    } else {
      LeastExists(init);
      var k :| 0 <= k < |init| && Least(init, k);
      var m := if rs[last].startPos < rs[k].startPos then last else k;
      forall j | 0 <= j < |rs| ensures rs[m].startPos <= rs[j].startPos {
        if j < last { assert init[j] == rs[j] && init[k] == rs[k]; }
      }
      assert Least(rs, m);
    }
  }

  /** What a byte may be painted with: the hits of a key whose range contains it and starts first. */
  predicate PaintedBy(posHits: PositionHits, b: nat, key: string) {
    && key in posHits && RangeOf(posHits, key).Some? && Contains(RangeOf(posHits, key).value, b)
    && forall other ::
         other in posHits && RangeOf(posHits, other).Some? && Contains(RangeOf(posHits, other).value, b) ==>
         RangeOf(posHits, key).value.startPos <= RangeOf(posHits, other).value.startPos
  }

  ghost predicate PaintMayBe(posHits: PositionHits, b: nat, paint: Option<int>) {
    match paint
    case None =>
      forall key :: key in posHits && RangeOf(posHits, key).Some? ==> !Contains(RangeOf(posHits, key).value, b)
    case Some(h) => exists key :: PaintedBy(posHits, b, key) && posHits[key] == h
  }

  lemma OwnerPaints(posHits: PositionHits, rs: seq<Range>, b: nat)
    requires RangesOf(rs, posHits, posHits.Keys) && Sorted(rs)
    ensures PaintMayBe(posHits, b, Owner(rs, |rs|, b))
  {
    OwnerIsFirst(rs, |rs|, b);
    hide Owner, RangeOf, Contains, Sorted, PaintedBy;
    match Owner(rs, |rs|, b)
    case None =>
      forall key | key in posHits && RangeOf(posHits, key).Some?
        ensures !Contains(RangeOf(posHits, key).value, b)
      {
        var k :| 0 <= k < |rs| && rs[k] == RangeOf(posHits, key).value;
      }
    case Some(h) =>
      var k :| 0 <= k < |rs| && Contains(rs[k], b) && rs[k].hitCount == h
               && forall j :: 0 <= j < k ==> !Contains(rs[j], b);
      var key :| key in posHits && RangeOf(posHits, key) == Some(rs[k]);
      FirstPaints(posHits, rs, b, k, key);
      HitsOfKey(posHits, key);
  }

  lemma HitsOfKey(posHits: PositionHits, key: string)
    requires key in posHits && RangeOf(posHits, key).Some?
    ensures RangeOf(posHits, key).value.hitCount == posHits[key]
  {
  }

  lemma FirstPaints(posHits: PositionHits, rs: seq<Range>, b: nat, k: nat, key: string)
    requires RangesOf(rs, posHits, posHits.Keys) && Sorted(rs) && k < |rs| && Contains(rs[k], b)
    requires forall j :: 0 <= j < k ==> !Contains(rs[j], b)
    requires key in posHits && RangeOf(posHits, key) == Some(rs[k])
    ensures PaintedBy(posHits, b, key)
  {
    hide RangeOf, Contains;
    forall other | other in posHits && RangeOf(posHits, other).Some? && Contains(RangeOf(posHits, other).value, b)
      ensures rs[k].startPos <= RangeOf(posHits, other).value.startPos
    {
      var j :| 0 <= j < |rs| && rs[j] == RangeOf(posHits, other).value;
      assert k <= j;
    }
  }

  /** `parsePositionRanges`: keys in any order, ties in any order. */
  method ParsePositionRanges(posHits: PositionHits) returns (ranges: seq<Range>)
    ensures Row(ranges)
    ensures forall b: nat :: PaintMayBe(posHits, b, Owner(ranges, |ranges|, b))
  {
    var all: seq<Range> := [];
    var keys := posHits.Keys;
    ghost var done: set<string> := {};
    while keys != {}
      invariant keys <= posHits.Keys && done == posHits.Keys - keys
      invariant RangesOf(all, posHits, done)
      decreases |keys|
    {
      hide RangeOf;
      var key :| key in keys;
      keys := keys - {key};
      var rng := RangeOf(posHits, key);
      AddRange(all, posHits, done, key);
      done := done + {key};
      if rng.Some? {
        all := all + [rng.value];
      }
    }
    assert done == posHits.Keys;
    hide RangeOf, Owner, PaintMayBe;
    var sorted := SortByStart(all);
    SameRanges(all, sorted, posHits, done);
    ranges := ResolveOverlappingRanges(sorted);
    forall b: nat ensures PaintMayBe(posHits, b, Owner(ranges, |ranges|, b)) {
      OwnerPaints(posHits, sorted, b);
    }
  }

  lemma AddRange(rs: seq<Range>, posHits: PositionHits, done: set<string>, key: string)
    requires done <= posHits.Keys && key in posHits && RangesOf(rs, posHits, done)
    ensures var rng := RangeOf(posHits, key);
            RangesOf(if rng.Some? then rs + [rng.value] else rs, posHits, done + {key})
  {
    hide RangeOf;
    var rng := RangeOf(posHits, key);
    var rs' := if rng.Some? then rs + [rng.value] else rs;
    forall k | 0 <= k < |rs'| ensures exists key' :: key' in done + {key} && RangeOf(posHits, key') == Some(rs'[k]) {
      if k < |rs| {
        var key' :| key' in done && RangeOf(posHits, key') == Some(rs[k]);
        assert key' in done + {key};
      }
    }
  }

  lemma SameRanges(a: seq<Range>, b: seq<Range>, posHits: PositionHits, keys: set<string>)
    requires keys <= posHits.Keys && RangesOf(a, posHits, keys) && multiset(a) == multiset(b)
    ensures RangesOf(b, posHits, keys)
  {
    hide RangeOf;
    assert forall r :: r in a <==> r in multiset(a);
    assert forall r :: r in b <==> r in multiset(b);
    forall k | 0 <= k < |b| ensures exists key :: key in keys && RangeOf(posHits, key) == Some(b[k]) {
      assert b[k] in a;
    }
  }
}

/** Writing source text as HTML, and what a browser shows of it. */
module Escaping {
  import opened Splicing

  /** `html.EscapeString`, character by character. */
  function EscapeChar(c: char): string {
    if c == '&' then "&amp;"
    else if c == '\'' then "&#39;"
    else if c == '<' then "&lt;"
    else if c == '>' then "&gt;"
    else if c == '\"' then "&#34;"
    else [c]
  }

  function Escape(s: string): string {
    if s == "" then "" else EscapeChar(s[0]) + Escape(s[1..])
  }

  predicate Starts(s: string, entity: string) {
    |entity| <= |s| && s[..|entity|] == entity
  }

  /** A browser's reading of character references. */
  function Unescape(s: string): string
    decreases |s|
  {
    if s == "" then ""
    else if Starts(s, "&amp;") then "&" + Unescape(s[5..])
    else if Starts(s, "&#39;") then "'" + Unescape(s[5..])
    else if Starts(s, "&lt;") then "<" + Unescape(s[4..])
    else if Starts(s, "&gt;") then ">" + Unescape(s[4..])
    else if Starts(s, "&#34;") then "\"" + Unescape(s[5..])
    else [s[0]] + Unescape(s[1..])
  }

  /** The text outside of tags. */
  function Visible(s: string, inTag: bool): string
    decreases |s|
  {
    if s == "" then ""
    else if inTag then Visible(s[1..], s[0] != '>')
    else if s[0] == '<' then Visible(s[1..], true)
    else [s[0]] + Visible(s[1..], false)
  }

  /** Neither the beginning nor the end of a tag or of an attribute. */
  predicate NoTags(s: string) {
    '<' !in s && '>' !in s && '"' !in s && '\'' !in s
  }

  lemma {:induction false} EscapeHasNoTags(s: string)
    ensures NoTags(Escape(s))
  {
    if s != "" {
      EscapeHasNoTags(s[1..]);
      assert NoTags(EscapeChar(s[0]));
    }
  }

  lemma UnescapeFirst(c: char, rest: string)
    ensures Unescape(EscapeChar(c) + rest) == [c] + Unescape(rest)
  {
    var s := EscapeChar(c) + rest;
    if |EscapeChar(c)| == 1 {
      assert s[0] == c && s[1..] == rest;
      assert forall entity | Starts(s, entity) && |entity| > 0 :: entity[0] == c;
    } else {
      assert s[..|EscapeChar(c)|] == EscapeChar(c) && s[|EscapeChar(c)|..] == rest;
      assert s[1] == EscapeChar(c)[1] && s[3] == EscapeChar(c)[3];
      StartsAt(s, "&amp;", 1);
      StartsAt(s, "&#39;", 1);
      StartsAt(s, "&#39;", 3);
      StartsAt(s, "&lt;", 1);
      StartsAt(s, "&gt;", 1);
    }
  }

  lemma StartsAt(s: string, entity: string, k: nat)
    requires k < |entity|
    ensures Starts(s, entity) ==> s[k] == entity[k]
  {
    if Starts(s, entity) { assert s[..|entity|][k] == s[k]; }
  }

  /** Escaping loses nothing. */
  lemma {:induction false} UnescapeEscape(s: string)
    ensures Unescape(Escape(s)) == s
  {
    if s != "" {
      UnescapeFirst(s[0], Escape(s[1..]));
      UnescapeEscape(s[1..]);
    }
  }

  lemma EscapeFirst(c: char, rest: string)
    ensures Escape([c] + rest) == EscapeChar(c) + Escape(rest)
  {
    assert ([c] + rest)[1..] == rest;
  }

  lemma FirstOfConcat<T>(a: seq<T>, b: seq<T>)
    requires a != []
    ensures a == [a[0]] + a[1..] && a + b == [a[0]] + (a[1..] + b)
  {
  }

  lemma {:induction false} EscapeConcat(a: string, b: string)
    ensures Escape(a + b) == Escape(a) + Escape(b)
  {
    if a == "" {
      assert a + b == b;
    } else {
      hide Escape, EscapeChar;
      EscapeConcat(a[1..], b);
      EscapeFirst(a[0], a[1..]);
      EscapeFirst(a[0], a[1..] + b);
      FirstOfConcat(a, b);
      Concat3(EscapeChar(a[0]), Escape(a[1..]), Escape(b));
    }
  }

  lemma {:induction false} VisibleText(text: string, rest: string)
    requires '<' !in text
    ensures Visible(text + rest, false) == text + Visible(rest, false)
  {
    if text == "" {
      assert text + rest == rest;
    } else {
      VisibleText(text[1..], rest);
      assert (text + rest)[0] == text[0] && (text + rest)[1..] == text[1..] + rest;
    }
  }

  lemma {:induction false} VisibleInTag(inner: string, rest: string)
    requires '>' !in inner
    ensures Visible(inner + ">" + rest, true) == Visible(rest, false)
  {
    var s := inner + ">" + rest;
    if inner == "" {
      assert s[0] == '>' && s[1..] == rest;
    } else {
      VisibleInTag(inner[1..], rest);
      assert s[0] == inner[0] && s[1..] == inner[1..] + ">" + rest;
    }
  }

  lemma VisibleTag(inner: string, rest: string)
    requires '>' !in inner
    ensures Visible("<" + inner + ">" + rest, false) == Visible(rest, false)
  {
    var s := "<" + inner + ">" + rest;
    assert s[0] == '<' && s[1..] == inner + ">" + rest;
    VisibleInTag(inner, rest);
  }
}

/** `renderSourceWithPositions`. */
module Rendering {
  import opened Basics
  import opened Splicing
  import opened Decimal
  import opened Hits
  import opened Ranges
  import opened Escaping

  /** What is written: text as it is, or text in a highlighted span. */
  datatype Piece = Plain(text: string) | Span(text: string, hits: int)

  function CoverageClass(hitCount: int): string {
    if hitCount == 0 then "cov0" else "cov10"
  }

  /** The opening tag between its angle brackets. */
  function SpanTag(hits: int): string {
    "span class=\"" + CoverageClass(hits) + "\" title=\"" + IntToString(hits) + "\""
  }

  function Markup(piece: Piece): string {
    match piece
    case Plain(text) => Escape(text)
    case Span(text, hits) => "<" + SpanTag(hits) + ">" + Escape(text) + "</span>"
  }

  /** A span tells whether its text was reached and, in its title, how often; text outside of spans tells nothing. */
  lemma MarkupIs(text: string, hits: int)
    ensures Markup(Plain(text)) == Escape(text)
    ensures var reached := if hits == 0 then "cov0" else "cov10";
            var tag := "span class=\"" + reached + "\" title=\"" + IntToString(hits) + "\"";
            Markup(Span(text, hits)) == "<" + tag + ">" + Escape(text) + "</span>"
    ensures 0 <= hits <= MAX_INT ==> Atoi(IntToString(hits)) == Some(hits)
  {
    if 0 <= hits <= MAX_INT { AtoiOfNat(hits); }
  }

  function Html(pieces: seq<Piece>): string {
    if pieces == [] then "" else Markup(pieces[0]) + Html(pieces[1..])
  }

  function TextOf(pieces: seq<Piece>): string {
    if pieces == [] then "" else pieces[0].text + TextOf(pieces[1..])
  }

  function Painted(text: string, paint: Option<int>): (p: seq<Option<int>>)
    ensures |p| == |text| && forall k :: 0 <= k < |p| ==> p[k] == paint
  {
    seq(|text|, k => paint)
  }

  /** The hit count each byte is highlighted with, if any. */
  function PaintOf(pieces: seq<Piece>): seq<Option<int>> {
    if pieces == [] then []
    else Painted(pieces[0].text, if pieces[0].Span? then Some(pieces[0].hits) else None) + PaintOf(pieces[1..])
  }

  function Min(a: nat, b: nat): nat {
    if a < b then a else b
  }

  /** The pieces from `pos` on, with the ranges from index `i` still to come. */
  function Pieces(source: string, pos: nat, ranges: seq<Range>, i: nat): seq<Piece>
    requires pos <= |source| && i <= |ranges| && Row(ranges)
    requires i < |ranges| ==> pos <= ranges[i].startPos
    decreases |source| - pos, |ranges| - i, 0
  {
    if pos == |source| then []
    else if i == |ranges| then [Plain(source[pos..])]
    else
      var start, end := Min(ranges[i].startPos, |source|), Min(End(ranges[i]), |source|);
      if pos < ranges[i].startPos then [Plain(source[pos..start])] + Pieces(source, start, ranges, i)
      else [Span(source[pos..end], ranges[i].hitCount)] + Pieces(source, end, ranges, i + 1)
  }

  /** The loop is at `pos`, with the ranges from index `i` on still to come. */
  predicate Ready(source: string, pos: nat, ranges: seq<Range>, i: nat) {
    pos <= |source| && i <= |ranges| && Row(ranges) && (i < |ranges| ==> pos <= ranges[i].startPos)
  }

  /** The next piece and the state behind it. */
  lemma NextPiece(source: string, pos: nat, ranges: seq<Range>, i: nat)
    requires Ready(source, pos, ranges, i) && pos < |source|
    ensures if i == |ranges| then Pieces(source, pos, ranges, i) == [Plain(source[pos..])] + []
            else
              var start, end := Min(ranges[i].startPos, |source|), Min(End(ranges[i]), |source|);
              if pos < ranges[i].startPos then
                && pos < start && Ready(source, start, ranges, i)
                && Pieces(source, pos, ranges, i) == [Plain(source[pos..start])] + Pieces(source, start, ranges, i)
              else
                && pos < end && Ready(source, end, ranges, i + 1)
                && Pieces(source, pos, ranges, i)
                   == [Span(source[pos..end], ranges[i].hitCount)] + Pieces(source, end, ranges, i + 1)
  {
  }

  /** The first owner of byte `b` among the ranges from index `i` on. */
  function OwnerFrom(ranges: seq<Range>, i: nat, b: nat): Option<int>
    requires i <= |ranges|
    decreases |ranges| - i
  {
    if i == |ranges| then None
    else if Contains(ranges[i], b) then Some(ranges[i].hitCount) else OwnerFrom(ranges, i + 1, b)
  }

  lemma {:induction false} OwnerFromStart(ranges: seq<Range>, i: nat, b: nat)
    requires i <= |ranges|
    ensures Owner(ranges, |ranges|, b)
            == (var early := Owner(ranges, i, b); if early.Some? then early else OwnerFrom(ranges, i, b))
    decreases |ranges| - i
  {
    if i < |ranges| {
      OwnerFromStart(ranges, i + 1, b);
    }
  }

  /** Before the next range nothing is owned. */
  lemma {:induction false} OwnerBefore(ranges: seq<Range>, i: nat, b: nat)
    requires i <= |ranges| && Row(ranges) && (i < |ranges| ==> b < ranges[i].startPos)
    ensures OwnerFrom(ranges, i, b) == None
    decreases |ranges| - i
  {
    if i < |ranges| {
      OwnerBefore(ranges, i + 1, b);
    }
  }

  lemma JoinTail(source: string, pos: nat, next: nat)
    requires pos <= next <= |source|
    ensures source[pos..] == source[pos..next] + source[next..]
  {
  }

  /** No byte is lost, added or moved. */
  lemma {:induction false} PiecesKeepText(source: string, pos: nat, ranges: seq<Range>, i: nat)
    requires pos <= |source| && i <= |ranges| && Row(ranges)
    requires i < |ranges| ==> pos <= ranges[i].startPos
    ensures TextOf(Pieces(source, pos, ranges, i)) == source[pos..]
    decreases |source| - pos, |ranges| - i
  {
    if pos < |source| {
      if i == |ranges| {
        assert [Plain(source[pos..])][1..] == [];
      } else {
        var start, end := Min(ranges[i].startPos, |source|), Min(End(ranges[i]), |source|);
        var next, j := if pos < ranges[i].startPos then start else end, if pos < ranges[i].startPos then i else i + 1;
        PiecesKeepText(source, next, ranges, j);
        var all := Pieces(source, pos, ranges, i);
        assert all[1..] == Pieces(source, next, ranges, j);
        JoinTail(source, pos, next);
      }
    }
  }

  /** Every byte is highlighted by the range that owns it and by no other. */
  lemma {:induction false} PiecesPaint(source: string, pos: nat, ranges: seq<Range>, i: nat, b: nat)
    requires pos <= b < |source| && i <= |ranges| && Row(ranges)
    requires i < |ranges| ==> pos <= ranges[i].startPos
    ensures var paint := PaintOf(Pieces(source, pos, ranges, i));
            b - pos < |paint| && paint[b - pos] == OwnerFrom(ranges, i, b)
    decreases |source| - pos, |ranges| - i
  {
    hide Pieces, PaintOf, Row;
    NextPiece(source, pos, ranges, i);
    if i == |ranges| {
      PaintFirst(Plain(source[pos..]), []);
    } else {
      var start, end := Min(ranges[i].startPos, |source|), Min(End(ranges[i]), |source|);
      if pos < ranges[i].startPos {
        PaintFirst(Plain(source[pos..start]), Pieces(source, start, ranges, i));
        if b < start { OwnerBefore(ranges, i, b); } else { PiecesPaint(source, start, ranges, i, b); }
      } else {
        PaintFirst(Span(source[pos..end], ranges[i].hitCount), Pieces(source, end, ranges, i + 1));
        if b >= end { PiecesPaint(source, end, ranges, i + 1, b); }
      }
    }
  }

  lemma PaintFirst(piece: Piece, rest: seq<Piece>)
    ensures PaintOf([piece] + rest)
            == Painted(piece.text, if piece.Span? then Some(piece.hits) else None) + PaintOf(rest)
  {
    assert ([piece] + rest)[1..] == rest;
  }

  /** The ranges that begin inside the source. */
  function InSource(ranges: seq<Range>, n: nat, k: nat): (rs: seq<Range>)
    requires k <= |ranges|
  {
    if k == 0 then []
    else InSource(ranges, n, k - 1) + (if ranges[k - 1].startPos < n then [ranges[k - 1]] else [])
  }

  lemma {:induction false} InSourceRow(ranges: seq<Range>, n: nat, k: nat)
    requires k <= |ranges| && Row(ranges)
    ensures Row(InSource(ranges, n, k))
    ensures forall r :: r in InSource(ranges, n, k) ==> exists j :: 0 <= j < k && ranges[j] == r
    decreases k
  {
    if k > 0 {
      InSourceRow(ranges, n, k - 1);
      var init := InSource(ranges, n, k - 1);
      forall i | 0 <= i < |init| ensures End(init[i]) <= ranges[k - 1].startPos {
        assert init[i] in init;
      }
    }
  }

  lemma {:induction false} InSourceOwner(ranges: seq<Range>, n: nat, k: nat, b: nat)
    requires k <= |ranges| && b < n
    ensures var rs := InSource(ranges, n, k); Owner(rs, |rs|, b) == Owner(ranges, k, b)
    decreases k
  {
    if k > 0 {
      InSourceOwner(ranges, n, k - 1, b);
      var init, r := InSource(ranges, n, k - 1), ranges[k - 1];
      OwnerOfPrefix(init, [r], |init|, b);
      if r.startPos >= n { assert InSource(ranges, n, k) == init; }
    }
  }

  /** The ranges that begin inside the source. */
  method FilterRanges(ranges: seq<Range>, n: nat) returns (validRanges: seq<Range>)
    ensures validRanges == InSource(ranges, n, |ranges|)
  {
    validRanges := [];
    for k := 0 to |ranges|
      invariant validRanges == InSource(ranges, n, k)
    {
      if ranges[k].startPos < n {
        validRanges := validRanges + [ranges[k]];
      }
    }
  }

  /** `renderSourceWithPositions`. */
  method RenderSourceWithPositions(source: string, ranges: seq<Range>) returns (html: string)
    requires Row(ranges)
    ensures Row(InSource(ranges, |source|, |ranges|))
    ensures html == Html(Pieces(source, 0, InSource(ranges, |source|, |ranges|), 0))
  {
    InSourceRow(ranges, |source|, |ranges|);
    var validRanges := FilterRanges(ranges, |source|);
    html := RenderPieces(source, validRanges);
  }

  /** The loop over the source. */
  method RenderPieces(source: string, ranges: seq<Range>) returns (html: string)
    requires Row(ranges)
    ensures html == Html(Pieces(source, 0, ranges, 0))
  {
    html := "";
    var pos: nat, rangeIdx: nat := 0, 0;
    ghost var whole := Html(Pieces(source, 0, ranges, 0));
    assert html + whole == whole;
    NothingLeft(source, ranges);
    hide Pieces, Html, Markup, Row;
    while pos < |source|
      invariant Ready(source, pos, ranges, rangeIdx)
      invariant html + Html(Pieces(source, pos, ranges, rangeIdx)) == whole
      decreases |source| - pos
    {
      NextPiece(source, pos, ranges, rangeIdx);
      if rangeIdx < |ranges| {
        var rng := ranges[rangeIdx];
        if pos < rng.startPos {
          var endPos := Min(rng.startPos, |source|);
          HtmlFirst(Plain(source[pos..endPos]), Pieces(source, endPos, ranges, rangeIdx), html);
          html := html + Markup(Plain(source[pos..endPos]));
          pos := endPos;
        } else {
          var endPos := Min(End(rng), |source|);
          HtmlFirst(Span(source[pos..endPos], rng.hitCount), Pieces(source, endPos, ranges, rangeIdx + 1), html);
          html := html + Markup(Span(source[pos..endPos], rng.hitCount));
          pos := endPos;
          rangeIdx := rangeIdx + 1;
        }
      } else {
        HtmlFirst(Plain(source[pos..]), [], html);
        html := html + Markup(Plain(source[pos..]));
        assert html + "" == html;
        return;
      }
    }
    NothingLeft(source, ranges);
    assert html + "" == html;
  }

  lemma NothingLeft(source: string, ranges: seq<Range>)
    requires Row(ranges)
    ensures Html([]) == "" && Ready(source, 0, ranges, 0)
    ensures forall i: nat :: Ready(source, |source|, ranges, i) ==> Html(Pieces(source, |source|, ranges, i)) == ""
  {
  }

  lemma HtmlFirst(piece: Piece, rest: seq<Piece>, html: string)
    ensures html + Html([piece] + rest) == html + Markup(piece) + Html(rest)
  {
    hide Markup;
    assert ([piece] + rest)[1..] == rest;
    assert Html([piece] + rest) == Markup(piece) + Html(rest);
    hide Html;
    Concat3(html, Markup(piece), Html(rest));
  }

  // ----- what the reader sees -----

  lemma SpanTagClosed(hits: int)
    ensures '>' !in SpanTag(hits)
  {
    NumeralHasNo(if hits < 0 then -hits else hits, '>');
  }

  lemma MarkupVisible(piece: Piece, rest: string)
    ensures Visible(Markup(piece) + rest, false) == Escape(piece.text) + Visible(rest, false)
  {
    hide Escape, Visible, SpanTag;
    EscapeHasNoTags(piece.text);
    var text := Escape(piece.text);
    match piece
    case Plain(_) =>
      VisibleText(text, rest);
    case Span(_, hits) =>
      var closing := "<" + "/span" + ">" + rest;
      SpanTagClosed(hits);
      VisibleTag(SpanTag(hits), text + closing);
      VisibleText(text, closing);
      VisibleTag("/span", rest);
      SpanParts("<" + SpanTag(hits) + ">", text, rest);
  }

  lemma SpanParts(opening: string, text: string, rest: string)
    ensures opening + text + "</span>" + rest == opening + (text + ("<" + "/span" + ">" + rest))
  {
    assert "</span>" == "<" + "/span" + ">";
    Concat3(text, "</span>", rest);
    Concat3(opening, text + "</span>", rest);
    Concat3(opening, text, "</span>");
  }

  /** The text of the page is the source: with tags left out and character references read back. */
  lemma {:induction false} HtmlShows(pieces: seq<Piece>)
    ensures Visible(Html(pieces), false) == Escape(TextOf(pieces))
    ensures Unescape(Visible(Html(pieces), false)) == TextOf(pieces)
    decreases |pieces|
  {
    if pieces != [] {
      hide Markup;
      HtmlShows(pieces[1..]);
      MarkupVisible(pieces[0], Html(pieces[1..]));
      EscapeConcat(pieces[0].text, TextOf(pieces[1..]));
    }
    UnescapeEscape(TextOf(pieces));
  }

  /** The page of one source file. */
  method RenderFile(source: string, posHits: PositionHits) returns (html: string, ghost pieces: seq<Piece>)
    ensures html == Html(pieces) && TextOf(pieces) == source && |PaintOf(pieces)| == |source|
    ensures Unescape(Visible(html, false)) == source
    ensures forall b :: 0 <= b < |source| ==> PaintMayBe(posHits, b, PaintOf(pieces)[b])
  {
    var ranges := ParsePositionRanges(posHits);
    html := RenderSourceWithPositions(source, ranges);
    var inside := InSource(ranges, |source|, |ranges|);
    pieces := Pieces(source, 0, inside, 0);
    hide PaintMayBe, Pieces, Html, TextOf, PaintOf, InSource, Row, Visible, Unescape, Owner;
    PageOf(source, inside);
    forall b | 0 <= b < |source| ensures PaintMayBe(posHits, b, PaintOf(pieces)[b]) {
      PagePaint(source, ranges, b);
    }
  }

  lemma PageOf(source: string, ranges: seq<Range>)
    requires Row(ranges)
    ensures var pieces := Pieces(source, 0, ranges, 0);
            && TextOf(pieces) == source && |PaintOf(pieces)| == |source|
            && Unescape(Visible(Html(pieces), false)) == source
  {
    hide Pieces, Html, TextOf, PaintOf, Visible, Unescape;
    PiecesKeepText(source, 0, ranges, 0);
    HtmlShows(Pieces(source, 0, ranges, 0));
    PaintLength(Pieces(source, 0, ranges, 0));
    assert source[0..] == source;
  }

  lemma PagePaint(source: string, ranges: seq<Range>, b: nat)
    requires Row(ranges) && b < |source|
    ensures var inside := InSource(ranges, |source|, |ranges|);
            && Row(inside)
            && b < |PaintOf(Pieces(source, 0, inside, 0))|
            && PaintOf(Pieces(source, 0, inside, 0))[b] == Owner(ranges, |ranges|, b)
  {
    hide Pieces, PaintOf, InSource;
    var inside := InSource(ranges, |source|, |ranges|);
    InSourceRow(ranges, |source|, |ranges|);
    PiecesPaint(source, 0, inside, 0, b);
    OwnerFromStart(inside, 0, b);
    InSourceOwner(ranges, |source|, |ranges|, b);
  }

  lemma {:induction false} PaintLength(pieces: seq<Piece>)
    ensures |PaintOf(pieces)| == |TextOf(pieces)|
  {
    if pieces != [] {
      PaintLength(pieces[1..]);
    }
  }
}
