/** internal/report/lcov.go: hit counts per position become hit counts per line. */
module LcovReport {
  import opened Basics
  import opened Decimal
  import opened SignalCodec
  import opened Hits
  import opened Parser

  // ----- lines -----

  /** `positionToLine`: 1 plus the newlines before the position; 0 outside of the text. */
  method PositionToLine(sourceText: string, pos: int) returns (line: nat)
    ensures line == LineOf(sourceText, pos)
    ensures line == if 0 <= pos <= |sourceText| then 1 + |set k: nat | k < pos && sourceText[k] == '\n'| else 0
  {
    LineOfIs(sourceText, pos);
    if pos < 0 || pos > |sourceText| {
      return 0;
    }
    line := 1;
    var i := 0;
    while i < pos && i < |sourceText|
      invariant 0 <= i <= pos
      invariant line == 1 + Newlines(sourceText, i)
    {
      if sourceText[i] == '\n' {
        line := line + 1;
      }
      i := i + 1;
    }
  }

  function LineOf(source: string, pos: int): nat {
    if 0 <= pos <= |source| then 1 + Newlines(source, pos) else 0
  }

  lemma LineOfIs(source: string, pos: int)
    ensures LineOf(source, pos) == if 0 <= pos <= |source| then 1 + |set k: nat | k < pos && source[k] == '\n'| else 0
  {
    if 0 <= pos <= |source| {
      NewlinesCounted(source, pos);
    }
  }

  /** Later positions are never on earlier lines, and two positions are on one line exactly if no newline
      lies between them. */
  lemma {:induction false} LineMonotone(source: string, a: nat, b: nat)
    requires a <= b <= |source|
    ensures 1 <= LineOf(source, a) <= LineOf(source, b)
    ensures LineOf(source, a) == LineOf(source, b) <==> '\n' !in source[a..b]
    decreases b
  {
    if a < b {
      LineMonotone(source, a, b - 1);
      assert source[a..b] == source[a..b - 1] + [source[b - 1]];
    }
  }

  // ----- sums over keys in any order -----

  ghost function SumOver<T>(f: T -> int, keys: set<T>): int {
    if keys == {} then 0
    else
      var key :| key in keys;
      f(key) + SumOver(f, keys - {key})
  }

  /** It does not matter which key is taken first. */
  lemma {:induction false} SumOverPick<T>(f: T -> int, keys: set<T>, key: T)
    requires key in keys
    ensures SumOver(f, keys) == f(key) + SumOver(f, keys - {key})
    decreases |keys|
  {
    var first :| first in keys && SumOver(f, keys) == f(first) + SumOver(f, keys - {first});
    if first != key {
      SumOverPick(f, keys - {first}, key);
      SumOverPick(f, keys - {key}, first);
      assert keys - {first} - {key} == keys - {key} - {first};
    }
  }

  lemma SumOverAdd<T>(f: T -> int, keys: set<T>, key: T)
    requires key !in keys
    ensures SumOver(f, keys + {key}) == SumOver(f, keys) + f(key)
  {
    SumOverPick(f, keys + {key}, key);
    assert keys + {key} - {key} == keys;
  }

  lemma {:induction false} SumOverSame<T>(f: T -> int, g: T -> int, keys: set<T>)
    requires forall key :: key in keys ==> f(key) == g(key)
    ensures SumOver(f, keys) == SumOver(g, keys)
    decreases |keys|
  {
    if keys != {} {
      var key :| key in keys;
      SumOverPick(f, keys, key);
      SumOverPick(g, keys, key);
      SumOverSame(f, g, keys - {key});
    }
  }

  // ----- from positions to lines -----

  /** The line of a key: 0 if the key does not parse or lies outside of the text. */
  function LineOfKey(source: string, key: string): nat {
    match ParsePositionKey(key)
    case None => 0
    case Some((start, _)) => LineOf(source, start)
  }

  /** The key of a position has the line of its first byte, however long it is; a position behind the text has none. */
  lemma KeyLine(source: string, start: nat, length: nat)
    requires start <= MAX_INT && length <= MAX_INT
    ensures LineOfKey(source, FormatPositionKey(start, length))
            == if start <= |source| then 1 + |set k: nat | k < start && source[k] == '\n'| else 0
  {
    PositionKeyRoundTrip(start, length);
    LineOfIs(source, start);
  }

  /** What a key adds to a line. */
  function AtLine(source: string, posHits: PositionHits, line: nat): string -> int {
    key => if key in posHits && LineOfKey(source, key) == line then posHits[key] else 0
  }

  /** What a key adds to the file: its hits, if it is in range. */
  function InRange(source: string, posHits: PositionHits): string -> int {
    key => if key in posHits && LineOfKey(source, key) > 0 then posHits[key] else 0
  }

  function ValueIn<K>(m: map<K, int>): K -> int {
    (key: K) => if key in m then m[key] else 0
  }

  /** `lineHits` holds, for each line with a key among `keys`, the sum of their hits. */
  ghost predicate LinesOf(lineHits: map<nat, int>, source: string, posHits: PositionHits, keys: set<string>) {
    && (forall line :: line in lineHits <==> line > 0 && exists key :: key in keys && LineOfKey(source, key) == line)
    && (forall line :: line in lineHits ==> lineHits[line] == SumOver(AtLine(source, posHits, line), keys))
  }

  /** `convertPositionsToLines`, keys in any order: every line gets the sum of its positions' hits, and no
      hit of a well-formed position inside the text is lost. */
  method ConvertPositionsToLines(sourceText: string, posHits: PositionHits) returns (lineHits: map<nat, int>)
    ensures LinesOf(lineHits, sourceText, posHits, posHits.Keys)
    ensures SumOver(ValueIn(lineHits), lineHits.Keys) == SumOver(InRange(sourceText, posHits), posHits.Keys)
  {
    hide LinesOf, SumOver, LineOfKey, InRange, ValueIn;
    lineHits := map[];
    NoLines(sourceText, posHits);
    var keys := posHits.Keys;
    ghost var done: set<string> := {};
    while keys != {}
      invariant keys <= posHits.Keys && done == posHits.Keys - keys
      invariant LinesOf(lineHits, sourceText, posHits, done)
      invariant SumOver(ValueIn(lineHits), lineHits.Keys) == SumOver(InRange(sourceText, posHits), done)
      decreases |keys|
    {
      var posKey :| posKey in keys;
      keys := keys - {posKey};
      ghost var before := lineHits;
      var line := PositionKeyToLine(sourceText, posKey);
      if line > 0 {
        lineHits := lineHits[line := (if line in lineHits then lineHits[line] else 0) + posHits[posKey]];
      }
      KeyCounted(before, lineHits, sourceText, posHits, done, posKey);
      done := done + {posKey};
    }
    assert done == posHits.Keys;
  }

  /** The line of a key that parses. */
  method PositionKeyToLine(sourceText: string, posKey: string) returns (line: nat)
    ensures line == LineOfKey(sourceText, posKey)
  {
    var parsed := ParsePositionKey(posKey);
    if parsed.None? {
      return 0;
    }
    line := PositionToLine(sourceText, parsed.value.0);
  }

  lemma NoLines(source: string, posHits: PositionHits)
    ensures LinesOf(map[], source, posHits, {})
    ensures var none: map<nat, int> := map[];
            SumOver(ValueIn(none), none.Keys) == SumOver(InRange(source, posHits), {})
  {
  }

  lemma KeyCounted(before: map<nat, int>, after: map<nat, int>, source: string, posHits: PositionHits,
                   done: set<string>, key: string)
    requires key in posHits && key !in done && LinesOf(before, source, posHits, done)
    requires SumOver(ValueIn(before), before.Keys) == SumOver(InRange(source, posHits), done)
    requires var line := LineOfKey(source, key);
             after == if line > 0 then before[line := (if line in before then before[line] else 0) + posHits[key]]
                      else before
    ensures LinesOf(after, source, posHits, done + {key})
    ensures SumOver(ValueIn(after), after.Keys) == SumOver(InRange(source, posHits), done + {key})
  {
    hide SumOver, LineOfKey, LinesOf;
    LinesGrow(before, after, source, posHits, done, key);
    SumOverAdd(InRange(source, posHits), done, key);
    var line := LineOfKey(source, key);
    if line > 0 {
      PutSum(before, line, ValueIn(before)(line) + posHits[key]);
    }
  }

  /** The lines of any set of keys, worked out one key at a time. */
  lemma {:induction false} LinesAddUp(source: string, posHits: PositionHits, keys: set<string>)
    returns (lineHits: map<nat, int>)
    requires keys <= posHits.Keys
    ensures LinesOf(lineHits, source, posHits, keys)
    ensures SumOver(ValueIn(lineHits), lineHits.Keys) == SumOver(InRange(source, posHits), keys)
    decreases |keys|
  {
    hide LinesOf, SumOver, LineOfKey, InRange, ValueIn;
    if keys == {} {
      NoLines(source, posHits);
      lineHits := map[];
    } else {
      var key :| key in keys;
      var before := LinesAddUp(source, posHits, keys - {key});
      var line := LineOfKey(source, key);
      lineHits := if line > 0 then before[line := (if line in before then before[line] else 0) + posHits[key]]
                  else before;
      KeyCounted(before, lineHits, source, posHits, keys - {key}, key);
      assert keys - {key} + {key} == keys;
    }
  }

  /** No hit is lost or doubled on the way from keys to lines. */
  lemma LinesSum(lineHits: map<nat, int>, source: string, posHits: PositionHits)
    requires LinesOf(lineHits, source, posHits, posHits.Keys)
    ensures SumOver(ValueIn(lineHits), lineHits.Keys) == SumOver(InRange(source, posHits), posHits.Keys)
  {
    hide SumOver, LineOfKey, AtLine;
    var other := LinesAddUp(source, posHits, posHits.Keys);
    assert forall line :: line in lineHits <==> line in other;
    assert lineHits == other;
  }

  lemma LinesGrow(before: map<nat, int>, after: map<nat, int>, source: string, posHits: PositionHits,
                  done: set<string>, key: string)
    requires key in posHits && key !in done && LinesOf(before, source, posHits, done)
    requires var line := LineOfKey(source, key);
             after == if line > 0 then before[line := (if line in before then before[line] else 0) + posHits[key]]
                      else before
    ensures LinesOf(after, source, posHits, done + {key})
  {
    hide SumOver, LineOfKey;
    var here := LineOfKey(source, key);
    forall line ensures line in after <==> line > 0 && exists k :: k in done + {key} && LineOfKey(source, k) == line {
      if line in after && line != here {
        var k :| k in done && LineOfKey(source, k) == line;
        assert k in done + {key};
      }
      if line == here { assert key in done + {key}; }
    }
    forall line | line in after ensures after[line] == SumOver(AtLine(source, posHits, line), done + {key}) {
      SumOverAdd(AtLine(source, posHits, line), done, key);
      if line == here && line !in before {
        NoKeyAtLine(source, posHits, line, done);
      }
    }
  }

  lemma {:induction false} NoKeyAtLine(source: string, posHits: PositionHits, line: nat, keys: set<string>)
    requires forall key :: key in keys ==> LineOfKey(source, key) != line
    ensures SumOver(AtLine(source, posHits, line), keys) == 0
    decreases |keys|
  {
    if keys != {} {
      var key :| key in keys;
      SumOverPick(AtLine(source, posHits, line), keys, key);
      NoKeyAtLine(source, posHits, line, keys - {key});
    }
  }

  lemma PutSum<K>(m: map<K, int>, key: K, hits: int)
    ensures var m' := m[key := hits];
            SumOver(ValueIn(m'), m'.Keys) == SumOver(ValueIn(m), m.Keys) - ValueIn(m)(key) + hits
  {
    hide SumOver;
    var m', others := m[key := hits], m.Keys - {key};
    assert m'.Keys == others + {key};
    SumOverAdd(ValueIn(m'), others, key);
    SumOverSame(ValueIn(m), ValueIn(m'), others);
    if key in m {
      SumOverPick(ValueIn(m), m.Keys, key);
    } else {
      assert others == m.Keys;
    }
  }

  /** What a key adds to the keys that meet a condition. */
  function Where(posHits: PositionHits, only: string -> bool): string -> int {
    key => if key in posHits && only(key) then posHits[key] else 0
  }

  lemma PutSumWhere(m: PositionHits, key: string, hits: int, only: string -> bool)
    ensures var m' := m[key := hits];
            SumOver(Where(m', only), m'.Keys)
            == SumOver(Where(m, only), m.Keys) - Where(m, only)(key) + (if only(key) then hits else 0)
  {
    hide SumOver;
    var m', others := m[key := hits], m.Keys - {key};
    assert m'.Keys == others + {key};
    SumOverAdd(Where(m', only), others, key);
    SumOverSame(Where(m, only), Where(m', only), others);
    if key in m {
      SumOverPick(Where(m, only), m.Keys, key);
    } else {
      assert others == m.Keys;
    }
  }

  // ----- the record of one file -----

  predicate Increasing(lines: seq<nat>) {
    forall i, j :: 0 <= i < j < |lines| ==> lines[i] < lines[j]
  }

  /** `sort.Ints` of the keys: the only order there is. */
  method SortedLines(lineHits: map<nat, int>) returns (lines: seq<nat>)
    ensures Increasing(lines) && |lines| == |lineHits|
    ensures forall line :: line in lines <==> line in lineHits
  {
    lines := [];
    var rest := lineHits.Keys;
    while rest != {}
      invariant rest <= lineHits.Keys
      invariant forall line :: line in lines <==> line in lineHits && line !in rest
      invariant Increasing(lines) && |lines| + |rest| == |lineHits|
      invariant forall i, line :: 0 <= i < |lines| && line in rest ==> lines[i] < line
      decreases |rest|
    {
      var some :| some in rest;
      LeastLine(rest, some);
      var line :| line in rest && forall other :: other in rest ==> line <= other;
      rest := rest - {line};
      lines := lines + [line];
    }
  }

  lemma {:induction false} LeastLine(lines: set<nat>, line: nat)
    requires line in lines
    ensures exists least :: least in lines && forall other :: other in lines ==> least <= other
    decreases line
  {
    if other :| other in lines && other < line {
      LeastLine(lines, other);
    } else {
      assert forall other :: other in lines ==> line <= other;
    }
  }

  ghost function HitLines(lineHits: map<nat, int>): set<nat> {
    set line | line in lineHits && lineHits[line] > 0
  }

  /** What the DA lines of a record say. */
  datatype Record = Record(lines: seq<(nat, int)>, linesFound: nat, linesHit: nat)

  /** The numbers of `formatFileFromPositions`: lines strictly increase, each has its hits, LF is the number of
      lines and LH the number of those that were hit. */
  method MakeRecord(sourceText: string, posHits: PositionHits) returns (r: Record, ghost lineHits: map<nat, int>)
    ensures LinesOf(lineHits, sourceText, posHits, posHits.Keys)
    ensures forall i, j :: 0 <= i < j < |r.lines| ==> r.lines[i].0 < r.lines[j].0
    ensures forall line, hits :: (line, hits) in r.lines <==> line in lineHits && lineHits[line] == hits
    ensures r.linesFound == |r.lines| == |lineHits|
    ensures r.linesHit == |set line | line in lineHits && lineHits[line] > 0| <= r.linesFound
  {
    hide LinesOf;
    var hits := ConvertPositionsToLines(sourceText, posHits);
    lineHits := hits;
    var da := ListLines(hits);
    var linesHit := CountHitLines(hits);
    HitLinesFewer(hits);
    r := Record(da, |hits|, linesHit);
  }

  /** One entry a line, in increasing order. */
  method ListLines(lineHits: map<nat, int>) returns (da: seq<(nat, int)>)
    ensures forall i, j :: 0 <= i < j < |da| ==> da[i].0 < da[j].0
    ensures forall line, hits :: (line, hits) in da <==> line in lineHits && lineHits[line] == hits
    ensures |da| == |lineHits|
  {
    var lines := SortedLines(lineHits);
    da := [];
    for i := 0 to |lines|
      invariant |da| == i && forall k :: 0 <= k < i ==> lines[k] in lineHits && da[k] == (lines[k], lineHits[lines[k]])
    {
      assert lines[i] in lines;
      da := da + [(lines[i], lineHits[lines[i]])];
    }
    ListedLines(lineHits, lines, da);
  }

  lemma ListedLines(lineHits: map<nat, int>, lines: seq<nat>, da: seq<(nat, int)>)
    requires |da| == |lines| && forall line :: line in lines <==> line in lineHits
    requires forall k :: 0 <= k < |da| ==> lines[k] in lineHits && da[k] == (lines[k], lineHits[lines[k]])
    ensures forall line, hits :: (line, hits) in da <==> line in lineHits && lineHits[line] == hits
  {
    forall line, hits ensures (line, hits) in da <==> line in lineHits && lineHits[line] == hits {
      if line in lineHits && lineHits[line] == hits {
        assert line in lines;
        var k :| 0 <= k < |lines| && lines[k] == line;
        assert da[k] == (line, hits);
      }
    }
  }

  lemma HitLinesFewer(lineHits: map<nat, int>)
    ensures |set line | line in lineHits && lineHits[line] > 0| == |HitLines(lineHits)| <= |lineHits|
  {
    assert HitLines(lineHits) == set line | line in lineHits && lineHits[line] > 0;
    assert lineHits.Keys == HitLines(lineHits) + (lineHits.Keys - HitLines(lineHits));
  }

  method CountHitLines(lineHits: map<nat, int>) returns (linesHit: nat)
    ensures linesHit == |HitLines(lineHits)|
  {
    linesHit := 0;
    var rest := lineHits.Keys;
    ghost var counted: set<nat> := {};
    while rest != {}
      invariant rest <= lineHits.Keys
      invariant counted == set line | line in HitLines(lineHits) && line !in rest
      invariant linesHit == |counted|
      decreases |rest|
    {
      var line :| line in rest;
      rest := rest - {line};
      if lineHits[line] > 0 {
        linesHit := linesHit + 1;
        counted := counted + {line};
      }
    }
    assert counted == HitLines(lineHits);
  }
}
