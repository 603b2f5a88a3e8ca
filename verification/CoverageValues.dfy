/** Hit counts per file and position, as values: what the maps of internal/coverage/model.go hold and how
    signals and merging change them. */
module Hits {
  import opened Basics

  type PositionHits = map<string, int>

  type ByFile = map<string, PositionHits>

  /** An entry of a map of maps: file and position key. */
  datatype Position = Position(file: string, key: string)

  predicate Known(m: ByFile, p: Position) {
    p.file in m && p.key in m[p.file]
  }

  /** Go's `m[file][key]`: zero if either is missing. */
  function HitsAt(m: ByFile, p: Position): int {
    if Known(m, p) then m[p.file][p.key] else 0
  }

  function HitsOfFile(m: ByFile, file: string): PositionHits {
    if file in m then m[file] else map[]
  }

  function Put(m: ByFile, p: Position, hits: int): ByFile {
    m[p.file := HitsOfFile(m, p.file)[p.key := hits]]
  }

  /** No file without positions. */
  predicate Tidy(m: ByFile) {
    forall file :: file in m ==> m[file] != map[]
  }

  lemma PutChangesOne(m: ByFile, p: Position, hits: int, q: Position)
    ensures Known(Put(m, p, hits), q) <==> q == p || Known(m, q)
    ensures HitsAt(Put(m, p, hits), q) == if q == p then hits else HitsAt(m, q)
  {
  }

  lemma PutTidy(m: ByFile, p: Position, hits: int)
    requires Tidy(m)
    ensures Tidy(Put(m, p, hits))
  {
    var m' := Put(m, p, hits);
    forall file | file in m' ensures m'[file] != map[] {
      if file == p.file { assert p.key in m'[file]; }
    }
  }

  ghost predicate Agree(a: ByFile, b: ByFile) {
    forall p: Position :: (Known(a, p) <==> Known(b, p)) && HitsAt(a, p) == HitsAt(b, p)
  }

  /** Tidy maps of maps with the same entries are equal. */
  lemma AgreeIsEqual(a: ByFile, b: ByFile)
    requires Tidy(a) && Tidy(b) && Agree(a, b)
    ensures a == b
  {
    FilesIncluded(a, b);
    FilesIncluded(b, a);
    forall file | file in a ensures a[file] == b[file] {
      forall key ensures key in a[file] <==> key in b[file] {
        assert Known(a, Position(file, key)) <==> Known(b, Position(file, key));
      }
      forall key | key in a[file] ensures a[file][key] == b[file][key] {
        assert HitsAt(a, Position(file, key)) == HitsAt(b, Position(file, key));
      }
    }
  }

  lemma FilesIncluded(a: ByFile, b: ByFile)
    requires Tidy(a) && Agree(a, b)
    ensures a.Keys <= b.Keys
  {
    forall file | file in a ensures file in b {
      var key :| key in a[file];
      assert Known(a, Position(file, key));
    }
  }
}

/** What collecting signals does to the two maps, and how that relates to counting. */
module Counting {
  import opened Basics
  import opened Sums
  import opened SignalCodec
  import opened Hits

  /** The executable and the implicit positions of a `Coverage`. */
  datatype Snapshot = Snapshot(positions: ByFile, implicitPositions: ByFile)

  predicate Sound(s: Snapshot) {
    Tidy(s.positions) && Tidy(s.implicitPositions)
  }

  function PositionAt(l: Location): Position {
    Position(l.file, FormatPositionKey(l.startPos, l.length))
  }

  predicate ValidID(id: string) {
    SignalLocation(id).Ok?
  }

  /** The entry a signal counts for. */
  function PositionOf(id: string): Position
    requires ValidID(id)
  {
    PositionAt(SignalLocation(id).value)
  }

  /** One more hit in whichever map holds the position; an unseeded position is executable. */
  function Counted(s: Snapshot, p: Position): Snapshot {
    if Known(s.implicitPositions, p) then
      s.(implicitPositions := Put(s.implicitPositions, p, HitsAt(s.implicitPositions, p) + 1))
    else s.(positions := Put(s.positions, p, HitsAt(s.positions, p) + 1))
  }

  /** A signal changes exactly one entry of exactly one map, by one. */
  lemma CountedChangesOne(s: Snapshot, p: Position, q: Position)
    ensures var s', implicit := Counted(s, p), Known(s.implicitPositions, p);
            && HitsAt(s'.positions, q) == HitsAt(s.positions, q) + (if q == p && !implicit then 1 else 0)
            && HitsAt(s'.implicitPositions, q) == HitsAt(s.implicitPositions, q) + (if q == p && implicit then 1 else 0)
            && (Known(s'.positions, q) <==> Known(s.positions, q) || (q == p && !implicit))
            && (Known(s'.implicitPositions, q) <==> Known(s.implicitPositions, q))
            && (Sound(s) ==> Sound(s'))
  {
    PutChangesOne(s.implicitPositions, p, HitsAt(s.implicitPositions, p) + 1, q);
    PutChangesOne(s.positions, p, HitsAt(s.positions, p) + 1, q);
    if Sound(s) {
      PutTidy(s.implicitPositions, p, HitsAt(s.implicitPositions, p) + 1);
      PutTidy(s.positions, p, HitsAt(s.positions, p) + 1);
    }
  }

  /** Signals in their order, given as the positions they count for. */
  function Collected(s: Snapshot, ps: seq<Position>): Snapshot
    decreases |ps|
  {
    if ps == [] then s else Collected(Counted(s, ps[0]), ps[1..])
  }

  /** `s'` is `s` plus the number of signals of every position, with no reference to their order. */
  ghost predicate IsTally(s: Snapshot, counts: multiset<Position>, s': Snapshot) {
    forall p: Position :: TallyAt(s, counts, s', p)
  }

  predicate TallyAt(s: Snapshot, counts: multiset<Position>, s': Snapshot, p: Position) {
    var implicit := Known(s.implicitPositions, p);
    && Known(s'.implicitPositions, p) == implicit
    && Known(s'.positions, p) == (Known(s.positions, p) || (!implicit && p in counts))
    && HitsAt(s'.implicitPositions, p) == HitsAt(s.implicitPositions, p) + (if implicit then counts[p] else 0)
    && HitsAt(s'.positions, p) == HitsAt(s.positions, p) + (if implicit then 0 else counts[p])
  }

  lemma TallyStep(s: Snapshot, p: Position, counts: multiset<Position>, s': Snapshot, q: Position)
    requires TallyAt(Counted(s, p), counts, s', q)
    ensures TallyAt(s, multiset{p} + counts, s', q)
  {
    hide Known, HitsAt, Put;
    CountedChangesOne(s, p, q);
  }

  /** Collecting is counting. */
  lemma {:induction false} CollectedIsTally(s: Snapshot, ps: seq<Position>)
    requires Sound(s)
    ensures IsTally(s, multiset(ps), Collected(s, ps)) && Sound(Collected(s, ps))
    decreases |ps|
  {
    if ps != [] {
      hide TallyAt, Known, HitsAt, Tidy, Counted;
      var p, rest := ps[0], ps[1..];
      CountedChangesOne(s, p, p);
      CollectedIsTally(Counted(s, p), rest);
      assert ps == [p] + rest;
      forall q: Position ensures TallyAt(s, multiset(ps), Collected(s, ps), q) {
        TallyStep(s, p, multiset(rest), Collected(s, ps), q);
      }
    }
  }

  /** A tally leaves no choice. */
  lemma TallyUnique(s: Snapshot, counts: multiset<Position>, a: Snapshot, b: Snapshot)
    requires IsTally(s, counts, a) && IsTally(s, counts, b) && Sound(a) && Sound(b)
    ensures a == b
  {
    forall p: Position
      ensures (Known(a.positions, p) <==> Known(b.positions, p)) && HitsAt(a.positions, p) == HitsAt(b.positions, p)
      ensures (Known(a.implicitPositions, p) <==> Known(b.implicitPositions, p))
              && HitsAt(a.implicitPositions, p) == HitsAt(b.implicitPositions, p)
    {
      assert TallyAt(s, counts, a, p) && TallyAt(s, counts, b, p);
    }
    AgreeIsEqual(a.positions, b.positions);
    AgreeIsEqual(a.implicitPositions, b.implicitPositions);
  }

  // ----- signal IDs -----

  predicate AllValid(ids: seq<string>) {
    forall k :: 0 <= k < |ids| ==> ValidID(ids[k])
  }

  function PositionsOf(ids: seq<string>): (ps: seq<Position>)
    requires AllValid(ids)
    ensures |ps| == |ids|
  {
    seq(|ids|, k requires 0 <= k < |ids| => PositionOf(ids[k]))
  }

  /** 1 for a signal of position `p`. */
  function Hit(p: Position): string -> int {
    id => if ValidID(id) && PositionOf(id) == p then 1 else 0
  }

  lemma {:induction false} CountIsSum(ids: seq<string>, p: Position)
    requires AllValid(ids)
    ensures multiset(PositionsOf(ids))[p] == Sum(ids, Hit(p))
    decreases |ids|
  {
    hide ValidID, PositionAt;
    if ids == [] {
      assert PositionsOf(ids) == [];
    } else {
      var rest := ids[1..];
      CountIsSum(rest, p);
      assert PositionsOf(ids) == [PositionOf(ids[0])] + PositionsOf(rest);
    }
  }

  /** The order in which signals arrive, across all runs, does not matter. */
  lemma OrderOfSignals(s: Snapshot, ids: seq<string>, ids': seq<string>)
    requires Sound(s) && AllValid(ids) && multiset(ids) == multiset(ids')
    ensures AllValid(ids') && Collected(s, PositionsOf(ids)) == Collected(s, PositionsOf(ids'))
  {
    forall k | 0 <= k < |ids'| ensures ValidID(ids'[k]) {
      assert ids'[k] in multiset(ids);
    }
    var ps, ps' := PositionsOf(ids), PositionsOf(ids');
    forall p: Position ensures multiset(ps)[p] == multiset(ps')[p] {
      CountIsSum(ids, p);
      CountIsSum(ids', p);
      SumPermuted(ids, ids', Hit(p));
    }
    assert multiset(ps) == multiset(ps');
    CollectedIsTally(s, ps);
    CollectedIsTally(s, ps');
    TallyUnique(s, multiset(ps), Collected(s, ps), Collected(s, ps'));
  }
}

/** Seeding the maps with coverage points. */
module Seeding {
  import opened Hits
  import opened Counting
  import opened SignalCodec
  import opened Instrumenter

  function PointPosition(cp: CoveragePoint): Position {
    Position(cp.file, FormatPositionKey(cp.startPos, cp.length))
  }

  /** A position that is not there yet enters its map with no hits. */
  function Seed(s: Snapshot, cp: CoveragePoint): Snapshot {
    var p := PointPosition(cp);
    if cp.implicitCoverage then
      if Known(s.implicitPositions, p) then s else s.(implicitPositions := Put(s.implicitPositions, p, 0))
    else if Known(s.positions, p) then s else s.(positions := Put(s.positions, p, 0))
  }

  function Seeded(s: Snapshot, points: seq<CoveragePoint>): Snapshot
    decreases |points|
  {
    if points == [] then s else Seeded(Seed(s, points[0]), points[1..])
  }

  lemma {:induction false} SeededConcat(s: Snapshot, a: seq<CoveragePoint>, b: seq<CoveragePoint>)
    ensures Seeded(s, a + b) == Seeded(Seeded(s, a), b)
    decreases |a|
  {
    if a == [] {
      assert a + b == b;
    } else {
      hide Seed;
      var next := Seed(s, a[0]);
      assert (a + b)[0] == a[0] && (a + b)[1..] == a[1..] + b;
      SeededConcat(next, a[1..], b);
    }
  }

  predicate Has(points: seq<CoveragePoint>, p: Position, implicit: bool) {
    exists k :: 0 <= k < |points| && PointPosition(points[k]) == p && points[k].implicitCoverage == implicit
  }

  lemma SeedAddsOne(s: Snapshot, cp: CoveragePoint, p: Position)
    ensures var s', here := Seed(s, cp), PointPosition(cp) == p;
            && Known(s'.positions, p) == (Known(s.positions, p) || (here && !cp.implicitCoverage))
            && Known(s'.implicitPositions, p) == (Known(s.implicitPositions, p) || (here && cp.implicitCoverage))
            && HitsAt(s'.positions, p) == HitsAt(s.positions, p)
            && HitsAt(s'.implicitPositions, p) == HitsAt(s.implicitPositions, p)
            && (Sound(s) ==> Sound(s'))
  {
    var q := PointPosition(cp);
    PutChangesOne(s.positions, q, 0, p);
    PutChangesOne(s.implicitPositions, q, 0, p);
    if Sound(s) {
      PutTidy(s.positions, q, 0);
      PutTidy(s.implicitPositions, q, 0);
    }
  }

  lemma HasStep(points: seq<CoveragePoint>, p: Position, implicit: bool)
    requires points != []
    ensures Has(points, p, implicit)
            == ((PointPosition(points[0]) == p && points[0].implicitCoverage == implicit)
                || Has(points[1..], p, implicit))
  {
    var rest := points[1..];
    assert forall k :: 0 <= k < |rest| ==> rest[k] == points[k + 1];
    if Has(points, p, implicit) {
      var k :| 0 <= k < |points| && PointPosition(points[k]) == p && points[k].implicitCoverage == implicit;
      if k > 0 { assert rest[k - 1] == points[k]; }
    }
  }

  /** Exactly the points' positions are added, each to the map of its kind, and no hit count changes. */
  lemma {:induction false} SeededIs(s: Snapshot, points: seq<CoveragePoint>, p: Position)
    ensures var s' := Seeded(s, points);
            && Known(s'.positions, p) == (Known(s.positions, p) || Has(points, p, false))
            && Known(s'.implicitPositions, p) == (Known(s.implicitPositions, p) || Has(points, p, true))
            && HitsAt(s'.positions, p) == HitsAt(s.positions, p)
            && HitsAt(s'.implicitPositions, p) == HitsAt(s.implicitPositions, p)
            && (Sound(s) ==> Sound(s'))
    decreases |points|
  {
    if points != [] {
      hide Known, HitsAt, Seed, Has;
      SeedAddsOne(s, points[0], p);
      SeededIs(Seed(s, points[0]), points[1..], p);
      HasStep(points, p, false);
      HasStep(points, p, true);
    } else {
      assert !Has(points, p, false) && !Has(points, p, true);
    }
  }

  const NOTHING := Snapshot(map[], map[])

  /** No two points share a position. */
  predicate Apart(points: seq<CoveragePoint>) {
    forall j, k :: 0 <= j < k < |points| ==> PointPosition(points[j]) != PointPosition(points[k])
  }

  /** A position seeded from nothing is in one of the two maps at most, with no hits. */
  lemma SeededOnce(points: seq<CoveragePoint>, p: Position)
    requires Apart(points)
    ensures var s := Seeded(NOTHING, points);
            && !(Known(s.positions, p) && Known(s.implicitPositions, p))
            && HitsAt(s.positions, p) == 0 && HitsAt(s.implicitPositions, p) == 0
            && Sound(s)
  {
    hide PointPosition;
    SeededIs(NOTHING, points, p);
  }
}

/** Adding up the hit counts of several coverages. */
module Merging {
  import opened Sums
  import opened Hits
  import opened Counting

  function SummedHits(a: PositionHits, b: PositionHits): PositionHits {
    map key | key in a.Keys + b.Keys ::
      (if key in a then a[key] else 0) + (if key in b then b[key] else 0)
  }

  function Summed(a: ByFile, b: ByFile): ByFile {
    map file | file in a.Keys + b.Keys :: SummedHits(HitsOfFile(a, file), HitsOfFile(b, file))
  }

  lemma SummedAt(a: ByFile, b: ByFile, p: Position)
    ensures Known(Summed(a, b), p) <==> Known(a, p) || Known(b, p)
    ensures HitsAt(Summed(a, b), p) == HitsAt(a, p) + HitsAt(b, p)
  {
  }

  lemma SummedTidy(a: ByFile, b: ByFile)
    requires Tidy(a) && Tidy(b)
    ensures Tidy(Summed(a, b))
  {
    var s := Summed(a, b);
    forall file | file in s ensures s[file] != map[] {
      var m := if file in a then a else b;
      var key :| key in m[file];
      SummedAt(a, b, Position(file, key));
      assert Known(m, Position(file, key));
    }
  }

  /** Summing is commutative and associative, with the empty map as identity. */
  lemma SummedCommutes(a: ByFile, b: ByFile)
    ensures Summed(a, b) == Summed(b, a)
  {
    forall file | file in a.Keys + b.Keys
      ensures SummedHits(HitsOfFile(a, file), HitsOfFile(b, file))
              == SummedHits(HitsOfFile(b, file), HitsOfFile(a, file))
    {
    }
  }

  lemma SummedHitsAssociative(a: PositionHits, b: PositionHits, c: PositionHits)
    ensures SummedHits(SummedHits(a, b), c) == SummedHits(a, SummedHits(b, c))
  {
  }

  lemma HitsOfSummed(a: ByFile, b: ByFile, file: string)
    ensures HitsOfFile(Summed(a, b), file) == SummedHits(HitsOfFile(a, file), HitsOfFile(b, file))
  {
  }

  lemma SummedAssociative(a: ByFile, b: ByFile, c: ByFile)
    ensures Summed(Summed(a, b), c) == Summed(a, Summed(b, c))
  {
    var l, r := Summed(Summed(a, b), c), Summed(a, Summed(b, c));
    assert l.Keys == r.Keys;
    forall file | file in l ensures l[file] == r[file] {
      HitsOfSummed(Summed(a, b), c, file);
      HitsOfSummed(a, b, file);
      HitsOfSummed(a, Summed(b, c), file);
      HitsOfSummed(b, c, file);
      SummedHitsAssociative(HitsOfFile(a, file), HitsOfFile(b, file), HitsOfFile(c, file));
    }
  }

  lemma SummedWithNothing(a: ByFile)
    ensures Summed(a, map[]) == a
  {
    forall file | file in a ensures SummedHits(a[file], map[]) == a[file] {
    }
  }

  function MergedSnapshot(a: Snapshot, b: Snapshot): Snapshot {
    Snapshot(Summed(a.positions, b.positions), Summed(a.implicitPositions, b.implicitPositions))
  }

  /** `Merge` of any number of coverages, added up from left to right. */
  function MergedAll(acc: Snapshot, inputs: seq<Snapshot>): Snapshot
    decreases |inputs|
  {
    if inputs == [] then acc else MergedAll(MergedSnapshot(acc, inputs[0]), inputs[1..])
  }

  function PositionsAt(p: Position): Snapshot -> int {
    (s: Snapshot) => HitsAt(s.positions, p)
  }

  function ImplicitAt(p: Position): Snapshot -> int {
    (s: Snapshot) => HitsAt(s.implicitPositions, p)
  }

  /** Every position has the sum of its hits, and is known if it is known to some input. */
  lemma {:induction false} MergedAllAt(acc: Snapshot, inputs: seq<Snapshot>, p: Position)
    ensures var m := MergedAll(acc, inputs);
            && HitsAt(m.positions, p) == HitsAt(acc.positions, p) + Sum(inputs, PositionsAt(p))
            && HitsAt(m.implicitPositions, p) == HitsAt(acc.implicitPositions, p) + Sum(inputs, ImplicitAt(p))
            && (Known(m.positions, p) <==>
                  Known(acc.positions, p) || exists s :: s in inputs && Known(s.positions, p))
            && (Known(m.implicitPositions, p) <==>
                  Known(acc.implicitPositions, p) || exists s :: s in inputs && Known(s.implicitPositions, p))
    decreases |inputs|
  {
    if inputs != [] {
      hide Known, HitsAt, Summed;
      var s, rest := inputs[0], inputs[1..];
      SummedAt(acc.positions, s.positions, p);
      SummedAt(acc.implicitPositions, s.implicitPositions, p);
      MergedAllAt(MergedSnapshot(acc, s), rest, p);
      assert forall x :: x in inputs <==> x == s || x in rest;
    }
  }

  lemma {:induction false} MergedAllSound(acc: Snapshot, inputs: seq<Snapshot>)
    requires Sound(acc) && forall s :: s in inputs ==> Sound(s)
    ensures Sound(MergedAll(acc, inputs))
    decreases |inputs|
  {
    if inputs != [] {
      assert Sound(inputs[0]);
      SummedTidy(acc.positions, inputs[0].positions);
      SummedTidy(acc.implicitPositions, inputs[0].implicitPositions);
      MergedAllSound(MergedSnapshot(acc, inputs[0]), inputs[1..]);
    }
  }

  /** The order of the inputs does not matter. */
  lemma OrderOfInputs(acc: Snapshot, inputs: seq<Snapshot>, inputs': seq<Snapshot>)
    requires Sound(acc) && (forall s :: s in inputs ==> Sound(s)) && multiset(inputs) == multiset(inputs')
    ensures MergedAll(acc, inputs) == MergedAll(acc, inputs')
  {
    var m, m' := MergedAll(acc, inputs), MergedAll(acc, inputs');
    assert forall s :: s in inputs <==> s in multiset(inputs);
    assert forall s :: s in inputs' <==> s in multiset(inputs');
    MergedAllSound(acc, inputs);
    MergedAllSound(acc, inputs');
    forall p: Position
      ensures (Known(m.positions, p) <==> Known(m'.positions, p)) && HitsAt(m.positions, p) == HitsAt(m'.positions, p)
      ensures (Known(m.implicitPositions, p) <==> Known(m'.implicitPositions, p))
              && HitsAt(m.implicitPositions, p) == HitsAt(m'.implicitPositions, p)
    {
      hide Known, HitsAt;
      MergedAllAt(acc, inputs, p);
      MergedAllAt(acc, inputs', p);
      SumPermuted(inputs, inputs', PositionsAt(p));
      SumPermuted(inputs, inputs', ImplicitAt(p));
    }
    AgreeIsEqual(m.positions, m'.positions);
    AgreeIsEqual(m.implicitPositions, m'.implicitPositions);
  }

  ghost predicate NoHits(s: Snapshot) {
    forall p: Position :: HitsAt(s.positions, p) == 0 && HitsAt(s.implicitPositions, p) == 0
  }

  /** Merging is a homomorphism: two collectors seeded alike, merged, are one collector that saw both
      sequences of signals. */
  lemma MergeIsCollect(seed: Snapshot, a: seq<Position>, b: seq<Position>)
    requires Sound(seed) && NoHits(seed)
    ensures MergedSnapshot(Collected(seed, a), Collected(seed, b)) == Collected(seed, a + b)
  {
    var ca, cb := Collected(seed, a), Collected(seed, b);
    var m, c := MergedSnapshot(ca, cb), Collected(seed, a + b);
    CollectedIsTally(seed, a);
    CollectedIsTally(seed, b);
    CollectedIsTally(seed, a + b);
    SummedTidy(ca.positions, cb.positions);
    SummedTidy(ca.implicitPositions, cb.implicitPositions);
    assert multiset(a + b) == multiset(a) + multiset(b);
    forall p: Position ensures TallyAt(seed, multiset(a + b), m, p) {
      MergedTally(seed, multiset(a), multiset(b), ca, cb, p);
    }
    TallyUnique(seed, multiset(a + b), m, c);
  }

  lemma MergedTally(seed: Snapshot, a: multiset<Position>, b: multiset<Position>, ca: Snapshot, cb: Snapshot,
                    p: Position)
    requires TallyAt(seed, a, ca, p) && TallyAt(seed, b, cb, p)
    requires HitsAt(seed.positions, p) == 0 && HitsAt(seed.implicitPositions, p) == 0
    ensures TallyAt(seed, a + b, MergedSnapshot(ca, cb), p)
  {
    hide Known, HitsAt, Summed;
    SummedAt(ca.positions, cb.positions, p);
    SummedAt(ca.implicitPositions, cb.implicitPositions, p);
  }
}

/** The numbers behind the coverage percentage. */
module Percentages {
  import opened Hits
  import opened Counting

  function Entries(m: ByFile): set<Position> {
    set file, key | file in m && key in m[file] :: Position(file, key)
  }

  function CoveredEntries(m: ByFile): set<Position> {
    set p | p in Entries(m) && m[p.file][p.key] > 0
  }

  function Total(m: ByFile): nat {
    |Entries(m)|
  }

  function Covered(m: ByFile): (n: nat)
    ensures n <= Total(m)
  {
    SubsetSize(CoveredEntries(m), Entries(m));
    |CoveredEntries(m)|
  }

  lemma {:induction false} SubsetSize<T>(a: set<T>, b: set<T>)
    requires a <= b
    ensures |a| <= |b|
  {
    assert b == a + (b - a);
  }

  ghost predicate NonNegative(m: ByFile) {
    forall p: Position :: HitsAt(m, p) >= 0
  }

  lemma EntryIsKnown(m: ByFile, p: Position)
    ensures p in Entries(m) <==> Known(m, p)
    ensures p in CoveredEntries(m) <==> HitsAt(m, p) > 0
  {
  }

  /** One more hit at `p`. */
  lemma PutCounts(m: ByFile, p: Position)
    requires NonNegative(m)
    ensures var m' := Put(m, p, HitsAt(m, p) + 1);
            && NonNegative(m')
            && Total(m') == Total(m) + (if Known(m, p) then 0 else 1)
            && Covered(m') == Covered(m) + (if HitsAt(m, p) > 0 then 0 else 1)
  {
    var m' := Put(m, p, HitsAt(m, p) + 1);
    forall q: Position
      ensures HitsAt(m', q) >= 0
      ensures q in Entries(m') <==> q in Entries(m) + {p}
      ensures q in CoveredEntries(m') <==> q in CoveredEntries(m) + {p}
    {
      PutChangesOne(m, p, HitsAt(m, p) + 1, q);
      EntryIsKnown(m, q);
      EntryIsKnown(m', q);
      assert HitsAt(m, q) >= 0;
    }
    EntryIsKnown(m, p);
    assert Entries(m') == Entries(m) + {p};
    assert CoveredEntries(m') == CoveredEntries(m) + {p};
  }

  /** The fraction covered/total of `m'` is at least that of `m`. */
  predicate NotWorse(m: ByFile, m': ByFile) {
    Total(m) <= Total(m') && Covered(m) * Total(m') <= Covered(m') * Total(m)
  }

  lemma NotWorseTrans(a: ByFile, b: ByFile, c: ByFile)
    requires NotWorse(a, b) && NotWorse(b, c)
    ensures NotWorse(a, c)
  {
    var (a0, a1, b0, b1, c0, c1) := (Covered(a), Total(a), Covered(b), Total(b), Covered(c), Total(c));
    Fractions(a0, a1, b0, b1, c0, c1);
  }

  lemma Fractions(a0: nat, a1: nat, b0: nat, b1: nat, c0: nat, c1: nat)
    requires a0 <= a1 <= b1 <= c1 && a0 * b1 <= b0 * a1 && b0 * c1 <= c0 * b1
    ensures a0 * c1 <= c0 * a1
  {
    if b1 == 0 {
    } else {
      calc {
        (a0 * c1) * b1;
        (a0 * b1) * c1;
      <= { TimesMonotone(a0 * b1, b0 * a1, c1); }
        (b0 * a1) * c1;
        (b0 * c1) * a1;
      <= { TimesMonotone(b0 * c1, c0 * b1, a1); }
        (c0 * b1) * a1;
        (c0 * a1) * b1;
      }
      CancelFactor(a0 * c1, c0 * a1, b1);
    }
  }

  lemma TimesMonotone(x: int, y: int, z: nat)
    requires x <= y
    ensures x * z <= y * z
  {
  }

  lemma CancelFactor(x: int, y: int, z: nat)
    requires z > 0 && x * z <= y * z
    ensures x <= y
  {
    if y < x {
      assert (y + 1) * z == y * z + z;
      TimesMonotone(y + 1, x, z);
    }
  }

  /** No signal lowers the executable ratio; signals of implicit positions leave it alone. */
  lemma {:induction false} CoverageGrows(s: Snapshot, ps: seq<Position>)
    requires NonNegative(s.positions)
    ensures NonNegative(Collected(s, ps).positions)
    ensures NotWorse(s.positions, Collected(s, ps).positions)
    ensures (forall p :: p in ps ==> Known(s.implicitPositions, p)) ==> Collected(s, ps).positions == s.positions
    decreases |ps|
  {
    if ps != [] {
      hide Known, Total, Covered, HitsAt;
      var p := ps[0];
      var s1 := Counted(s, p);
      SignalGrows(s, p);
      CoverageGrows(s1, ps[1..]);
      NotWorseTrans(s.positions, s1.positions, Collected(s, ps).positions);
      forall q: Position { CountedChangesOne(s, p, q); }
    }
  }

  lemma SignalGrows(s: Snapshot, p: Position)
    requires NonNegative(s.positions)
    ensures NonNegative(Counted(s, p).positions) && NotWorse(s.positions, Counted(s, p).positions)
  {
    if !Known(s.implicitPositions, p) {
      hide Total, Covered;
      PutCounts(s.positions, p);
      var c, t := Covered(s.positions), Total(s.positions);
      var c' := Covered(Counted(s, p).positions);
      OneMore(c, c', t);
    }
  }

  lemma OneMore(c: nat, c': nat, t: nat)
    requires c <= t && c <= c' <= c + 1
    ensures c * t <= c' * t
    ensures c' == c + 1 ==> c * (t + 1) <= c' * t
  {
    TimesMonotone(c, c', t);
    if c' == c + 1 {
      calc {
        c * (t + 1);
        c * t + c;
      <=
        c * t + t;
        c' * t;
      }
    }
  }
}
