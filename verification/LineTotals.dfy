/** The lines an LCOV report shows, and the signals behind them. */
module LineTotals {
  import opened Basics
  import opened Sums
  import opened Decimal
  import opened SignalCodec
  import opened Instrumenter
  import opened InstrumenterTheorems
  import opened Hits
  import opened Counting
  import opened Seeding
  import opened EndToEnd
  import L = LcovReport

  /** The hits of the file's positions whose key meets the condition. */
  ghost function HitSum(s: Snapshot, file: string, only: string -> bool): int {
    var hits := HitsOfFile(s.positions, file);
    L.SumOver(L.Where(hits, only), hits.Keys)
  }

  /** 1 for a position of the file that is not implicit and meets the condition. */
  function ExecutableIn(s: Snapshot, file: string, only: string -> bool): Position -> int {
    (p: Position) => if p.file == file && !Known(s.implicitPositions, p) && only(p.key) then 1 else 0
  }

  lemma CountedSum(s: Snapshot, p: Position, file: string, only: string -> bool)
    ensures HitSum(Counted(s, p), file, only) == HitSum(s, file, only) + ExecutableIn(s, file, only)(p)
  {
    var hits := HitsOfFile(s.positions, p.file);
    if !Known(s.implicitPositions, p) && p.file == file {
      L.PutSumWhere(hits, p.key, HitsAt(s.positions, p) + 1, only);
      assert HitsOfFile(Counted(s, p).positions, file) == hits[p.key := HitsAt(s.positions, p) + 1];
    }
  }

  lemma {:induction false} CollectedSum(seed: Snapshot, s: Snapshot, ps: seq<Position>, file: string,
                                        only: string -> bool)
    requires forall p: Position :: Known(s.implicitPositions, p) == Known(seed.implicitPositions, p)
    ensures HitSum(Collected(s, ps), file, only) == HitSum(s, file, only) + Sum(ps, ExecutableIn(seed, file, only))
    decreases |ps|
  {
    if ps != [] {
      hide Known, Counted, HitSum;
      CountedSum(s, ps[0], file, only);
      forall p: Position
        ensures Known(Counted(s, ps[0]).implicitPositions, p) == Known(seed.implicitPositions, p)
      {
        CountedChangesOne(s, ps[0], p);
      }
      CollectedSum(seed, Counted(s, ps[0]), ps[1..], file, only);
    }
  }

  /** 1 for the ID of an executable point of the file whose key meets the condition. */
  function IsExecutable(points: seq<CoveragePoint>, file: string, only: string -> bool): string -> int {
    id => if exists j :: 0 <= j < |points| && points[j].file == file && id == points[j].signalID
                         && !points[j].implicitCoverage && only(PointPosition(points[j]).key) then 1 else 0
  }

  lemma SumFirst(ids: seq<string>, f: Position -> int)
    requires ids != [] && AllValid(ids) && AllValid(ids[1..])
    ensures Sum(PositionsOf(ids), f) == f(PositionOf(ids[0])) + Sum(PositionsOf(ids[1..]), f)
  {
    hide ValidID, PositionAt;
    assert PositionsOf(ids)[1..] == PositionsOf(ids[1..]);
  }

  lemma {:induction false} ExecutableSignals(points: seq<CoveragePoint>, file: string, only: string -> bool,
                                             ids: seq<string>)
    requires WellPlaced(points) && SentFor(points, ids) && AllValid(ids)
    ensures Sum(PositionsOf(ids), ExecutableIn(Seeded(NOTHING, points), file, only))
            == Sum(ids, IsExecutable(points, file, only))
    decreases |ids|
  {
    var seed := Seeded(NOTHING, points);
    if ids == [] {
      assert PositionsOf(ids) == [];
    } else {
      hide Known, ValidID, PositionAt, WellPlaced, IsExecutable, ExecutableIn, PositionsOf;
      RestSent(points, ids);
      ExecutableSignals(points, file, only, ids[1..]);
      assert IsPointID(points, ids[0]);
      var k :| 0 <= k < |points| && ids[0] == points[k].signalID;
      ExecutablePoint(points, file, only, k);
      SumFirst(ids, ExecutableIn(seed, file, only));
    }
  }

  lemma ExecutablePoint(points: seq<CoveragePoint>, file: string, only: string -> bool, k: nat)
    requires WellPlaced(points) && k < |points|
    ensures ValidID(points[k].signalID)
    ensures ExecutableIn(Seeded(NOTHING, points), file, only)(PositionOf(points[k].signalID))
            == IsExecutable(points, file, only)(points[k].signalID)
  {
    hide Known, ValidID, PositionAt, WellPlaced;
    var cp := points[k];
    var p := PointPosition(cp);
    PointNames(points, k);
    PointsApart(points);
    SeededOnce(points, p);
    SeededIs(NOTHING, points, p);
    NothingKnown(p);
    assert Has(points, p, cp.implicitCoverage);
    forall j | 0 <= j < |points| && points[j].signalID == cp.signalID ensures j == k {
      SamePoint(points, j, k);
    }
  }

  lemma {:induction false} SumOfZeros(m: PositionHits, only: string -> bool, keys: set<string>)
    requires forall key :: key in keys ==> key in m && m[key] == 0
    ensures L.SumOver(L.Where(m, only), keys) == 0
    decreases |keys|
  {
    if keys != {} {
      var key :| key in keys;
      L.SumOverPick(L.Where(m, only), keys, key);
      SumOfZeros(m, only, keys - {key});
    }
  }

  lemma SeededSum(points: seq<CoveragePoint>, file: string, only: string -> bool)
    requires Apart(points)
    ensures HitSum(Seeded(NOTHING, points), file, only) == 0
  {
    var hits := HitsOfFile(Seeded(NOTHING, points).positions, file);
    forall key | key in hits ensures hits[key] == 0 {
      SeededOnce(points, Position(file, key));
    }
    SumOfZeros(hits, only, hits.Keys);
  }

  /** The hits that meet a condition are the signals for points that meet it. */
  lemma AggregatedSum(points: seq<CoveragePoint>, ids: seq<string>, file: string, only: string -> bool)
    requires WellPlaced(points) && SentFor(points, ids) && AllValid(ids)
    ensures HitSum(Aggregated(points, ids), file, only) == Sum(ids, IsExecutable(points, file, only))
  {
    hide Known, ValidID, PointPosition, WellPlaced, Counted, IsExecutable, ExecutableIn, HitSum;
    var seed, ps := Seeded(NOTHING, points), PositionsOf(ids);
    PointsApart(points);
    SeededSum(points, file, only);
    CollectedSum(seed, seed, ps, file, only);
    ExecutableSignals(points, file, only, ids);
  }

  // ----- lines -----

  /** The points of the file lie in its text. */
  predicate Inside(points: seq<CoveragePoint>, file: string, sql: string) {
    forall j :: 0 <= j < |points| && points[j].file == file ==> PointEnd(points[j]) <= |sql|
  }

  /** The point begins on that line: as many newlines stand before its first byte, and one line more. */
  predicate OnLine(sql: string, cp: CoveragePoint, line: int) {
    0 <= cp.startPos <= |sql| && line == 1 + |set k: nat | k < cp.startPos && sql[k] == '\n'|
  }

  /** 1 for the ID of an executable point of the file that begins on the line. */
  function StartsOn(points: seq<CoveragePoint>, file: string, sql: string, line: int): string -> int {
    id => if exists j :: 0 <= j < |points| && points[j].file == file && id == points[j].signalID
                         && !points[j].implicitCoverage && OnLine(sql, points[j], line) then 1 else 0
  }

  lemma PointLine(points: seq<CoveragePoint>, file: string, sql: string, j: nat)
    requires WellPlaced(points) && Inside(points, file, sql) && j < |points| && points[j].file == file
    ensures OnLine(sql, points[j], L.LineOfKey(sql, PointPosition(points[j]).key))
  {
    L.KeyLine(sql, points[j].startPos, points[j].length);
  }

  function KeyOn(sql: string, line: int): string -> bool {
    key => L.LineOfKey(sql, key) == line
  }

  lemma StartsOnLine(points: seq<CoveragePoint>, file: string, sql: string, line: int, id: string)
    requires WellPlaced(points) && Inside(points, file, sql)
    ensures IsExecutable(points, file, KeyOn(sql, line))(id) == StartsOn(points, file, sql, line)(id)
  {
    hide WellPlaced, Inside, PointPosition;
    forall j | 0 <= j < |points| && points[j].file == file
      ensures L.LineOfKey(sql, PointPosition(points[j]).key) == line <==> OnLine(sql, points[j], line)
    {
      PointLine(points, file, sql, j);
    }
  }

  lemma {:induction false} SumSame(ids: seq<string>, f: string -> int, g: string -> int)
    requires forall id :: f(id) == g(id)
    ensures Sum(ids, f) == Sum(ids, g)
    decreases |ids|
  {
    if ids != [] {
      SumSame(ids[1..], f, g);
    }
  }

  /** A line of the report has as many hits as signals were received for the executable points that begin on it. */
  lemma LineCountsSignals(points: seq<CoveragePoint>, file: string, sql: string, ids: seq<string>,
                          lineHits: map<nat, int>, line: nat)
    requires WellPlaced(points) && Inside(points, file, sql) && SentFor(points, ids) && AllValid(ids)
    requires var posHits := HitsOfFile(Aggregated(points, ids).positions, file);
             L.LinesOf(lineHits, sql, posHits, posHits.Keys)
    ensures line in lineHits
            <==> exists j :: 0 <= j < |points| && points[j].file == file && !points[j].implicitCoverage
                             && OnLine(sql, points[j], line)
    ensures line in lineHits ==> lineHits[line] == Sum(ids, StartsOn(points, file, sql, line))
  {
    LineHasPoint(points, file, sql, ids, lineHits, line);
    hide WellPlaced, Inside, IsExecutable, StartsOn, L.LineOfKey, Aggregated, OnLine, PointPosition;
    var posHits := HitsOfFile(Aggregated(points, ids).positions, file);
    AggregatedSum(points, ids, file, KeyOn(sql, line));
    L.SumOverSame(L.AtLine(sql, posHits, line), L.Where(posHits, KeyOn(sql, line)), posHits.Keys);
    forall id ensures IsExecutable(points, file, KeyOn(sql, line))(id) == StartsOn(points, file, sql, line)(id) {
      StartsOnLine(points, file, sql, line, id);
    }
    SumSame(ids, IsExecutable(points, file, KeyOn(sql, line)), StartsOn(points, file, sql, line));
  }

  lemma LineHasPoint(points: seq<CoveragePoint>, file: string, sql: string, ids: seq<string>,
                     lineHits: map<nat, int>, line: nat)
    requires WellPlaced(points) && Inside(points, file, sql) && SentFor(points, ids) && AllValid(ids)
    requires var posHits := HitsOfFile(Aggregated(points, ids).positions, file);
             L.LinesOf(lineHits, sql, posHits, posHits.Keys)
    ensures line in lineHits
            <==> exists j :: 0 <= j < |points| && points[j].file == file && !points[j].implicitCoverage
                             && OnLine(sql, points[j], line)
  {
    hide WellPlaced, Inside, L.LineOfKey, L.AtLine, Aggregated, PointPosition, HitsAt, L.SumOver;
    var posHits := HitsOfFile(Aggregated(points, ids).positions, file);
    if line in lineHits {
      var key :| key in posHits && L.LineOfKey(sql, key) == line;
      var j := KeyHasPoint(points, ids, file, key);
      PointLine(points, file, sql, j);
    }
    if j :| 0 <= j < |points| && points[j].file == file && !points[j].implicitCoverage && OnLine(sql, points[j], line) {
      PointLine(points, file, sql, j);
      PointNames(points, j);
      AggregatedHits(points, ids, j);
      assert PointPosition(points[j]).key in posHits;
    }
  }

  /** A key with hits is that of an executable point. */
  lemma KeyHasPoint(points: seq<CoveragePoint>, ids: seq<string>, file: string, key: string) returns (j: nat)
    requires WellPlaced(points) && SentFor(points, ids) && AllValid(ids)
    requires key in HitsOfFile(Aggregated(points, ids).positions, file)
    ensures j < |points| && points[j].file == file && !points[j].implicitCoverage && PointPosition(points[j]).key == key
  {
    hide Aggregated, PointPosition, WellPlaced;
    AggregatedOnly(points, ids, Position(file, key));
    j :| 0 <= j < |points| && PointPosition(points[j]) == Position(file, key);
    PointNames(points, j);
    AggregatedHits(points, ids, j);
  }

  /** 1 for the ID of an executable point of the file. */
  function OfFile(points: seq<CoveragePoint>, file: string): string -> int {
    id => if exists j :: 0 <= j < |points| && points[j].file == file && id == points[j].signalID
                         && !points[j].implicitCoverage then 1 else 0
  }

  /** No signal is lost or doubled on the way to the lines: the hits of all lines of a file add up to the number of
      signals received for its executable points. */
  lemma LinesCountSignals(points: seq<CoveragePoint>, file: string, sql: string, ids: seq<string>,
                          lineHits: map<nat, int>)
    requires WellPlaced(points) && Inside(points, file, sql) && SentFor(points, ids) && AllValid(ids)
    requires var posHits := HitsOfFile(Aggregated(points, ids).positions, file);
             L.LinesOf(lineHits, sql, posHits, posHits.Keys)
    ensures L.SumOver(L.ValueIn(lineHits), lineHits.Keys) == Sum(ids, OfFile(points, file))
  {
    hide Known, ValidID, PointPosition, WellPlaced, Inside, Aggregated, L.LinesOf;
    var posHits, any := HitsOfFile(Aggregated(points, ids).positions, file), (key: string) => true;
    AggregatedSum(points, ids, file, any);
    forall key | key in posHits ensures L.InRange(sql, posHits)(key) == L.Where(posHits, any)(key) {
      var j := KeyHasPoint(points, ids, file, key);
      PointLine(points, file, sql, j);
    }
    L.SumOverSame(L.InRange(sql, posHits), L.Where(posHits, any), posHits.Keys);
    L.LinesSum(lineHits, sql, posHits);
    SumSame(ids, IsExecutable(points, file, any), OfFile(points, file));
  }
}
