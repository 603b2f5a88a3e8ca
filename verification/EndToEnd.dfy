/** From the points the instrumenter makes, over the keys the collector seeds and the payloads the signals
    carry, to the bytes the report highlights. */
module EndToEnd {
  import opened Basics
  import opened Decimal
  import opened Sums
  import opened Tokens
  import opened Parser
  import opened SignalCodec
  import opened Instrumenter
  import opened InstrumenterTheorems
  import opened Hits
  import opened Counting
  import opened Seeding
  import opened Collector
  import opened Ranges
  import C = Coverage

  // ----- from the source text to its statements -----

  /** The body constant of every statement is terminated. */
  predicate AllClosed(groups: seq<seq<Token>>) {
    forall n :: 0 <= n < |groups| ==>
      var sig := Significant(groups[n]);
      BodyToken(sig).Some? ==> Closed(sig[BodyToken(sig).value].text)
  }

  lemma {:induction false} ParsedInPlace(sql: string, groups: seq<seq<Token>>, n: nat, from: nat)
    requires n <= |groups| && WellGrouped(sql, groups, n, from) && AllClosed(groups)
    ensures AllInPlace(StatementsFrom(sql, groups, n, from))
    decreases |groups| - n
  {
    if n < |groups| {
      var next := groups[n][|groups[n]| - 1].pos + |groups[n][|groups[n]| - 1].text|;
      ParsedInPlace(sql, groups, n + 1, next);
      ClosedBodyInPlace(sql, groups[n]);
      hide StatementOf, BodyInPlace, Closed, WellLexed, AllInPlace, AllClosed;
      OneMoreInPlace(StatementOf(sql, groups[n]), StatementsFrom(sql, groups, n + 1, next));
    }
  }

  lemma OneMoreInPlace(stmt: Statement, rest: seq<Statement>)
    requires BodyInPlace(stmt) && AllInPlace(rest)
    ensures AllInPlace([stmt] + rest)
  {
  }

  /** What the parser makes of a file is what everything below asks for: statements that are disjoint slices of
      the file, in order, each with its body where `bodyStart` says it is. */
  lemma ParsedFile(lex: Lexer, sql: string, groups: seq<seq<Token>>)
    requires LexerContract(lex) && WellGrouped(sql, groups, 0, 0) && AllClosed(groups)
    ensures var stmts := StatementsFrom(sql, groups, 0, 0);
            Laid(sql, stmts) && AllInPlace(stmts) && Instrumentable(lex, stmts)
  {
    var stmts := StatementsFrom(sql, groups, 0, 0);
    StatementsLaid(sql, groups, 0, 0);
    ParsedInPlace(sql, groups, 0, 0);
    forall k | 0 <= k < |stmts| ensures LexesSegments(lex, stmts[k].body) && BodyFits(stmts[k]) {
      assert BodyInPlace(stmts[k]);
    }
  }

  // ----- from points to hits -----

  /** Points as the instrumenter makes them, of any number of files: not empty, at positions a signal ID can carry,
      each with its own ID, and those of one file in a row. */
  predicate WellPlaced(points: seq<CoveragePoint>) {
    && (forall k :: 0 <= k < |points| ==>
          var p := points[k];
          && 0 <= p.startPos && 0 < p.length && PointEnd(p) <= MAX_INT
          && p.signalID == FormatSignalID(p.file, p.startPos, p.length))
    && (forall j, k :: 0 <= j < k < |points| && points[j].file == points[k].file ==>
          PointEnd(points[j]) <= points[k].startPos)
  }

  lemma WellPlacedJoin(a: seq<CoveragePoint>, b: seq<CoveragePoint>, file: string, n: int)
    requires InRow(a, file, 0, n) && n <= MAX_INT && WellPlaced(b)
    requires forall k :: 0 <= k < |b| ==> b[k].file != file
    ensures WellPlaced(a + b)
  {
  }

  /** The points of several files, each with its own path and its points in a row. */
  predicate RowsOf(files: seq<InstrumentedSQL>, paths: seq<string>, i: nat)
    requires i <= |files| == |paths|
  {
    && (forall k :: i <= k < |files| ==> InRow(files[k].locations, paths[k], 0, MAX_INT))
    && (forall j, k :: i <= j < k < |paths| ==> paths[j] != paths[k])
  }

  lemma {:induction false} FilesWellPlaced(files: seq<InstrumentedSQL>, paths: seq<string>, i: nat)
    requires i <= |files| == |paths| && RowsOf(files, paths, i)
    ensures WellPlaced(AllPoints(files, i))
    ensures forall p :: p in AllPoints(files, i) ==> exists k :: i <= k < |paths| && p.file == paths[k]
    decreases |files| - i
  {
    if i < |files| {
      var here, more := files[i].locations, AllPoints(files, i + 1);
      FilesWellPlaced(files, paths, i + 1);
      forall k | 0 <= k < |more| ensures more[k].file != paths[i] {
        assert more[k] in more;
      }
      WellPlacedJoin(here, more, paths[i], MAX_INT);
      forall p | p in here + more ensures exists k :: i <= k < |paths| && p.file == paths[k] {
        if p in here { assert p.file == paths[i]; }
      }
    }
  }

  lemma {:induction false} PointOfFileIn(files: seq<InstrumentedSQL>, i: nat, k: nat, cp: CoveragePoint)
    requires i <= k < |files| && cp in files[k].locations
    ensures cp in AllPoints(files, i)
    decreases k - i
  {
    if i < k {
      PointOfFileIn(files, i + 1, k, cp);
    }
  }

  /** Signal ID, position key and coverage point name the same position. */
  lemma PointNames(points: seq<CoveragePoint>, j: nat)
    requires WellPlaced(points) && j < |points|
    ensures var cp := points[j];
            && ValidID(cp.signalID) && PositionOf(cp.signalID) == PointPosition(cp) && PointPosition(cp).file == cp.file
            && ParsePositionKey(PointPosition(cp).key) == Some((cp.startPos as nat, cp.length as nat))
  {
    var cp := points[j];
    SignalIDRoundTrip(cp.file, cp.startPos, cp.length);
    PositionKeyRoundTrip(cp.startPos, cp.length);
  }

  lemma PointsApart(points: seq<CoveragePoint>)
    requires WellPlaced(points)
    ensures Apart(points)
  {
    forall j, k | 0 <= j < k < |points| ensures PointPosition(points[j]) != PointPosition(points[k]) {
      PointNames(points, j);
      PointNames(points, k);
      assert points[j].file == points[k].file ==> PointEnd(points[j]) <= points[k].startPos;
    }
  }

  /** Every signal is one of the points'. */
  predicate SentFor(points: seq<CoveragePoint>, ids: seq<string>) {
    forall id :: id in ids ==> IsPointID(points, id)
  }

  predicate IsPointID(points: seq<CoveragePoint>, id: string) {
    exists j :: 0 <= j < |points| && id == points[j].signalID
  }

  lemma SentAreValid(points: seq<CoveragePoint>, ids: seq<string>)
    requires WellPlaced(points) && SentFor(points, ids)
    ensures AllValid(ids)
  {
    forall k | 0 <= k < |ids| ensures ValidID(ids[k]) {
      assert IsPointID(points, ids[k]);
      var j :| 0 <= j < |points| && ids[k] == points[j].signalID;
      PointNames(points, j);
    }
  }

  lemma RestSent(points: seq<CoveragePoint>, ids: seq<string>)
    requires ids != [] && SentFor(points, ids) && AllValid(ids)
    ensures SentFor(points, ids[1..]) && AllValid(ids[1..])
  {
    forall k | 1 <= k < |ids| ensures ids[1..][k - 1] == ids[k] {
    }
    assert forall id :: id in ids[1..] ==> id in ids;
  }

  lemma CountFirst(ids: seq<string>, q: Position, id: string)
    requires ids != [] && AllValid(ids) && (ids[0] == id <==> PositionOf(ids[0]) == q)
    requires AllValid(ids[1..]) && multiset(PositionsOf(ids[1..]))[q] == multiset(ids[1..])[id]
    ensures multiset(PositionsOf(ids))[q] == multiset(ids)[id]
  {
    hide ValidID, PositionAt;
    assert PositionsOf(ids) == [PositionOf(ids[0])] + PositionsOf(ids[1..]);
    assert ids == [ids[0]] + ids[1..];
  }

  /** As many signals count for a point's position as carry its ID. */
  lemma {:induction false} PositionCount(points: seq<CoveragePoint>, ids: seq<string>, j: nat)
    requires WellPlaced(points) && SentFor(points, ids) && j < |points| && AllValid(ids)
    ensures multiset(PositionsOf(ids))[PointPosition(points[j])] == multiset(ids)[points[j].signalID]
    decreases |ids|
  {
    if ids == [] {
      assert PositionsOf(ids) == [];
    } else {
      hide ValidID, PointPosition, PositionAt, WellPlaced, SignalLocation, PositionsOf;
      var rest := ids[1..];
      RestSent(points, ids);
      PositionCount(points, rest, j);
      assert IsPointID(points, ids[0]);
      var k :| 0 <= k < |points| && ids[0] == points[k].signalID;
      SamePoint(points, j, k);
      CountFirst(ids, PointPosition(points[j]), points[j].signalID);
    }
  }

  /** Two points share an ID exactly if they share a position. */
  lemma SamePoint(points: seq<CoveragePoint>, j: nat, k: nat)
    requires WellPlaced(points) && j < |points| && k < |points|
    ensures ValidID(points[k].signalID)
    ensures points[j].signalID == points[k].signalID <==> PointPosition(points[j]) == PositionOf(points[k].signalID)
    ensures points[j].signalID == points[k].signalID <==> j == k
  {
    PointNames(points, j);
    PointNames(points, k);
    PointsApart(points);
    if j != k {
      assert PointPosition(points[j]) != PointPosition(points[k]);
    }
  }

  /** What a collector that was seeded with the points holds after the signals. */
  function Aggregated(points: seq<CoveragePoint>, ids: seq<string>): Snapshot
    requires AllValid(ids)
  {
    Collected(Seeded(NOTHING, points), PositionsOf(ids))
  }

  /** Every point is in the map of its kind and in no other, with as many hits as signals carry its ID. */
  lemma AggregatedHits(points: seq<CoveragePoint>, ids: seq<string>, j: nat)
    requires WellPlaced(points) && SentFor(points, ids) && j < |points| && AllValid(ids)
    ensures var s, p, count := Aggregated(points, ids), PointPosition(points[j]), multiset(ids)[points[j].signalID];
            if points[j].implicitCoverage then
              Known(s.implicitPositions, p) && HitsAt(s.implicitPositions, p) == count && !Known(s.positions, p)
            else Known(s.positions, p) && HitsAt(s.positions, p) == count && !Known(s.implicitPositions, p)
  {
    hide Known, HitsAt, ValidID, PointPosition, WellPlaced;
    var p, seed := PointPosition(points[j]), Seeded(NOTHING, points);
    PointsApart(points);
    SeededOnce(points, p);
    SeededIs(NOTHING, points, p);
    NothingKnown(p);
    assert Has(points, p, points[j].implicitCoverage);
    PositionCount(points, ids, j);
    CollectedIsTally(seed, PositionsOf(ids));
    assert TallyAt(seed, multiset(PositionsOf(ids)), Aggregated(points, ids), p);
  }

  lemma NothingKnown(p: Position)
    ensures !Known(NOTHING.positions, p) && !Known(NOTHING.implicitPositions, p)
    ensures HitsAt(NOTHING.positions, p) == 0 && HitsAt(NOTHING.implicitPositions, p) == 0
  {
  }

  /** No other position is known. */
  lemma AggregatedOnly(points: seq<CoveragePoint>, ids: seq<string>, p: Position)
    requires WellPlaced(points) && SentFor(points, ids) && AllValid(ids)
    requires var s := Aggregated(points, ids); Known(s.positions, p) || Known(s.implicitPositions, p)
    ensures exists j :: 0 <= j < |points| && PointPosition(points[j]) == p
  {
    hide Known, HitsAt, ValidID, PointPosition, WellPlaced, PositionAt;
    var seed := Seeded(NOTHING, points);
    SeededIs(NOTHING, points, p);
    NothingKnown(p);
    PointsApart(points);
    SeededOnce(points, p);
    CollectedIsTally(seed, PositionsOf(ids));
    assert TallyAt(seed, multiset(PositionsOf(ids)), Aggregated(points, ids), p);
    if !Has(points, p, false) && !Has(points, p, true) {
      var k :| 0 <= k < |ids| && PositionsOf(ids)[k] == p;
      assert IsPointID(points, ids[k]);
      var j :| 0 <= j < |points| && ids[k] == points[j].signalID;
      SamePoint(points, j, j);
    }
  }

  /** The hit counts the report draws for the file. */
  function Drawn(s: Snapshot, file: string): PositionHits {
    match C.AllPositionsOf(s, file)
    case None => map[]
    case Some(all) => all
  }

  lemma DrawnHits(points: seq<CoveragePoint>, ids: seq<string>, j: nat)
    requires WellPlaced(points) && SentFor(points, ids) && j < |points| && AllValid(ids)
    ensures var drawn, key := Drawn(Aggregated(points, ids), points[j].file), PointPosition(points[j]).key;
            key in drawn && drawn[key] == multiset(ids)[points[j].signalID]
  {
    AggregatedHits(points, ids, j);
    PointNames(points, j);
    C.AllPositionsComplete(Aggregated(points, ids), points[j].file, PointPosition(points[j]).key);
  }

  lemma DrawnOnly(points: seq<CoveragePoint>, ids: seq<string>, file: string, key: string)
    requires WellPlaced(points) && SentFor(points, ids) && AllValid(ids)
    requires key in Drawn(Aggregated(points, ids), file)
    ensures exists j :: 0 <= j < |points| && PointPosition(points[j]) == Position(file, key)
  {
    C.AllPositionsComplete(Aggregated(points, ids), file, key);
    AggregatedOnly(points, ids, Position(file, key));
  }

  predicate InPoint(cp: CoveragePoint, b: nat) {
    cp.startPos <= b < PointEnd(cp)
  }

  /** The range drawn for a point. */
  lemma DrawnRange(points: seq<CoveragePoint>, ids: seq<string>, j: nat, b: nat)
    requires WellPlaced(points) && SentFor(points, ids) && j < |points| && AllValid(ids)
    ensures var drawn, key := Drawn(Aggregated(points, ids), points[j].file), PointPosition(points[j]).key;
            && key in drawn && RangeOf(drawn, key).Some?
            && (Contains(RangeOf(drawn, key).value, b) <==> InPoint(points[j], b))
            && drawn[key] == multiset(ids)[points[j].signalID]
  {
    hide Drawn, Aggregated;
    DrawnHits(points, ids, j);
    PointNames(points, j);
  }

  /** In the report of a file, a byte of a point is highlighted with the number of signals received for that point,
      and a byte of no point is not highlighted. */
  lemma HighlightIsCount(points: seq<CoveragePoint>, ids: seq<string>, file: string, b: nat, paint: Option<int>)
    requires WellPlaced(points) && SentFor(points, ids) && AllValid(ids)
    requires PaintMayBe(Drawn(Aggregated(points, ids), file), b, paint)
    ensures forall j :: 0 <= j < |points| && points[j].file == file && InPoint(points[j], b) ==>
              paint == Some(multiset(ids)[points[j].signalID])
    ensures (forall j :: 0 <= j < |points| && points[j].file == file ==> !InPoint(points[j], b)) ==> paint == None
  {
    hide Drawn, Aggregated, WellPlaced, PointPosition;
    var drawn := Drawn(Aggregated(points, ids), file);
    match paint
    case None =>
      forall j | 0 <= j < |points| && points[j].file == file ensures !InPoint(points[j], b) {
        DrawnRange(points, ids, j, b);
      }
    case Some(h) =>
      var key :| PaintedBy(drawn, b, key) && drawn[key] == h;
      DrawnOnly(points, ids, file, key);
      var k :| 0 <= k < |points| && PointPosition(points[k]) == Position(file, key);
      PointNames(points, k);
      DrawnRange(points, ids, k, b);
      assert InPoint(points[k], b);
      forall j | 0 <= j < |points| && points[j].file == file && InPoint(points[j], b)
        ensures h == multiset(ids)[points[j].signalID]
      {
        OnePointOnly(points, j, k, b);
      }
  }

  lemma OnePointOnly(points: seq<CoveragePoint>, j: nat, k: nat, b: nat)
    requires WellPlaced(points) && j < |points| && k < |points| && points[j].file == points[k].file
    requires InPoint(points[j], b) && InPoint(points[k], b)
    ensures j == k
  {
  }

  /** What a fresh collector holds that was initialised with the instrumented files and then given the runs, one
      after the other. */
  lemma CollectorHolds(files: seq<InstrumentedSQL>, runs: seq<Signals>)
    requires AllValid(AllSignals(runs))
    ensures CollectedUpTo(SeededFrom(NOTHING, files, 0), AllSignals(runs))
            == Aggregated(AllPoints(files, 0), AllSignals(runs))
  {
    var ids := AllSignals(runs);
    SeededFromIsSeeded(NOTHING, files, 0);
    CollectedUpToPrefix(SeededFrom(NOTHING, files, 0), ids);
    assert ids[..|ids|] == ids;
  }
}

