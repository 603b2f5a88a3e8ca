/** internal/coverage/collector.go: the object that aggregates the signals of test runs. */
module Collector {
  import opened Basics
  import opened SignalCodec
  import opened Instrumenter
  import opened Hits
  import opened Counting
  import opened Seeding
  import opened Percentages
  import C = Coverage

  /** The signal IDs of one test run, in the order they were received. */
  type Signals = seq<string>

  /** The signals of all runs, one run behind the other. */
  function AllSignals(runs: seq<Signals>): Signals
    decreases |runs|
  {
    if runs == [] then [] else runs[0] + AllSignals(runs[1..])
  }

  /** Signals are counted up to the first one that does not parse. */
  function CollectedUpTo(s: Snapshot, ids: Signals): Snapshot
    decreases |ids|
  {
    if ids == [] || !ValidID(ids[0]) then s else CollectedUpTo(Counted(s, PositionOf(ids[0])), ids[1..])
  }

  function SeededFrom(s: Snapshot, files: seq<InstrumentedSQL>, i: nat): Snapshot
    requires i <= |files|
    decreases |files| - i
  {
    if i == |files| then s else SeededFrom(Seeded(s, files[i].locations), files, i + 1)
  }

  class Collector {
    var coverage: C.Coverage

    constructor (now: int)
      ensures fresh(coverage) && coverage.Value() == NOTHING
    {
      coverage := new C.Coverage(now);
    }

    /** `addSignalUnsafe`. */
    method AddSignal(signalID: string) returns (failure: Option<ParseError>)
      modifies coverage
      ensures match SignalLocation(signalID)
              case Err(e) => failure == Some(e) && coverage.Value() == old(coverage.Value())
              case Ok(l) => failure == None && coverage.Value() == Counted(old(coverage.Value()), PositionAt(l))
    {
      hide Known, HitsAt, Put, FormatPositionKey, SignalLocation;
      var parsed := ParseSignalID(signalID);
      if parsed.Err? {
        return Some(parsed.error);
      }
      var Location(file, startPos, length) := parsed.value;
      var p := Position(file, FormatPositionKey(startPos, length));
      if Known(coverage.implicitPositions, p) {
        coverage.AddImplicitPosition(file, startPos, length, HitsAt(coverage.implicitPositions, p) + 1);
        return None;
      }
      var existingCount := HitsAt(coverage.positions, p);
      coverage.AddPosition(file, startPos, length, existingCount + 1);
      return None;
    }

    /** `CollectFromRun`: the signals before the first that does not parse are counted, the others are not. */
    method CollectFromRun(sigs: Signals) returns (failure: Option<ParseError>)
      modifies coverage
      ensures failure.None? <==> AllValid(sigs)
      ensures coverage.Value() == CollectedUpTo(old(coverage.Value()), sigs)
    {
      var i := 0;
      while i < |sigs|
        invariant 0 <= i <= |sigs|
        invariant AllValid(sigs) <==> AllValid(sigs[i..])
        invariant CollectedUpTo(coverage.Value(), sigs[i..]) == CollectedUpTo(old(coverage.Value()), sigs)
      {
        hide Counted, PositionAt;
        FirstOf(coverage.Value(), sigs, i);
        failure := AddSignal(sigs[i]);
        if failure.Some? {
          return;
        }
        i := i + 1;
      }
      failure := None;
    }

    /** `CollectFromRuns`: the runs in order, up to the first signal of any run that does not parse. */
    method CollectFromRuns(testRuns: seq<Signals>) returns (failure: Option<ParseError>)
      modifies coverage
      ensures failure.None? <==> AllValid(AllSignals(testRuns))
      ensures coverage.Value() == CollectedUpTo(old(coverage.Value()), AllSignals(testRuns))
    {
      var i := 0;
      while i < |testRuns|
        invariant 0 <= i <= |testRuns|
        invariant AllValid(AllSignals(testRuns)) <==> AllValid(AllSignals(testRuns[i..]))
        invariant CollectedUpTo(coverage.Value(), AllSignals(testRuns[i..]))
                  == CollectedUpTo(old(coverage.Value()), AllSignals(testRuns))
      {
        assert testRuns[i..][1..] == testRuns[i + 1..];
        RunFirst(coverage.Value(), testRuns[i], AllSignals(testRuns[i + 1..]));
        failure := CollectFromRun(testRuns[i]);
        if failure.Some? {
          return;
        }
        i := i + 1;
      }
      failure := None;
    }

    /** `InitializeFromInstrumented`. */
    method InitializeFromInstrumented(instrumented: seq<InstrumentedSQL>)
      modifies coverage
      ensures coverage.Value() == SeededFrom(old(coverage.Value()), instrumented, 0)
    {
      var i := 0;
      while i < |instrumented|
        invariant 0 <= i <= |instrumented|
        invariant SeededFrom(coverage.Value(), instrumented, i) == SeededFrom(old(coverage.Value()), instrumented, 0)
      {
        InitializeFromPoints(instrumented[i].locations);
        i := i + 1;
      }
    }

    /** The inner loop of `InitializeFromInstrumented`. */
    method InitializeFromPoints(locations: seq<CoveragePoint>)
      modifies coverage
      ensures coverage.Value() == Seeded(old(coverage.Value()), locations)
    {
      var i := 0;
      while i < |locations|
        invariant 0 <= i <= |locations|
        invariant Seeded(coverage.Value(), locations[i..]) == Seeded(old(coverage.Value()), locations)
      {
        hide Known, Put, FormatPositionKey;
        assert locations[i..][1..] == locations[i + 1..];
        var cp := locations[i];
        var p := PointPosition(cp);
        if cp.implicitCoverage {
          if !Known(coverage.implicitPositions, p) {
            coverage.AddImplicitPosition(cp.file, cp.startPos, cp.length, 0);
          }
        } else if !Known(coverage.positions, p) {
          coverage.AddPosition(cp.file, cp.startPos, cp.length, 0);
        }
        i := i + 1;
      }
    }

    /** `Coverage`: a copy that later signals do not touch. */
    method Coverage() returns (c: C.Coverage)
      ensures fresh(c) && c.Value() == coverage.Value()
    {
      c := coverage.Clone();
    }
  }

  // ----- prefixes -----

  /** The first of the remaining signals. */
  lemma FirstOf(s: Snapshot, ids: Signals, i: nat)
    requires i < |ids|
    ensures AllValid(ids[i..]) <==> ValidID(ids[i]) && AllValid(ids[i + 1..])
    ensures CollectedUpTo(s, ids[i..])
            == if ValidID(ids[i]) then CollectedUpTo(Counted(s, PositionOf(ids[i])), ids[i + 1..]) else s
  {
    hide Counted, PositionAt, ValidID;
    var here := ids[i..];
    assert here[0] == ids[i] && here[1..] == ids[i + 1..];
    AllValidFirst(here);
  }

  lemma AllValidFirst(ids: Signals)
    requires ids != []
    ensures AllValid(ids) <==> ValidID(ids[0]) && AllValid(ids[1..])
  {
    hide ValidID;
    assert forall k :: 1 <= k < |ids| ==> ids[k] == ids[1..][k - 1];
  }

  /** The first run, and the others if all its signals parse. */
  lemma {:induction false} RunFirst(s: Snapshot, run: Signals, others: Signals)
    ensures AllValid(run + others) <==> AllValid(run) && AllValid(others)
    ensures CollectedUpTo(s, run + others)
            == if AllValid(run) then CollectedUpTo(CollectedUpTo(s, run), others) else CollectedUpTo(s, run)
    decreases |run|
  {
    hide Counted, PositionAt, ValidID;
    if run == [] {
      assert run + others == others;
    } else {
      var all := run + others;
      assert all[0] == run[0] && all[1..] == run[1..] + others;
      AllValidFirst(run);
      AllValidFirst(all);
      RunFirst(if ValidID(run[0]) then Counted(s, PositionOf(run[0])) else s, run[1..], others);
    }
  }

  function ValidPrefix(ids: Signals): (n: nat)
    ensures n <= |ids|
    decreases |ids|
  {
    if ids == [] || !ValidID(ids[0]) then 0 else 1 + ValidPrefix(ids[1..])
  }

  /** The signals that count are the longest prefix that parses; all of them if all parse. */
  lemma {:induction false} CollectedUpToPrefix(s: Snapshot, ids: Signals)
    ensures var n := ValidPrefix(ids);
            && AllValid(ids[..n]) && (n < |ids| ==> !ValidID(ids[n])) && (AllValid(ids) <==> n == |ids|)
            && CollectedUpTo(s, ids) == Collected(s, PositionsOf(ids[..n]))
    decreases |ids|
  {
    hide Counted, PositionAt, ValidID;
    var n := ValidPrefix(ids);
    if n == 0 {
      assert PositionsOf(ids[..0]) == [];
    } else {
      var rest := ids[1..];
      CollectedUpToPrefix(Counted(s, PositionOf(ids[0])), rest);
      assert ids[..n] == [ids[0]] + rest[..n - 1];
      assert PositionsOf(ids[..n]) == [PositionOf(ids[0])] + PositionsOf(rest[..n - 1]);
      AllValidFirst(ids);
    }
  }

  /** Runs whose signals are the same up to order leave the same counts behind. */
  lemma RunsInAnyOrder(s: Snapshot, runs: seq<Signals>, runs': seq<Signals>)
    requires Sound(s) && AllValid(AllSignals(runs)) && multiset(AllSignals(runs)) == multiset(AllSignals(runs'))
    ensures AllValid(AllSignals(runs')) && CollectedUpTo(s, AllSignals(runs)) == CollectedUpTo(s, AllSignals(runs'))
  {
    var ids, ids' := AllSignals(runs), AllSignals(runs');
    hide ValidID, PositionAt, Counted;
    OrderOfSignals(s, ids, ids');
    CollectedUpToPrefix(s, ids);
    CollectedUpToPrefix(s, ids');
    assert ids[..|ids|] == ids && ids'[..|ids'|] == ids';
  }

  // ----- seeding -----

  function AllPoints(files: seq<InstrumentedSQL>, i: nat): seq<CoveragePoint>
    requires i <= |files|
    decreases |files| - i
  {
    if i == |files| then [] else files[i].locations + AllPoints(files, i + 1)
  }

  /** Seeding file by file is seeding all points. */
  lemma {:induction false} SeededFromIsSeeded(s: Snapshot, files: seq<InstrumentedSQL>, i: nat)
    requires i <= |files|
    ensures SeededFrom(s, files, i) == Seeded(s, AllPoints(files, i))
    decreases |files| - i
  {
    if i < |files| {
      SeededFromIsSeeded(Seeded(s, files[i].locations), files, i + 1);
      SeededConcat(s, files[i].locations, AllPoints(files, i + 1));
    }
  }
}
