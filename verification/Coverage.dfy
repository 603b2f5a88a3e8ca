/** internal/coverage/model.go: the `Coverage` object and the operations that build, count and merge it. */
module Coverage {
  import opened Basics
  import opened SignalCodec
  import opened Hits
  import opened Counting
  import opened Merging
  import opened Percentages

  const SCHEMA_VERSION := "2.0"

  /** One more than the index of the input that carries another version. */
  datatype MergeError = BadVersion(input: nat)

  class Coverage {
    var version: string
    var timestamp: int
    var positions: ByFile
    var implicitPositions: ByFile
    var root: string

    /** `now` is the clock. */
    constructor (now: int)
      ensures version == SCHEMA_VERSION == "2.0" && timestamp == now && root == "" && Value() == Snapshot(map[], map[])
    {
      version, timestamp := SCHEMA_VERSION, now;
      positions, implicitPositions := map[], map[];
      root := "";
    }

    function Value(): Snapshot
      reads this
    {
      Snapshot(positions, implicitPositions)
    }

    /** `AddPosition`: sets the entry, making the file's map if it is not there. */
    method AddPosition(file: string, startPos: int, length: int, hitCount: int)
      modifies this`positions
      ensures positions == Put(old(positions), Position(file, FormatPositionKey(startPos, length)), hitCount)
    {
      if file !in positions {
        positions := positions[file := map[]];
      }
      var posKey := FormatPositionKey(startPos, length);
      positions := positions[file := positions[file][posKey := hitCount]];
    }

    method AddImplicitPosition(file: string, startPos: int, length: int, hitCount: int)
      modifies this`implicitPositions
      ensures implicitPositions
              == Put(old(implicitPositions), Position(file, FormatPositionKey(startPos, length)), hitCount)
    {
      if file !in implicitPositions {
        implicitPositions := implicitPositions[file := map[]];
      }
      implicitPositions :=
        implicitPositions[file := implicitPositions[file][FormatPositionKey(startPos, length) := hitCount]];
    }

    /** `AllPositions`: implicit positions overlaid with executable ones; nil if there are none. */
    method AllPositions(file: string) returns (all: Option<PositionHits>)
      ensures all == AllPositionsOf(Value(), file)
      ensures Overlaid(all, HitsOfFile(positions, file), HitsOfFile(implicitPositions, file))
    {
      var exec, implicit := HitsOfFile(positions, file), HitsOfFile(implicitPositions, file);
      if |exec| == 0 && |implicit| == 0 {
        return None;
      }
      return Some(implicit + exec);
    }

    method ExecutablePositionCounts() returns (covered: nat, total: nat)
      ensures covered == Covered(positions) && total == Total(positions)
    {
      covered, total := CountHits(positions);
    }

    method ImplicitPositionCounts() returns (covered: nat, total: nat)
      ensures covered == Covered(implicitPositions) && total == Total(implicitPositions)
    {
      covered, total := CountHits(implicitPositions);
    }

    method Clone() returns (c: Coverage)
      ensures fresh(c) && c.Value() == Value()
      ensures c.version == version && c.timestamp == timestamp && c.root == root
    {
      c := new Coverage(timestamp);
      c.version, c.root := version, root;
      c.positions, c.implicitPositions := positions, implicitPositions;
    }
  }

  /** Every key of either kind, with its hits; executable positions win a collision. */
  predicate Overlaid(all: Option<PositionHits>, exec: PositionHits, implicit: PositionHits) {
    match all
    case None => exec == map[] && implicit == map[]
    case Some(m) =>
      && m != map[] && m.Keys == exec.Keys + implicit.Keys
      && forall key :: key in m ==> m[key] == if key in exec then exec[key] else implicit[key]
  }

  function AllPositionsOf(s: Snapshot, file: string): (all: Option<PositionHits>)
    ensures Overlaid(all, HitsOfFile(s.positions, file), HitsOfFile(s.implicitPositions, file))
  {
    var exec, implicit := HitsOfFile(s.positions, file), HitsOfFile(s.implicitPositions, file);
    if |exec| == 0 && |implicit| == 0 then None else Some(implicit + exec)
  }

  /** Executable positions win a collision; without one, both kinds keep their hits and nothing is added. */
  lemma AllPositionsComplete(s: Snapshot, file: string, key: string)
    ensures var p := Position(file, key);
            match AllPositionsOf(s, file)
            case None => !Known(s.positions, p) && !Known(s.implicitPositions, p)
            case Some(all) =>
              && (key in all <==> Known(s.positions, p) || Known(s.implicitPositions, p))
              && (Known(s.positions, p) ==> all[key] == HitsAt(s.positions, p))
              && (Known(s.implicitPositions, p) && !Known(s.positions, p) ==>
                    all[key] == HitsAt(s.implicitPositions, p))
  {
  }

  /** `countHits`, over files and keys in any order. */
  method CountHits(byFile: ByFile) returns (covered: nat, total: nat)
    ensures covered == Covered(byFile) && total == Total(byFile)
  {
    hide HitIn;
    covered, total := 0, 0;
    ghost var done: set<Position> := {};
    AllHitIn(byFile);
    var files := byFile.Keys;
    while files != {}
      invariant files <= byFile.Keys
      invariant done == set p | p in Entries(byFile) && p.file !in files
      invariant total == |done| && covered == |HitIn(byFile, done)|
      decreases |files|
    {
      var file :| file in files;
      files := files - {file};
      var keys := byFile[file].Keys;
      while keys != {}
        invariant keys <= byFile[file].Keys
        invariant done == set p | p in Entries(byFile) && p.file !in files && (p.file == file ==> p.key !in keys)
        invariant total == |done| && covered == |HitIn(byFile, done)|
        decreases |keys|
      {
        var key :| key in keys;
        keys := keys - {key};
        total := total + 1;
        ghost var p := Position(file, key);
        OneMoreHit(byFile, done, p);
        if byFile[file][key] > 0 {
          covered := covered + 1;
        }
        done := done + {p};
      }
    }
    assert done == Entries(byFile);
  }

  ghost function HitIn(m: ByFile, ps: set<Position>): set<Position> {
    set p | p in ps && HitsAt(m, p) > 0
  }

  lemma AllHitIn(m: ByFile)
    ensures HitIn(m, {}) == {} && HitIn(m, Entries(m)) == CoveredEntries(m)
  {
  }

  lemma OneMoreHit(m: ByFile, done: set<Position>, p: Position)
    requires p !in done
    ensures |done + {p}| == |done| + 1
    ensures |HitIn(m, done + {p})| == |HitIn(m, done)| + (if HitsAt(m, p) > 0 then 1 else 0)
  {
    if HitsAt(m, p) > 0 {
      assert HitIn(m, done + {p}) == HitIn(m, done) + {p};
    } else {
      assert HitIn(m, done + {p}) == HitIn(m, done);
    }
  }

  // ----- merging -----

  /** `dst` with the hits of the given keys of `src` added. */
  ghost function PartlySummed(dst: PositionHits, src: PositionHits, done: set<string>): PositionHits
    requires done <= src.Keys
  {
    map key | key in dst.Keys + done ::
      (if key in dst then dst[key] else 0) + (if key in done then src[key] else 0)
  }

  /** The inner loop of `mergeInto`: adds one file's hits, keys in any order. */
  method MergeFile(dst: PositionHits, src: PositionHits) returns (sum: PositionHits)
    ensures sum == SummedHits(dst, src)
  {
    hide PartlySummed, SummedHits;
    sum := dst;
    var keys := src.Keys;
    ghost var done: set<string> := {};
    KeysMerged(dst, src);
    while keys != {}
      invariant keys <= src.Keys && done == src.Keys - keys
      invariant sum == PartlySummed(dst, src, done)
      decreases |keys|
    {
      var key :| key in keys;
      keys := keys - {key};
      KeyStep(dst, src, done, key);
      done := done + {key};
      sum := sum[key := (if key in sum then sum[key] else 0) + src[key]];
    }
    assert done == src.Keys;
  }

  lemma KeysMerged(dst: PositionHits, src: PositionHits)
    ensures PartlySummed(dst, src, {}) == dst && PartlySummed(dst, src, src.Keys) == SummedHits(dst, src)
  {
  }

  lemma KeyStep(dst: PositionHits, src: PositionHits, done: set<string>, key: string)
    requires done <= src.Keys && key in src && key !in done
    ensures var sum := PartlySummed(dst, src, done);
            PartlySummed(dst, src, done + {key}) == sum[key := (if key in sum then sum[key] else 0) + src[key]]
  {
  }

  ghost function PartlyMerged(dst: ByFile, src: ByFile, done: set<string>): ByFile
    requires done <= src.Keys
  {
    map file | file in dst.Keys + done ::
      if file in done then SummedHits(HitsOfFile(dst, file), src[file]) else dst[file]
  }

  lemma FileStep(dst: ByFile, src: ByFile, done: set<string>, file: string)
    requires done <= src.Keys && file in src && file !in done
    ensures var sum := PartlyMerged(dst, src, done);
            && HitsOfFile(sum, file) == HitsOfFile(dst, file)
            && PartlyMerged(dst, src, done + {file}) == sum[file := SummedHits(HitsOfFile(dst, file), src[file])]
  {
  }

  lemma NothingAdded(hits: PositionHits)
    ensures SummedHits(hits, map[]) == hits
  {
  }

  lemma FilesMerged(dst: ByFile, src: ByFile)
    ensures PartlyMerged(dst, src, {}) == dst && PartlyMerged(dst, src, src.Keys) == Summed(dst, src)
  {
    hide SummedHits;
    var sum := PartlyMerged(dst, src, src.Keys);
    forall file | file in sum ensures sum[file] == SummedHits(HitsOfFile(dst, file), HitsOfFile(src, file)) {
      if file !in src { NothingAdded(dst[file]); }
    }
  }

  /** `mergeInto`: files in any order. */
  method MergeInto(dst: ByFile, src: ByFile) returns (sum: ByFile)
    ensures sum == Summed(dst, src)
  {
    hide PartlyMerged, SummedHits, Summed;
    sum := dst;
    var files := src.Keys;
    ghost var done: set<string> := {};
    FilesMerged(dst, src);
    while files != {}
      invariant files <= src.Keys && done == src.Keys - files
      invariant sum == PartlyMerged(dst, src, done)
      decreases |files|
    {
      var file :| file in files;
      files := files - {file};
      FileStep(dst, src, done, file);
      done := done + {file};
      var into := if file in sum then sum else sum[file := map[]];
      var hits := MergeFile(into[file], src[file]);
      sum := into[file := hits];
    }
    assert done == src.Keys;
  }

  /** What the non-nil inputs from index `i` on hold. */
  function Inputs(coverages: seq<Coverage?>, i: nat): seq<Snapshot>
    requires i <= |coverages|
    reads set c | c in coverages && c != null
    decreases |coverages| - i
  {
    if i == |coverages| then []
    else if coverages[i] == null then Inputs(coverages, i + 1)
    else [coverages[i].Value()] + Inputs(coverages, i + 1)
  }

  /** The first root recorded, from index `i` on. */
  function FirstRoot(coverages: seq<Coverage?>, i: nat): string
    requires i <= |coverages|
    reads set c | c in coverages && c != null
    decreases |coverages| - i
  {
    if i == |coverages| then ""
    else if coverages[i] != null && coverages[i].root != "" then coverages[i].root
    else FirstRoot(coverages, i + 1)
  }

  /** `Merge`: refuses the first input of another version, otherwise a new object with all hits added up. */
  method Merge(coverages: seq<Coverage?>, now: int) returns (r: Result<Coverage, MergeError>)
    ensures match r
            case Ok(c) =>
              && fresh(c) && c.version == SCHEMA_VERSION && c.timestamp == now && c.root == FirstRoot(coverages, 0)
              && (forall k :: 0 <= k < |coverages| && coverages[k] != null ==> coverages[k].version == SCHEMA_VERSION)
              && c.Value() == MergedAll(Snapshot(map[], map[]), Inputs(coverages, 0))
            case Err(e) =>
              && 1 <= e.input <= |coverages|
              && coverages[e.input - 1] != null && coverages[e.input - 1].version != SCHEMA_VERSION
              && forall k :: 0 <= k < e.input - 1 && coverages[k] != null ==> coverages[k].version == SCHEMA_VERSION
  {
    hide MergedSnapshot, Summed;
    var result := new Coverage(now);
    var i := 0;
    while i < |coverages|
      invariant 0 <= i <= |coverages| && fresh(result)
      invariant result.version == SCHEMA_VERSION && result.timestamp == now
      invariant forall k :: 0 <= k < i && coverages[k] != null ==> coverages[k].version == SCHEMA_VERSION
      invariant (if result.root == "" then FirstRoot(coverages, i) else result.root) == FirstRoot(coverages, 0)
      invariant MergedAll(result.Value(), Inputs(coverages, i))
                == MergedAll(Snapshot(map[], map[]), Inputs(coverages, 0))
    {
      if coverages[i] != null {
        if coverages[i].version != SCHEMA_VERSION {
          return Err(BadVersion(i + 1));
        }
        InputStep(result.Value(), coverages, i);
        MergeOne(result, coverages[i]);
      }
      i := i + 1;
    }
    return Ok(result);
  }

  lemma InputStep(acc: Snapshot, coverages: seq<Coverage?>, i: nat)
    requires i < |coverages| && coverages[i] != null
    ensures MergedAll(acc, Inputs(coverages, i))
            == MergedAll(MergedSnapshot(acc, coverages[i].Value()), Inputs(coverages, i + 1))
  {
    assert Inputs(coverages, i)[1..] == Inputs(coverages, i + 1);
  }

  /** The body of `Merge`'s loop for an input of the right version. */
  method MergeOne(result: Coverage, c: Coverage)
    requires c != result
    modifies result
    ensures result.version == old(result.version) && result.timestamp == old(result.timestamp)
    ensures result.root == if old(result.root) == "" then c.root else old(result.root)
    ensures result.Value() == MergedSnapshot(old(result.Value()), c.Value())
  {
    if result.root == "" {
      result.root := c.root;
    }
    var positions := MergeInto(result.positions, c.positions);
    var implicitPositions := MergeInto(result.implicitPositions, c.implicitPositions);
    result.positions, result.implicitPositions := positions, implicitPositions;
  }
}
