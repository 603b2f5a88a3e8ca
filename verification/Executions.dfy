/** The chain from the texts of a source tree to the highlighted source: instrumented functions are loaded and run,
    their signals delivered by the server, collected, and drawn. */
module Executions {
  import opened Basics
  import opened Decimal
  import opened Segmentation
  import opened Tokens
  import opened Parser
  import opened SignalCodec
  import opened Instrumenter
  import opened InstrumenterTheorems
  import opened Plpgsql
  import opened Firing
  import opened Staleness
  import opened Ranges
  import opened EndToEnd
  import opened Collector
  import opened Counting
  import opened Payloads
  import opened Loading
  import opened Quoting
  import opened Relexing
  import E = Meaning

  // ----- many runs of the functions of many files -----

  datatype SourceFile = SourceFile(path: string, sql: string, stmts: seq<Statement>)

  /** A parsed file whose function bodies are where the parser says. */
  ghost predicate Parsed(lex: Lexer, f: SourceFile) {
    Instrumentable(lex, f.stmts) && AllInPlace(f.stmts) && Laid(f.sql, f.stmts) && |f.sql| <= MAX_INT
  }

  /** What the instrumenter makes of files with different paths; the channel has no quote. */
  ghost predicate InstrumentedTree(lex: Lexer, files: seq<SourceFile>, channel: string, results: seq<InstrumentedSQL>) {
    && |results| == |files| && '\'' !in channel
    && (forall k :: 0 <= k < |files| ==>
          Parsed(lex, files[k]) && results[k].locations == FilePoints(lex, files[k].stmts, 0, files[k].path, channel))
    && (forall j, k :: 0 <= j < k < |files| ==> files[j].path != files[k].path)
  }

  /** A server: what its statements do, how it parses, and the lexer both it and the instrumenter use. */
  datatype Server<!S> = Server(world: E.World<S>, lex: Lexer, parse: Grammar)

  /** One run of a PL/pgSQL function of the tree: where it is, how it is written, and how it starts. */
  datatype Call<S> = Call(file: nat, stmt: nat, delim: string, render: Render, body: Body, fuel: nat, start: E.State<S>)

  predicate InTree(files: seq<SourceFile>, f: nat, k: nat) {
    f < |files| && k < |files[f].stmts|
  }

  ghost predicate IsCall<S>(server: Server<S>, files: seq<SourceFile>, channel: string, c: Call<S>) {
    && InTree(files, c.file, c.stmt)
    && Loadable(server.lex, server.parse, c.delim, c.render, files[c.file].stmts[c.stmt], files[c.file].path, channel,
                c.body)
  }

  ghost predicate AllCalls<S>(server: Server<S>, files: seq<SourceFile>, channel: string, calls: seq<Call<S>>) {
    forall k :: 0 <= k < |calls| ==> IsCall(server, files, channel, calls[k])
  }

  function ContextIn(files: seq<SourceFile>, channel: string, f: nat, k: nat): Context
    requires InTree(files, f, k)
  {
    ContextOf(files[f].stmts[k], files[f].path, false, channel)
  }

  /** The run of the function that the server loads from the instrumented statement. */
  ghost function RunOf<S>(server: Server<S>, files: seq<SourceFile>, channel: string, c: Call<S>): Option<E.Run<S>>
    requires IsCall(server, files, channel, c)
  {
    var stmt := files[c.file].stmts[c.stmt];
    var text := StatementText(server.lex, stmt, files[c.file].path, channel);
    RunText(server.world, server.lex, server.parse, c.delim, text, stmt.bodyStart, c.fuel, c.start)
  }

  /** What it sends. */
  ghost function SentBy<S>(server: Server<S>, files: seq<SourceFile>, channel: string, c: Call<S>): Signals
    requires IsCall(server, files, channel, c)
  {
    match RunOf(server, files, channel, c)
    case None => []
    case Some(r) =>
      PayloadsOf(ContextIn(files, channel, c.file, c.stmt), server.lex(files[c.file].stmts[c.stmt].body), r.trace)
  }

  /** The server runs the instrumented program. */
  lemma CallRuns<S>(server: Server<S>, files: seq<SourceFile>, channel: string, c: Call<S>)
    requires IsCall(server, files, channel, c)
    ensures IsProgram(server.lex, files[c.file].stmts[c.stmt], c.body) && SourceBody(c.body)
    ensures WellLexed(files[c.file].stmts[c.stmt].body, server.lex(files[c.file].stmts[c.stmt].body))
    ensures RunOf(server, files, channel, c)
            == Some(E.ExecBlock(server.world, Inside(InstrumentedBody(c.body)), c.fuel, c.start))
    ensures SentBy(server, files, channel, c)
            == RunSignals(server.world, c.body, c.fuel, c.start, ContextIn(files, channel, c.file, c.stmt),
                          server.lex(files[c.file].stmts[c.stmt].body))
  {
    var stmt := files[c.file].stmts[c.stmt];
    InstrumentedStatementLoads(server.lex, server.parse, c.delim, c.render, stmt, files[c.file].path, channel, c.body);
  }

  /** The signals of all runs. */
  ghost function SentByAll<S>(server: Server<S>, files: seq<SourceFile>, channel: string, calls: seq<Call<S>>): Signals
    requires AllCalls(server, files, channel, calls)
  {
    if calls == [] then []
    else SentBy(server, files, channel, calls[0]) + SentByAll(server, files, channel, calls[1..])
  }

  /** How often a segment of statement `k` of file `f` was completed, or its terminal reached, in all runs. */
  ghost function Completions<S>(server: Server<S>, files: seq<SourceFile>, channel: string, calls: seq<Call<S>>,
                                f: nat, k: nat, seg: Segment): nat
    requires AllCalls(server, files, channel, calls)
  {
    if calls == [] then 0
    else
      var c := calls[0];
      (if c.file == f && c.stmt == k
       then TimesCompleted(FiredBody(server.world, c.body, c.fuel, c.start).trace, seg) else 0)
      + Completions(server, files, channel, calls[1..], f, k, seg)
  }

  lemma BodyAudible(lex: Lexer, files: seq<SourceFile>, channel: string, results: seq<InstrumentedSQL>, f: nat, k: nat,
                    b: Body)
    requires InstrumentedTree(lex, files, channel, results) && InTree(files, f, k)
    requires IsProgram(lex, files[f].stmts[k], b)
    ensures SourceBody(b) && Audible(ContextIn(files, channel, f, k), lex(files[f].stmts[k].body))
    ensures var stmt := files[f].stmts[k];
            0 <= stmt.bodyStart && stmt.bodyStart + |stmt.body| <= |stmt.rawSQL|
  {
    var file := files[f];
    assert Parsed(lex, file);
    assert SliceOfSource(file.sql, file.stmts[k]) && BodyInPlace(file.stmts[k]);
  }

  lemma TreeWellPlaced(lex: Lexer, files: seq<SourceFile>, channel: string, results: seq<InstrumentedSQL>)
    requires InstrumentedTree(lex, files, channel, results)
    ensures WellPlaced(AllPoints(results, 0))
  {
    var paths := seq(|files|, k requires 0 <= k < |files| => files[k].path);
    forall k | 0 <= k < |files| ensures InRow(results[k].locations, paths[k], 0, MAX_INT) {
      assert Parsed(lex, files[k]);
      FilePointsInRow(lex, files[k].sql, files[k].stmts, 0, files[k].path, channel, 0);
      RowWidens(results[k].locations, paths[k], 0, |files[k].sql|, 0, MAX_INT);
    }
    FilesWellPlaced(results, paths, 0);
  }

  /** Every segment of a program of the tree is a point. */
  lemma SegmentInTree(lex: Lexer, files: seq<SourceFile>, channel: string, results: seq<InstrumentedSQL>, f: nat,
                      k: nat, b: Body, seg: Segment)
    requires InstrumentedTree(lex, files, channel, results) && InTree(files, f, k)
    requires IsProgram(lex, files[f].stmts[k], b) && seg in SegmentsOfArms(Annotated(b))
    ensures var toks := lex(files[f].stmts[k].body);
            Fits(toks, seg) && PointOf(ContextIn(files, channel, f, k), toks, seg) in AllPoints(results, 0)
  {
    hide IsProgram, FilePoints;
    assert Parsed(lex, files[f]);
    SegmentIsPoint(lex, files[f].stmts, k, files[f].path, channel, b, seg);
    PointOfFileIn(results, 0, f, PointOf(ContextIn(files, channel, f, k), lex(files[f].stmts[k].body), seg));
  }

  lemma NamesPoint(points: seq<CoveragePoint>, ctx: Context, toks: seq<Token>, seg: Segment)
    requires WellLexed(ctx.body, toks) && Fits(toks, seg) && PointOf(ctx, toks, seg) in points
    ensures IsPointID(points, PayloadOf(ctx, toks, seg))
  {
    var j :| 0 <= j < |points| && points[j] == PointOf(ctx, toks, seg);
    assert points[j].signalID == PayloadOf(ctx, toks, seg);
  }

  /** What a run sends is for points of the tree. */
  lemma SentForTree<S(!new)>(server: Server<S>, files: seq<SourceFile>, channel: string, results: seq<InstrumentedSQL>,
                             c: Call<S>)
    requires InstrumentedTree(server.lex, files, channel, results) && IsCall(server, files, channel, c)
    ensures SentFor(AllPoints(results, 0), SentBy(server, files, channel, c))
  {
    CallRuns(server, files, channel, c);
    hide InstrumentedTree, AllPoints, IsProgram, IsCall, SentBy, PayloadOf, WellLexed, E.ExecBlock, PayloadsOf;
    var points, ids := AllPoints(results, 0), SentBy(server, files, channel, c);
    var ctx, toks := ContextIn(files, channel, c.file, c.stmt), server.lex(files[c.file].stmts[c.stmt].body);
    BodyAudible(server.lex, files, channel, results, c.file, c.stmt, c.body);
    forall id | id in ids ensures IsPointID(points, id) {
      var trace := E.ExecBlock(server.world, Inside(InstrumentedBody(c.body)), c.fuel, c.start).trace;
      PayloadIsSignal(ctx, toks, trace, id);
      var seg :| Fits(toks, seg) && E.Notified(seg) in trace && id == PayloadOf(ctx, toks, seg);
      SignalsOfProgram(server.world, c.body, c.fuel, c.start, seg);
      SegmentInTree(server.lex, files, channel, results, c.file, c.stmt, c.body, seg);
      NamesPoint(points, ctx, toks, seg);
    }
  }

  /** Segments of different functions have different IDs. */
  lemma ForeignPayload(lex: Lexer, files: seq<SourceFile>, channel: string, results: seq<InstrumentedSQL>,
                       f: nat, k: nat, b: Body, seg: Segment, f': nat, k': nat, b': Body, seg': Segment)
    requires InstrumentedTree(lex, files, channel, results)
    requires InTree(files, f, k) && IsProgram(lex, files[f].stmts[k], b)
    requires InTree(files, f', k') && IsProgram(lex, files[f'].stmts[k'], b')
    requires Fits(lex(files[f].stmts[k].body), seg) && Fits(lex(files[f'].stmts[k'].body), seg')
    requires PayloadOf(ContextIn(files, channel, f, k), lex(files[f].stmts[k].body), seg)
             == PayloadOf(ContextIn(files, channel, f', k'), lex(files[f'].stmts[k'].body), seg')
    ensures f == f' && k == k'
  {
    BodyAudible(lex, files, channel, results, f, k, b);
    BodyAudible(lex, files, channel, results, f', k', b');
    hide IsProgram, WellLexed, Audible, Instrumentable;
    var p := PointWithin(lex, files[f], k, channel, seg);
    var q := PointWithin(lex, files[f'], k', channel, seg');
    SignalIDInjective(p.file, p.startPos, p.length, q.file, q.startPos, q.length);
    assert f == f';
    assert Laid(files[f].sql, files[f].stmts);
  }

  /** The point of a segment lies inside its statement. */
  lemma PointWithin(lex: Lexer, file: SourceFile, k: nat, channel: string, seg: Segment) returns (p: CoveragePoint)
    requires k < |file.stmts| && Audible(ContextOf(file.stmts[k], file.path, false, channel), lex(file.stmts[k].body))
    requires Fits(lex(file.stmts[k].body), seg)
    requires var stmt := file.stmts[k]; 0 <= stmt.bodyStart && stmt.bodyStart + |stmt.body| <= |stmt.rawSQL|
    ensures p == PointOf(ContextOf(file.stmts[k], file.path, false, channel), lex(file.stmts[k].body), seg)
    ensures p.signalID == FormatSignalID(p.file, p.startPos, p.length) && p.file == file.path
    ensures var stmt := file.stmts[k]; stmt.startPos <= p.startPos < stmt.startPos + |stmt.rawSQL|
    ensures 0 <= p.length <= MAX_INT && p.startPos <= MAX_INT
  {
    var ctx, toks := ContextOf(file.stmts[k], file.path, false, channel), lex(file.stmts[k].body);
    p := PointOf(ctx, toks, seg);
    OffsetsOrdered(ctx.body, toks, seg.first, seg.end);
  }

  /** In all runs together, as many signals carry a segment's ID as the segment was completed. */
  lemma {:induction false} SentCount<S(!new)>(server: Server<S>, files: seq<SourceFile>, channel: string,
                                              results: seq<InstrumentedSQL>, calls: seq<Call<S>>, f: nat, k: nat,
                                              b: Body, seg: Segment)
    requires InstrumentedTree(server.lex, files, channel, results) && AllCalls(server, files, channel, calls)
    requires InTree(files, f, k) && IsProgram(server.lex, files[f].stmts[k], b)
    requires Fits(server.lex(files[f].stmts[k].body), seg)
    ensures WellLexed(files[f].stmts[k].body, server.lex(files[f].stmts[k].body))
    ensures var id := PayloadOf(ContextIn(files, channel, f, k), server.lex(files[f].stmts[k].body), seg);
            multiset(SentByAll(server, files, channel, calls))[id]
            == Completions(server, files, channel, calls, f, k, seg)
    decreases |calls|
  {
    BodyAudible(server.lex, files, channel, results, f, k, b);
    if calls != [] {
      hide InstrumentedTree, IsProgram, WellLexed, PayloadOf, TimesCompleted, FiredBody, SentBy, IsCall, ContextIn,
           Audible, SourceBody, LexesSegments;
      var c, rest := calls[0], calls[1..];
      SentCount(server, files, channel, results, rest, f, k, b, seg);
      CallCount(server, files, channel, results, c, f, k, b, seg);
      OneMoreCall(server, files, channel, calls, f, k, seg,
                  PayloadOf(ContextIn(files, channel, f, k), server.lex(files[f].stmts[k].body), seg));
    }
  }

  lemma OneMoreCall<S(!new)>(server: Server<S>, files: seq<SourceFile>, channel: string, calls: seq<Call<S>>, f: nat,
                             k: nat, seg: Segment, id: string)
    requires calls != [] && AllCalls(server, files, channel, calls) && SourceBody(calls[0].body)
    requires var c := calls[0];
             multiset(SentBy(server, files, channel, c))[id]
             == if c.file == f && c.stmt == k
                then TimesCompleted(FiredBody(server.world, c.body, c.fuel, c.start).trace, seg) else 0
    requires multiset(SentByAll(server, files, channel, calls[1..]))[id]
             == Completions(server, files, channel, calls[1..], f, k, seg)
    ensures multiset(SentByAll(server, files, channel, calls))[id]
            == Completions(server, files, channel, calls, f, k, seg)
  {
    hide TimesCompleted, FiredBody, SentBy, IsCall, SourceBody;
    CountConcat(SentBy(server, files, channel, calls[0]), SentByAll(server, files, channel, calls[1..]), id);
  }

  lemma CallCount<S(!new)>(server: Server<S>, files: seq<SourceFile>, channel: string, results: seq<InstrumentedSQL>,
                           c: Call<S>, f: nat, k: nat, b: Body, seg: Segment)
    requires InstrumentedTree(server.lex, files, channel, results) && IsCall(server, files, channel, c)
    requires InTree(files, f, k) && IsProgram(server.lex, files[f].stmts[k], b)
    requires Fits(server.lex(files[f].stmts[k].body), seg)
    requires WellLexed(files[f].stmts[k].body, server.lex(files[f].stmts[k].body))
    ensures SourceBody(c.body)
    ensures var id := PayloadOf(ContextIn(files, channel, f, k), server.lex(files[f].stmts[k].body), seg);
            multiset(SentBy(server, files, channel, c))[id]
            == if c.file == f && c.stmt == k
               then TimesCompleted(FiredBody(server.world, c.body, c.fuel, c.start).trace, seg) else 0
  {
    CallRuns(server, files, channel, c);
    BodyAudible(server.lex, files, channel, results, c.file, c.stmt, c.body);
    hide InstrumentedTree, WellLexed, PayloadOf, TimesCompleted, FiredBody, PayloadsOf, E.ExecBlock, IsProgram,
         IsCall, SentBy;
    var ctx, toks := ContextIn(files, channel, c.file, c.stmt), server.lex(files[c.file].stmts[c.stmt].body);
    if c.file == f && c.stmt == k {
      RunSignalCount(server.world, c.body, c.fuel, c.start, ctx, toks, seg);
    } else {
      var id := PayloadOf(ContextIn(files, channel, f, k), server.lex(files[f].stmts[k].body), seg);
      var trace := E.ExecBlock(server.world, Inside(InstrumentedBody(c.body)), c.fuel, c.start).trace;
      if id in PayloadsOf(ctx, toks, trace) {
        PayloadIsSignal(ctx, toks, trace, id);
        var seg' :| Fits(toks, seg') && id == PayloadOf(ctx, toks, seg');
        ForeignPayload(server.lex, files, channel, results, f, k, b, seg, c.file, c.stmt, c.body, seg');
      }
    }
  }

  lemma {:induction false} AllSentFor<S(!new)>(server: Server<S>, files: seq<SourceFile>, channel: string,
                                               results: seq<InstrumentedSQL>, calls: seq<Call<S>>)
    requires InstrumentedTree(server.lex, files, channel, results) && AllCalls(server, files, channel, calls)
    ensures SentFor(AllPoints(results, 0), SentByAll(server, files, channel, calls))
    decreases |calls|
  {
    if calls != [] {
      hide InstrumentedTree, IsPointID, SentBy, IsCall, AllPoints;
      SentForTree(server, files, channel, results, calls[0]);
      AllSentFor(server, files, channel, results, calls[1..]);
    }
  }

  ghost predicate NoneStale<S>(u: Uses, calls: seq<Call<S>>) {
    forall k :: 0 <= k < |calls| ==> SourceBody(calls[k].body) && !BodyStale(u, calls[k].body)
  }

  /** The same in the original runs. */
  ghost function OriginalCompletions<S>(server: Server<S>, files: seq<SourceFile>, channel: string,
                                        calls: seq<Call<S>>, f: nat, k: nat, seg: Segment): nat
    requires AllCalls(server, files, channel, calls)
  {
    if calls == [] then 0
    else
      var c := calls[0];
      (if c.file == f && c.stmt == k
       then TimesCompleted(E.ExecBlock(server.world, Annotated(c.body), c.fuel, c.start).trace, seg) else 0)
      + OriginalCompletions(server, files, channel, calls[1..], f, k, seg)
  }

  /** If none of the functions is stale, the instrumented runs complete a segment as often as the original ones. */
  lemma {:induction false} CompletedAsOriginal<S(!new)>(server: Server<S>, u: Uses, files: seq<SourceFile>,
                                                        channel: string, calls: seq<Call<S>>, f: nat, k: nat,
                                                        seg: Segment)
    requires AllCalls(server, files, channel, calls) && Respects(server.world, u) && NoneStale(u, calls)
    ensures Completions(server, files, channel, calls, f, k, seg)
            == OriginalCompletions(server, files, channel, calls, f, k, seg)
    decreases |calls|
  {
    if calls != [] {
      hide IsCall, Respects, BodyStale, SourceBody, TimesCompleted, FiredBody, Annotated;
      SameCompletions(server.world, u, calls[0].body, calls[0].fuel, calls[0].start, seg);
      CompletedAsOriginal(server, u, files, channel, calls[1..], f, k, seg);
    }
  }

  lemma SameCompletions<S(!new)>(w: E.World<S>, u: Uses, b: Body, fuel: nat, st: E.State<S>, seg: Segment)
    requires SourceBody(b) && Respects(w, u) && !BodyStale(u, b)
    ensures TimesCompleted(FiredBody(w, b, fuel, st).trace, seg)
            == TimesCompleted(E.ExecBlock(w, Annotated(b), fuel, st).trace, seg)
  {
    hide Respects, BodyStale, AnnotateArms, InstrumentArms, FiredBlock, E.ExecBlock, E.TraceWithin, TimesCompleted;
    var a := Annotated(b);
    var segs := set s | s in SegmentsOfArms(a);
    InsideBody(b);
    E.AnnotatedArmsWithin(w, Inside(b), |b.preamble| + 1, Fresh, segs);
    BlockFires(w, a, fuel, st, segs);
    BlockEchoes(w, a, fuel, st);
    SignalsAre(FiredBlock(w, a, fuel, st).trace, segs, seg);
    BodyMeaningPreserved(w, u, b, fuel, st);
    E.BlockTrace(w, a, fuel, st, segs);
    SignalsAre(E.ExecBlock(w, a, fuel, st).trace, segs, seg);
  }

  /** A point whose segment no body of the statement completes - EXIT, CONTINUE - stays without completions. */
  lemma {:induction false} NeverCovered<S(!new)>(server: Server<S>, files: seq<SourceFile>, channel: string,
                                                 calls: seq<Call<S>>, f: nat, k: nat, seg: Segment, segs: set<Segment>)
    requires AllCalls(server, files, channel, calls) && seg !in segs
    requires forall i :: 0 <= i < |calls| && calls[i].file == f && calls[i].stmt == k ==>
               SourceBody(calls[i].body) && E.ArmsWithin(server.world, Annotated(calls[i].body), segs)
    ensures Completions(server, files, channel, calls, f, k, seg) == 0
    decreases |calls|
  {
    if calls != [] {
      hide IsCall, SourceBody, TimesCompleted, FiredBody, Annotated, E.ArmsWithin;
      var c := calls[0];
      if c.file == f && c.stmt == k {
        NeverCompleted(server.world, c.body, c.fuel, c.start, segs, seg);
      }
      NeverCovered(server, files, channel, calls[1..], f, k, seg, segs);
    }
  }

  // ----- delivery -----

  /** Of what was sent, in any number of transactions, `kept` is what was not rolled back. */
  predicate KeptOf(sent: Signals, kept: Signals) {
    multiset(kept) <= multiset(sent)
  }

  /** What arrives: no more copies of a signal than were kept, as equal notifications of one transaction arrive as one;
      and at least one. */
  predicate Delivered(kept: Signals, got: Signals) {
    multiset(got) <= multiset(kept) && forall id :: id in kept ==> id in got
  }

  lemma DeliveryBounds(sent: Signals, kept: Signals, got: Signals, id: string)
    requires KeptOf(sent, kept) && Delivered(kept, got)
    ensures var n, m, v := multiset(sent)[id], multiset(kept)[id], multiset(got)[id];
            v <= m <= n && (v > 0 <==> m > 0)
    ensures id in kept <==> multiset(kept)[id] > 0
  {
    if id in kept { assert id in got; }
  }

  lemma StillSentFor(points: seq<CoveragePoint>, sent: Signals, got: Signals)
    requires SentFor(points, sent) && multiset(got) <= multiset(sent)
    ensures SentFor(points, got)
  {
    forall id | id in got ensures IsPointID(points, id) {
      assert id in multiset(got) && id in multiset(sent);
      assert id in sent;
    }
  }

  /** Load instrumented functions of the tree, run them any number of times, and report. A byte of a segment is
      highlighted, with a hit count that never exceeds the number of times the segment was completed; the count is
      positive exactly if a signal of the segment was not rolled back - so if nothing was, exactly if the segment was
      completed; and it is that number if the server delivers every signal. `runs` is how the collector gets what
      arrives. */
  lemma HighlightIsExecutions<S(!new)>(server: Server<S>, files: seq<SourceFile>, channel: string,
                                       results: seq<InstrumentedSQL>, calls: seq<Call<S>>, kept: Signals,
                                       runs: seq<Signals>, f: nat, k: nat, b: Body, seg: Segment, pos: nat,
                                       paint: Option<int>)
    requires InstrumentedTree(server.lex, files, channel, results) && AllCalls(server, files, channel, calls)
    requires KeptOf(SentByAll(server, files, channel, calls), kept) && Delivered(kept, AllSignals(runs))
    requires InTree(files, f, k) && IsProgram(server.lex, files[f].stmts[k], b)
    requires seg in SegmentsOfArms(Annotated(b))
    ensures WellLexed(files[f].stmts[k].body, server.lex(files[f].stmts[k].body))
    ensures Fits(server.lex(files[f].stmts[k].body), seg) && AllValid(AllSignals(runs))
    ensures var point := PointOf(ContextIn(files, channel, f, k), server.lex(files[f].stmts[k].body), seg);
            var sent := SentByAll(server, files, channel, calls);
            var n := Completions(server, files, channel, calls, f, k, seg);
            var drawn := Drawn(Aggregated(AllPoints(results, 0), AllSignals(runs)), files[f].path);
            PaintMayBe(drawn, pos, paint) && InPoint(point, pos) ==>
              && paint.Some? && 0 <= paint.value <= n
              && (paint.value > 0 <==> point.signalID in kept)
              && (multiset(kept) == multiset(sent) ==> (paint.value > 0 <==> n > 0))
              && (multiset(AllSignals(runs)) == multiset(sent) ==> paint.value == n)
  {
    BodyAudible(server.lex, files, channel, results, f, k, b);
    SegmentInTree(server.lex, files, channel, results, f, k, b, seg);
    TreeWellPlaced(server.lex, files, channel, results);
    hide InstrumentedTree, AllCalls, IsProgram, WellLexed, PaintMayBe, Drawn, Aggregated, InPoint, WellPlaced,
         SentByAll, Completions, IsPointID, AllSignals;
    var sent, got, points := SentByAll(server, files, channel, calls), AllSignals(runs), AllPoints(results, 0);
    var point := PointOf(ContextIn(files, channel, f, k), server.lex(files[f].stmts[k].body), seg);
    AllSentFor(server, files, channel, results, calls);
    SentCount(server, files, channel, results, calls, f, k, b, seg);
    DeliveryBounds(sent, kept, got, point.signalID);
    StillSentFor(points, sent, got);
    SentAreValid(points, got);
    if PaintMayBe(Drawn(Aggregated(points, got), files[f].path), pos, paint) && InPoint(point, pos) {
      PaintOfPoint(points, got, point, pos, paint);
    }
  }

  lemma PaintOfPoint(points: seq<CoveragePoint>, ids: Signals, point: CoveragePoint, pos: nat, paint: Option<int>)
    requires WellPlaced(points) && SentFor(points, ids) && AllValid(ids) && point in points && InPoint(point, pos)
    requires PaintMayBe(Drawn(Aggregated(points, ids), point.file), pos, paint)
    ensures paint == Some(multiset(ids)[point.signalID])
  {
    hide WellPlaced, PaintMayBe, Drawn, Aggregated, InPoint, IsPointID;
    var j :| 0 <= j < |points| && points[j] == point;
    HighlightIsCount(points, ids, point.file, pos, paint);
    assert InPoint(points[j], pos);
  }

  /** There is such a tree and such a call. */
  lemma ChainCanBeMet<S>(world: E.World<S>, path: string, channel: string, start: E.State<S>)
    requires !Occurs("$$", path) && !Occurs("$$", channel) && '\'' !in channel
    ensures SourceBody(SHORT_BODY) && SegmentsOfArms(Annotated(SHORT_BODY)) == [SHORT_SEGMENT]
    ensures var lex := CharacterLexer(ShortLetters());
            && LexesSegments(lex, SHORT.body)
            && var render := Spelled(lex, ContextOf(SHORT, path, false, channel), lex(SHORT.body));
               var files := [SourceFile(path, SHORT.rawSQL, [SHORT])];
               && Instrumentable(lex, [SHORT])
               && InstrumentedTree(lex, files, channel, [InstrumentedSQL(ParsedSQL(None, [SHORT]), "",
                                                                         FilePoints(lex, [SHORT], 0, path, channel))])
               && IsCall(Server(world, lex, TwoPrograms(render, SHORT_BODY)), files, channel,
                         Call(0, 0, "$$", render, SHORT_BODY, 0, start))
  {
    hide Characters, Occurs, Parses, ReadsSignals, Survives, ReadsConstant, SourceBody, WellLexed, FilePoints,
         LexesSegments;
    var lex := CharacterLexer(ShortLetters());
    AssumptionsCanBeMet(path, channel);
    assert LexesSegments(lex, SHORT.body);
    assert SliceOfSource(SHORT.rawSQL, SHORT);
  }
}
