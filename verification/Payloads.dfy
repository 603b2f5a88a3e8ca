/** What the signals of a function body carry when it runs: one payload for each terminal reached and each statement
    completed, the ID of the segment's coverage point. */
module Payloads {
  import opened Basics
  import opened Decimal
  import opened Segmentation
  import opened Tokens
  import opened Parser
  import opened SignalCodec
  import opened Instrumenter
  import opened InstrumenterTheorems
  import opened Plpgsql
  import opened Meaning
  import opened Firing
  import M = Correspondence

  function LexemesOf(toks: seq<Token>): (words: seq<Lexeme>)
    ensures |words| == |toks|
  {
    seq(|toks|, k requires 0 <= k < |toks| => Lexeme(toks[k].kind, toks[k].text))
  }

  lemma SameKinds(toks: seq<Token>)
    ensures KindsOf(LexemesOf(toks)) == Kinds(toks)
  {
  }

  predicate Fits(toks: seq<Token>, seg: Segment) {
    seg.first < seg.end <= |toks|
  }

  // ----- what the server makes of a signal -----

  /** Without white space around it. */
  function Trim(s: string): string
    decreases |s|
  {
    if s != "" && IsSpace(s[0]) then Trim(s[1..])
    else if s != "" && IsSpace(s[|s| - 1]) then Trim(s[..|s| - 1])
    else s
  }

  /** A PL/pgSQL body and its tokens, on a channel whose name has no quote. */
  predicate Audible(ctx: Context, toks: seq<Token>) {
    && WellLexed(ctx.body, toks) && !ctx.sqlMode && '\'' !in ctx.channel
    && 0 <= ctx.base && ctx.base + |ctx.body| <= MAX_INT
  }

  /** What arrives on the channel when the chunk injected for a segment is run. */
  function Heard(ctx: Context, toks: seq<Token>, seg: Segment): seq<string>
    requires WellLexed(ctx.body, toks) && Fits(toks, seg)
  {
    match DecodeExecute(Trim(ChunkOf(ctx, toks, seg, PlaceOf(Kinds(toks), seg, false))))
    case None => []
    case Some(n) => if n.channel == ctx.channel then [n.payload] else []
  }

  /** The ID of a segment's point. */
  function PayloadOf(ctx: Context, toks: seq<Token>, seg: Segment): string
    requires WellLexed(ctx.body, toks) && Fits(toks, seg)
  {
    PointOf(ctx, toks, seg).signalID
  }

  /** Running the injected chunk notifies the channel of exactly the segment's point. */
  lemma HeardIsPayload(ctx: Context, toks: seq<Token>, seg: Segment)
    requires Audible(ctx, toks) && Fits(toks, seg)
    ensures Heard(ctx, toks, seg) == [PayloadOf(ctx, toks, seg)]
  {
    hide DecodeExecute, PlpgsqlSignal, ChunkOf, WellLexed;
    var place := PlaceOf(Kinds(toks), seg, false);
    var chunk, id := ChunkOf(ctx, toks, seg, place), PayloadOf(ctx, toks, seg);
    ChunkCarries(ctx, toks, seg, place);
    SignalIsTrim(ctx.channel, id);
    TrimLine(PlpgsqlSignal(ctx.channel, id));
    ExecuteRoundTrip(ctx.channel, id);
    assert Trim(chunk) == PlpgsqlSignal(ctx.channel, id);
  }

  lemma SignalIsTrim(channel: string, id: string)
    ensures var s := PlpgsqlSignal(channel, id); s != "" && !IsSpace(s[0]) && !IsSpace(s[|s| - 1])
  {
    assert PlpgsqlSignal(channel, id)[0] == 'E';
  }

  lemma TrimLine(s: string)
    requires s != "" && !IsSpace(s[0]) && !IsSpace(s[|s| - 1])
    ensures Trim(s) == s && Trim(s + "\n") == s && Trim("\n" + s) == s
  {
    var a, b := s + "\n", "\n" + s;
    assert a[0] == s[0] && a[..|a| - 1] == s;
    assert b[1..] == s;
  }

  /** What arrives in a run, in order. */
  function PayloadsOf<E>(ctx: Context, toks: seq<Token>, trace: seq<Event<E>>): seq<string>
    requires WellLexed(ctx.body, toks)
  {
    if trace == [] then [] else Payload(ctx, toks, trace[0]) + PayloadsOf(ctx, toks, trace[1..])
  }

  function Payload<E>(ctx: Context, toks: seq<Token>, e: Event<E>): seq<string>
    requires WellLexed(ctx.body, toks)
  {
    if e.Notified? && Fits(toks, e.seg) then Heard(ctx, toks, e.seg) else []
  }

  lemma OnePayload<E>(ctx: Context, toks: seq<Token>, e: Event<E>, seg: Segment)
    requires Audible(ctx, toks) && Fits(toks, seg)
    ensures multiset(Payload(ctx, toks, e))[PayloadOf(ctx, toks, seg)] == multiset([e])[Notified(seg)]
  {
    hide WellLexed, PayloadOf, Heard;
    if e.Notified? && Fits(toks, e.seg) {
      HeardIsPayload(ctx, toks, e.seg);
      if PayloadOf(ctx, toks, e.seg) == PayloadOf(ctx, toks, seg) {
        PayloadInjective(ctx, toks, e.seg, seg);
      }
    }
  }

  /** Different segments have different IDs. */
  lemma PayloadInjective(ctx: Context, toks: seq<Token>, a: Segment, b: Segment)
    requires WellLexed(ctx.body, toks) && Fits(toks, a) && Fits(toks, b) && ctx.base + |ctx.body| <= MAX_INT
    requires ctx.base >= 0 && PayloadOf(ctx, toks, a) == PayloadOf(ctx, toks, b)
    ensures a == b
  {
    var n := |toks|;
    OffsetsOrdered(ctx.body, toks, a.first, a.end);
    OffsetsOrdered(ctx.body, toks, b.first, b.end);
    var p, q := PointOf(ctx, toks, a), PointOf(ctx, toks, b);
    SignalIDInjective(ctx.file, p.startPos, p.length, ctx.file, q.startPos, q.length);
    if a.first < b.first { OffsetsOrdered(ctx.body, toks, a.first, b.first); }
    if b.first < a.first { OffsetsOrdered(ctx.body, toks, b.first, a.first); }
    if a.end < b.end { OffsetsOrdered(ctx.body, toks, a.end, b.end); }
    if b.end < a.end { OffsetsOrdered(ctx.body, toks, b.end, a.end); }
  }

  /** As many payloads carry a segment's ID as signals were sent for it. */
  lemma {:induction false} PayloadCount<E>(ctx: Context, toks: seq<Token>, trace: seq<Event<E>>, seg: Segment)
    requires Audible(ctx, toks) && Fits(toks, seg)
    ensures multiset(PayloadsOf(ctx, toks, trace))[PayloadOf(ctx, toks, seg)] == multiset(trace)[Notified(seg)]
    decreases |trace|
  {
    if trace != [] {
      hide WellLexed, PayloadOf, Payload;
      PayloadCount(ctx, toks, trace[1..], seg);
      OnePayload(ctx, toks, trace[0], seg);
      CountHead(trace, Notified(seg));
      CountConcat(Payload(ctx, toks, trace[0]), PayloadsOf(ctx, toks, trace[1..]), PayloadOf(ctx, toks, seg));
    }
  }

  lemma CountConcat<T>(a: seq<T>, b: seq<T>, x: T)
    ensures multiset(a + b)[x] == multiset(a)[x] + multiset(b)[x]
  {
  }

  lemma CountHead<T>(s: seq<T>, x: T)
    requires s != []
    ensures multiset(s)[x] == multiset([s[0]])[x] + multiset(s[1..])[x]
  {
    assert s == [s[0]] + s[1..];
  }

  /** PayloadsOf come from signals of the trace. */
  lemma {:induction false} PayloadIsSignal<E>(ctx: Context, toks: seq<Token>, trace: seq<Event<E>>, id: string)
    requires Audible(ctx, toks) && id in PayloadsOf(ctx, toks, trace)
    ensures exists seg :: Fits(toks, seg) && Notified(seg) in trace && id == PayloadOf(ctx, toks, seg)
    decreases |trace|
  {
    hide WellLexed, PayloadOf, Heard;
    var e, rest := trace[0], trace[1..];
    if id in Payload(ctx, toks, e) {
      HeardIsPayload(ctx, toks, e.seg);
      assert e in trace;
    } else {
      PayloadIsSignal(ctx, toks, rest, id);
      var seg :| Fits(toks, seg) && Notified(seg) in rest && id == PayloadOf(ctx, toks, seg);
      assert Event<E>.Notified(seg) in trace;
    }
  }

  // ----- one run of one function -----

  lemma {:induction false} PlanPoint(ctx: Context, toks: seq<Token>, plan: Plan, seg: Segment)
    requires WellLexed(ctx.body, toks) && PlanFits(plan, |toks|) && seg in M.PlanSegments(plan)
    ensures Fits(toks, seg) && PointOf(ctx, toks, seg) in Points(ctx, toks, plan)
    decreases plan
  {
    if plan.seg != seg {
      PlanPoint(ctx, toks, plan.rest, seg);
    }
  }

  lemma {:induction false} PointInFile(lex: Lexer, stmts: seq<Statement>, n: nat, k: nat, path: string, channel: string,
                                       cp: CoveragePoint)
    requires Instrumentable(lex, stmts) && n <= k < |stmts| && cp in StatementPoints(lex, stmts[k], path, channel)
    ensures cp in FilePoints(lex, stmts, n, path, channel)
    decreases |stmts| - n
  {
    hide StatementPoints;
    if n < k {
      PointInFile(lex, stmts, n + 1, k, path, channel, cp);
    }
  }

  /** A PL/pgSQL function in a source file: its statement, and its body as a structured program. */
  ghost predicate IsProgram(lex: Lexer, stmt: Statement, b: Body) {
    && ModeOf(stmt).PlpgsqlBody? && !Skipped(stmt)
    && LexesSegments(lex, stmt.body)
    && SourceBody(b) && LexemesOf(lex(stmt.body)) == FlattenBody(Plainly, b)
  }

  /** Every segment tied to a statement of the program is a coverage point of the file. */
  lemma SegmentIsPoint(lex: Lexer, stmts: seq<Statement>, k: nat, path: string, channel: string, b: Body, seg: Segment)
    requires Instrumentable(lex, stmts) && k < |stmts| && IsProgram(lex, stmts[k], b)
    requires seg in SegmentsOfArms(Annotated(b))
    ensures var ctx, toks := ContextOf(stmts[k], path, false, channel), lex(stmts[k].body);
            Fits(toks, seg) && PointOf(ctx, toks, seg) in FilePoints(lex, stmts, 0, path, channel)
  {
    var stmt := stmts[k];
    var ctx, toks := ContextOf(stmt, path, false, channel), lex(stmt.body);
    SameKinds(toks);
    M.BodySegments(b);
    var plan := PlanOf(toks, true, false);
    assert plan == BodyPlan(Kinds(toks), true, false);
    PlanPoint(ctx, toks, plan, seg);
    PointInFile(lex, stmts, 0, k, path, channel, PointOf(ctx, toks, seg));
  }

  /** Signals of the instrumented program are for segments tied to its statements. */
  lemma SignalsOfProgram<E(!new)>(w: World<E>, b: Body, fuel: nat, st: State<E>, seg: Segment)
    requires SourceBody(b) && Notified(seg) in ExecBlock(w, Inside(InstrumentedBody(b)), fuel, st).trace
    ensures seg in SegmentsOfArms(Annotated(b))
  {
    hide AnnotateArms, InstrumentArms, FiredBlock, ExecBlock, TraceWithin;
    var a := Annotated(b);
    var segs := set s | s in SegmentsOfArms(a);
    InsideBody(b);
    AnnotatedArmsWithin(w, Inside(b), |b.preamble| + 1, Fresh, segs);
    BlockFires(w, a, fuel, st, segs);
    BlockEchoes(w, a, fuel, st);
    TranslatedWithin(FiredBlock(w, a, fuel, st).trace, segs, seg);
  }

  /** What one run of the program sends. */
  function RunSignals<E>(w: World<E>, b: Body, fuel: nat, st: State<E>, ctx: Context, toks: seq<Token>): seq<string>
    requires SourceBody(b) && WellLexed(ctx.body, toks)
  {
    PayloadsOf(ctx, toks, ExecBlock(w, Inside(InstrumentedBody(b)), fuel, st).trace)
  }

  /** The body's own course once its signals fire. */
  function FiredBody<E>(w: World<E>, b: Body, fuel: nat, st: State<E>): Run<E>
    requires SourceBody(b)
  {
    FiredBlock(w, Annotated(b), fuel, st)
  }

  /** Of every program, on every server: as many signals of the run carry a segment's ID as its terminal was reached or
      its last statement completed. */
  lemma RunSignalCount<E(!new)>(w: World<E>, b: Body, fuel: nat, st: State<E>, ctx: Context, toks: seq<Token>,
                                seg: Segment)
    requires SourceBody(b) && Audible(ctx, toks) && Fits(toks, seg)
    ensures multiset(RunSignals(w, b, fuel, st, ctx, toks))[PayloadOf(ctx, toks, seg)]
            == TimesCompleted(FiredBody(w, b, fuel, st).trace, seg)
  {
    hide WellLexed, PayloadOf, PayloadsOf, ExecBlock, FiredBlock, AnnotateArms, InstrumentArms, TraceWithin,
         TimesCompleted;
    var a := Annotated(b);
    var segs := set s | s in SegmentsOfArms(a);
    InsideBody(b);
    AnnotatedArmsWithin(w, Inside(b), |b.preamble| + 1, Fresh, segs);
    BlockFires(w, a, fuel, st, segs);
    BlockEchoes(w, a, fuel, st);
    SignalsAre(FiredBlock(w, a, fuel, st).trace, segs, seg);
    PayloadCount(ctx, toks, ExecBlock(w, Inside(InstrumentedBody(b)), fuel, st).trace, seg);
  }

  /** A segment whose statement never completes - EXIT, CONTINUE - is a point that no run covers. */
  lemma NeverCompleted<E(!new)>(w: World<E>, b: Body, fuel: nat, st: State<E>, segs: set<Segment>, seg: Segment)
    requires SourceBody(b) && ArmsWithin(w, Annotated(b), segs) && seg !in segs
    ensures TimesCompleted(FiredBody(w, b, fuel, st).trace, seg) == 0
  {
    hide AnnotateArms, FiredBlock, TraceWithin, TimesCompleted;
    BlockFires(w, Annotated(b), fuel, st, segs);
    NoSignalWithin(FiredBody(w, b, fuel, st).trace, segs, seg);
  }
}
