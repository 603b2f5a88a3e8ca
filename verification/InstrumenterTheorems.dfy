/** What the instrumenter promises about text and positions: signals can be erased again, every
    injection is one point's signal, and points are disjoint slices of the source. */
module InstrumenterTheorems {
  import opened Basics
  import opened Splicing
  import opened Segmentation
  import opened Tokens
  import opened Parser
  import opened SignalCodec
  import opened Instrumenter

  // ----- erasure -----

  /** The injections into one body, in the coordinates of the statement's text. */
  function BodyEdits(lex: Lexer, stmt: Statement, filePath: string, skipToBegin: bool, sqlMode: bool,
                     channel: string): Edits<char>
    requires LexesSegments(lex, stmt.body)
  {
    if Skipped(stmt) then NoEdits
    else
      var ctx, toks := ContextOf(stmt, filePath, sqlMode, channel), lex(stmt.body);
      Shift(TextEdits(ctx, toks, PlanOf(toks, skipToBegin, sqlMode)), stmt.bodyStart)
  }

  function StatementEdits(lex: Lexer, stmt: Statement, filePath: string, channel: string): Edits<char>
    requires LexesSegments(lex, stmt.body)
  {
    match ModeOf(stmt)
    case PlpgsqlBody => BodyEdits(lex, stmt, filePath, true, false, channel)
    case SqlBody => BodyEdits(lex, stmt, filePath, false, true, channel)
    case Implicit => NoEdits
  }

  lemma BodyIsSplice(lex: Lexer, stmt: Statement, filePath: string, skipToBegin: bool, sqlMode: bool, channel: string)
    requires LexesSegments(lex, stmt.body) && BodyFits(stmt) && BodyInPlace(stmt)
    ensures var edits := BodyEdits(lex, stmt, filePath, skipToBegin, sqlMode, channel);
            && InOrder(0, edits, |stmt.rawSQL|)
            && BodyText(lex, stmt, filePath, skipToBegin, sqlMode, channel) == Splice(stmt.rawSQL, 0, edits)
  {
    hide WellLexed, Kinds, PlanFrom, PlanOf, PlanFits, TextEdits;
    if !Skipped(stmt) {
      var ctx, toks := ContextOf(stmt, filePath, sqlMode, channel), lex(stmt.body);
      var plan := PlanOf(toks, skipToBegin, sqlMode);
      PlanOrdered(toks, skipToBegin, sqlMode);
      EditsInOrder(ctx, toks, plan, 0, 0);
      InPlaceSplice(stmt.rawSQL, stmt.bodyStart, stmt.body, TextEdits(ctx, toks, plan));
      if PointsOf(ctx, toks, skipToBegin) == [] {
        NoPoints(ctx, toks, plan);
      }
    }
  }

  /** A body without points is not changed. */
  lemma NoPoints(ctx: Context, toks: seq<Token>, plan: Plan)
    requires WellLexed(ctx.body, toks) && PlanFits(plan, |toks|) && Points(ctx, toks, plan) == []
    ensures TextEdits(ctx, toks, plan) == NoEdits
  {
  }

  lemma InPlaceSplice(text: string, start: nat, part: string, edits: Edits<char>)
    requires start + |part| <= |text| && text[start..start + |part|] == part && InOrder(0, edits, |part|)
    ensures InOrder(0, Shift(edits, start), |text|)
    ensures Splice(text, 0, Shift(edits, start)) == text[..start] + Splice(part, 0, edits) + text[start + |part|..]
  {
    var h, t := text[..start], text[start + |part|..];
    assert text == h + part + t;
    SplicePart(h, part, t, edits);
  }

  lemma StatementIsSplice(lex: Lexer, stmt: Statement, filePath: string, channel: string)
    requires LexesSegments(lex, stmt.body) && BodyFits(stmt) && BodyInPlace(stmt)
    ensures var edits := StatementEdits(lex, stmt, filePath, channel);
            && InOrder(0, edits, |stmt.rawSQL|)
            && StatementText(lex, stmt, filePath, channel) == Splice(stmt.rawSQL, 0, edits)
  {
    BodyIsSplice(lex, stmt, filePath, true, false, channel);
    BodyIsSplice(lex, stmt, filePath, false, true, channel);
  }

  /** Deleting the injections from an instrumented statement gives its text back, byte for byte. */
  lemma StatementErasure(lex: Lexer, stmt: Statement, filePath: string, channel: string)
    requires LexesSegments(lex, stmt.body) && BodyFits(stmt) && BodyInPlace(stmt)
    ensures Erase(StatementText(lex, stmt, filePath, channel), 0, StatementEdits(lex, stmt, filePath, channel))
            == stmt.rawSQL
  {
    StatementIsSplice(lex, stmt, filePath, channel);
    EraseSplice(stmt.rawSQL, 0, StatementEdits(lex, stmt, filePath, channel));
  }

  predicate AllInPlace(stmts: seq<Statement>) {
    forall k :: 0 <= k < |stmts| ==> BodyInPlace(stmts[k])
  }

  const SEP := "\n\n"

  function RawTexts(stmts: seq<Statement>, n: nat): seq<string>
    requires n <= |stmts|
    decreases |stmts| - n
  {
    if n == |stmts| then [] else [stmts[n].rawSQL] + RawTexts(stmts, n + 1)
  }

  function FileEdits(lex: Lexer, stmts: seq<Statement>, n: nat, path: string, channel: string): Edits<char>
    requires Instrumentable(lex, stmts) && n <= |stmts|
    decreases |stmts| - n
  {
    if n == |stmts| then NoEdits
    else Append(StatementEdits(lex, stmts[n], path, channel),
                Shift(FileEdits(lex, stmts, n + 1, path, channel), |stmts[n].rawSQL| + |SEP|))
  }

  lemma JoinCons(x: string, rest: seq<string>)
    ensures Join([x] + rest, SEP) == if rest == [] then x else x + SEP + Join(rest, SEP)
  {
    assert ([x] + rest)[1..] == rest;
  }

  lemma {:induction false} FileIsSplice(lex: Lexer, stmts: seq<Statement>, n: nat, path: string, channel: string)
    requires Instrumentable(lex, stmts) && AllInPlace(stmts) && n <= |stmts|
    ensures var edits := FileEdits(lex, stmts, n, path, channel);
            && InOrder(0, edits, |Join(RawTexts(stmts, n), SEP)|)
            && Join(FileTexts(lex, stmts, n, path, channel), SEP) == Splice(Join(RawTexts(stmts, n), SEP), 0, edits)
    decreases |stmts| - n
  {
    if n < |stmts| {
      var raw, rest := stmts[n].rawSQL, RawTexts(stmts, n + 1);
      var edits, later := StatementEdits(lex, stmts[n], path, channel), FileEdits(lex, stmts, n + 1, path, channel);
      var text := StatementText(lex, stmts[n], path, channel);
      StatementIsSplice(lex, stmts[n], path, channel);
      FileIsSplice(lex, stmts, n + 1, path, channel);
      JoinCons(raw, rest);
      JoinCons(text, FileTexts(lex, stmts, n + 1, path, channel));
      if n + 1 < |stmts| {
        SpliceJoined(raw, edits, Join(rest, SEP), later);
      } else {
        AppendNothing(edits);
      }
    }
  }

  lemma SpliceJoined(raw: string, edits: Edits<char>, rest: string, later: Edits<char>)
    requires InOrder(0, edits, |raw|) && InOrder(0, later, |rest|)
    ensures var all := Append(edits, Shift(later, |raw| + |SEP|));
            && InOrder(0, all, |raw + SEP + rest|)
            && Splice(raw + SEP + rest, 0, all) == Splice(raw, 0, edits) + SEP + Splice(rest, 0, later)
  {
    SplicePart([], raw, SEP, edits);
    ShiftZero(edits);
    assert [] + raw + SEP == raw + SEP;
    assert [] + Splice(raw, 0, edits) + SEP == Splice(raw, 0, edits) + SEP;
    SpliceConcat(raw + SEP, rest, 0, edits, later);
  }

  lemma ShiftZero(edits: Edits<char>)
    ensures Shift(edits, 0) == edits
  {
  }

  lemma AppendNothing(edits: Edits<char>)
    ensures Append(edits, NoEdits) == edits
  {
  }

  /** The same for a whole file: the statements' own texts come back, joined as the output joins them. */
  lemma FileErasure(lex: Lexer, stmts: seq<Statement>, path: string, channel: string)
    requires Instrumentable(lex, stmts) && AllInPlace(stmts)
    ensures Erase(Join(FileTexts(lex, stmts, 0, path, channel), SEP), 0, FileEdits(lex, stmts, 0, path, channel))
            == Join(RawTexts(stmts, 0), SEP)
  {
    FileIsSplice(lex, stmts, 0, path, channel);
    EraseSplice(Join(RawTexts(stmts, 0), SEP), 0, FileEdits(lex, stmts, 0, path, channel));
  }

  // ----- every injection is one point's signal -----

  function Chunks(edits: Edits<char>): seq<string> {
    match edits
    case NoEdits => []
    case Insert(_, chunk, rest) => [chunk] + Chunks(rest)
  }

  predicate BlankText(s: string) {
    forall k :: 0 <= k < |s| ==> Blank(s[k])
  }

  /** The injected text is the signal, a line break, and at most indentation. */
  predicate CarriesSignal(chunk: string, channel: string, id: string, sqlMode: bool) {
    if sqlMode then
      var head := SqlSignal(channel, id) + "\n";
      |head| <= |chunk| && chunk[..|head|] == head && BlankText(chunk[|head|..])
    else
      chunk == PlpgsqlSignal(channel, id) + "\n" || chunk == "\n" + PlpgsqlSignal(channel, id)
  }

  lemma {:induction false} BlankRun(content: string, i: nat)
    requires i <= |content|
    ensures forall k :: BlankRunStart(content, i) <= k < i ==> Blank(content[k])
    decreases i
  {
    if i > 0 && Blank(content[i - 1]) {
      BlankRun(content, i - 1);
    }
  }

  lemma ChunkCarries(ctx: Context, toks: seq<Token>, seg: Segment, place: Placement)
    requires WellLexed(ctx.body, toks) && Placed(seg, place, |toks|)
    ensures CarriesSignal(ChunkOf(ctx, toks, seg, place), ctx.channel, PointOf(ctx, toks, seg).signalID, ctx.sqlMode)
  {
    var id := PointOf(ctx, toks, seg).signalID;
    OffsetsOrdered(ctx.body, toks, seg.first, seg.end);
    if ctx.sqlMode {
      BlankRun(ctx.body, toks[seg.first].pos);
      var head, indent := SqlSignal(ctx.channel, id) + "\n", LineIndent(ctx.body, toks[seg.first].pos);
      assert (head + indent)[..|head|] == head && (head + indent)[|head|..] == indent;
    } else if place.Before? {
      OffsetsOrdered(ctx.body, toks, place.index, seg.end);
      TokenStart(ctx.body, toks, place.index, Offset(ctx.body, toks, seg.end));
      var signal := PlpgsqlSignal(ctx.channel, id);
      assert "" + signal + "\n" == signal + "\n";
    } else {
      TokenStart(ctx.body, toks, seg.first, Offset(ctx.body, toks, seg.end));
      assert "" + PlpgsqlSignal(ctx.channel, id) == PlpgsqlSignal(ctx.channel, id);
    }
  }

  lemma TokenStart(body: string, toks: seq<Token>, k: nat, end: nat)
    requires WellLexed(body, toks) && k < |toks| && toks[k].pos < end <= |body|
    ensures IndentOf(body[toks[k].pos..end]) == ""
  {
    var t := toks[k];
    assert TokenFits(body, t);
    assert body[t.pos] == body[t.pos..t.pos + |t.text|][0];
    NoIndentAtToken(body[t.pos..end]);
  }

  lemma {:induction false} EditsCarryPoints(ctx: Context, toks: seq<Token>, plan: Plan, offset: nat)
    requires WellLexed(ctx.body, toks) && PlanFits(plan, |toks|)
    ensures var chunks, points := Chunks(Shift(TextEdits(ctx, toks, plan), offset)), Points(ctx, toks, plan);
            && |chunks| == |points|
            && forall k :: 0 <= k < |chunks| ==>
                 CarriesSignal(chunks[k], ctx.channel, points[k].signalID, ctx.sqlMode)
    decreases plan
  {
    match plan
    case Empty =>
    case Mark(seg, place, rest) =>
      hide WellLexed, ChunkOf, CarriesSignal, EditAt;
      ChunkCarries(ctx, toks, seg, place);
      EditsCarryPoints(ctx, toks, rest, offset);
  }

  /** The injections into a body are the signals of its points, one for one and in order. */
  lemma InjectionsArePoints(lex: Lexer, stmt: Statement, filePath: string, skipToBegin: bool, sqlMode: bool,
                            channel: string)
    requires LexesSegments(lex, stmt.body)
    ensures var chunks := Chunks(BodyEdits(lex, stmt, filePath, skipToBegin, sqlMode, channel));
            var points := BodyPoints(lex, stmt, filePath, skipToBegin, sqlMode, channel);
            && |chunks| == |points|
            && forall k :: 0 <= k < |chunks| ==> CarriesSignal(chunks[k], channel, points[k].signalID, sqlMode)
  {
    if !Skipped(stmt) {
      var toks := lex(stmt.body);
      EditsCarryPoints(ContextOf(stmt, filePath, sqlMode, channel), toks, PlanOf(toks, skipToBegin, sqlMode),
                       stmt.bodyStart);
    }
  }

  // ----- SQL-language functions -----

  /** Every signal stands in front of its own segment. */
  predicate InFront(plan: Plan) {
    match plan
    case Empty => true
    case Mark(seg, place, rest) => place == Before(seg.first) && InFront(rest)
  }

  lemma {:induction false} SqlPlanInFront(ks: seq<Kind>, i: nat, pending: Option<nat>)
    requires Pending(ks, i, pending)
    ensures InFront(PlanFrom(ks, i, pending, true))
    decreases |ks| - i
  {
    if i < |ks| {
      if ks[i].Semicolon? {
        SqlPlanInFront(ks, i + 1, None);
      } else {
        SqlPlanInFront(ks, i + 1, if ks[i].Comment? || pending.Some? then pending else Some(i));
      }
    }
  }

  function LastStatement(plan: Plan): Segment
    requires plan.Mark?
  {
    if plan.rest.Mark? then LastStatement(plan.rest) else plan.seg
  }

  lemma {:induction false} SpliceEndsWithLast(ctx: Context, toks: seq<Token>, plan: Plan, i: nat, from: nat)
    requires WellLexed(ctx.body, toks) && PlanInOrder(i, plan, |toks|) && PlanFits(plan, |toks|)
    requires InFront(plan) && plan.Mark? && from <= Offset(ctx.body, toks, i)
    ensures InOrder(from, TextEdits(ctx, toks, plan), |ctx.body|) && LastStatement(plan).first < |toks|
    ensures var pos := toks[LastStatement(plan).first].pos;
            pos <= |ctx.body| && HasSuffix(Splice(ctx.body, from, TextEdits(ctx, toks, plan)), ctx.body[pos..])
    decreases plan
  {
    EditsInOrder(ctx, toks, plan, i, from);
    var seg, rest := plan.seg, plan.rest;
    var at, next := toks[seg.first].pos, Behind(seg.end, |toks|);
    var chunk, edits := ChunkOf(ctx, toks, seg, plan.place), TextEdits(ctx, toks, rest);
    EditInside(ctx.body, toks, seg, plan.place);
    if rest.Mark? {
      SpliceEndsWithLast(ctx, toks, rest, next, at);
      SuffixBehind(ctx.body[from..at] + chunk, Splice(ctx.body, at, edits),
                   ctx.body[toks[LastStatement(rest).first].pos..]);
    } else {
      SuffixBehind(ctx.body[from..at] + chunk, ctx.body[at..], ctx.body[at..]);
    }
  }

  lemma SuffixBehind(head: string, s: string, suffix: string)
    requires HasSuffix(s, suffix)
    ensures HasSuffix(head + s, suffix)
  {
    assert (head + s)[|head + s| - |suffix|..] == s[|s| - |suffix|..];
  }

  /** The last statement of a SQL-language body, which determines what the function returns, stays the last:
      the instrumented body ends with it, byte for byte, and no signal comes behind it. */
  lemma SqlLastStatementLast(ctx: Context, toks: seq<Token>)
    requires WellLexed(ctx.body, toks) && ctx.sqlMode && PlanOf(toks, false, true).Mark?
    ensures var last := LastStatement(PlanOf(toks, false, true));
            && last.first < |toks| && toks[last.first].pos <= |ctx.body|
            && HasSuffix(InstrumentedText(ctx, toks, false), ctx.body[toks[last.first].pos..])
  {
    var plan := PlanOf(toks, false, true);
    SqlPlanInFront(Kinds(toks), 0, None);
    PlanOrdered(toks, false, true);
    SpliceEndsWithLast(ctx, toks, plan, 0, 0);
  }

  // ----- positions -----

  function PointEnd(p: CoveragePoint): int {
    p.startPos + p.length
  }

  /** Non-empty points of one file inside [lo, hi), in order and disjoint, each with its own ID. */
  predicate InRow(points: seq<CoveragePoint>, file: string, lo: int, hi: int) {
    && (forall k :: 0 <= k < |points| ==>
          var p := points[k];
          && lo <= p.startPos && 0 < p.length && PointEnd(p) <= hi
          && p.file == file && p.signalID == FormatSignalID(file, p.startPos, p.length))
    && (forall j, k :: 0 <= j < k < |points| ==> PointEnd(points[j]) <= points[k].startPos)
  }

  lemma RowsJoin(a: seq<CoveragePoint>, b: seq<CoveragePoint>, file: string, lo: int, mid: int, hi: int)
    requires InRow(a, file, lo, mid) && InRow(b, file, mid, hi) && lo <= mid <= hi
    ensures InRow(a + b, file, lo, hi)
  {
  }

  lemma SegmentInRow(ctx: Context, toks: seq<Token>, seg: Segment, i: nat)
    requires WellLexed(ctx.body, toks) && i <= seg.first < seg.end <= |toks|
    ensures InRow([PointOf(ctx, toks, seg)], ctx.file, ctx.base + Offset(ctx.body, toks, i),
                  ctx.base + Offset(ctx.body, toks, Behind(seg.end, |toks|)))
    ensures Offset(ctx.body, toks, i) <= Offset(ctx.body, toks, Behind(seg.end, |toks|)) <= |ctx.body|
  {
    OffsetsOrdered(ctx.body, toks, i, seg.first);
    OffsetsOrdered(ctx.body, toks, seg.first, seg.end);
    OffsetsOrdered(ctx.body, toks, seg.end, Behind(seg.end, |toks|));
  }

  lemma {:induction false} PlanPointsInRow(ctx: Context, toks: seq<Token>, plan: Plan, i: nat)
    requires WellLexed(ctx.body, toks) && PlanInOrder(i, plan, |toks|)
    ensures PlanFits(plan, |toks|)
    ensures InRow(Points(ctx, toks, plan), ctx.file, ctx.base + Offset(ctx.body, toks, i), ctx.base + |ctx.body|)
    decreases plan
  {
    InOrderFits(i, plan, |toks|);
    match plan
    case Empty =>
    case Mark(seg, place, rest) =>
      var next := Behind(seg.end, |toks|);
      PlanPointsInRow(ctx, toks, rest, next);
      SegmentInRow(ctx, toks, seg, i);
      RowsJoin([PointOf(ctx, toks, seg)], Points(ctx, toks, rest), ctx.file, ctx.base + Offset(ctx.body, toks, i),
               ctx.base + Offset(ctx.body, toks, next), ctx.base + |ctx.body|);
  }

  lemma {:induction false} RowWidens(points: seq<CoveragePoint>, file: string, lo: int, hi: int, lo': int, hi': int)
    requires InRow(points, file, lo, hi) && lo' <= lo && hi <= hi'
    ensures InRow(points, file, lo', hi')
  {
  }

  lemma BodyPointsInRow(lex: Lexer, stmt: Statement, filePath: string, skipToBegin: bool, sqlMode: bool,
                        channel: string)
    requires LexesSegments(lex, stmt.body) && BodyInPlace(stmt)
    ensures InRow(BodyPoints(lex, stmt, filePath, skipToBegin, sqlMode, channel), filePath,
                  stmt.startPos, stmt.startPos + |stmt.rawSQL|)
  {
    if !Skipped(stmt) {
      var ctx, toks := ContextOf(stmt, filePath, sqlMode, channel), lex(stmt.body);
      var plan := PlanOf(toks, skipToBegin, sqlMode);
      PlanOrdered(toks, skipToBegin, sqlMode);
      PlanPointsInRow(ctx, toks, plan, 0);
      RowWidens(Points(ctx, toks, plan), filePath, ctx.base + Offset(ctx.body, toks, 0), ctx.base + |ctx.body|,
                stmt.startPos, stmt.startPos + |stmt.rawSQL|);
    }
  }

  lemma StatementPointsInRow(lex: Lexer, stmt: Statement, filePath: string, channel: string)
    requires LexesSegments(lex, stmt.body) && BodyInPlace(stmt) && 0 < |stmt.rawSQL|
    ensures InRow(StatementPoints(lex, stmt, filePath, channel), filePath,
                  stmt.startPos, stmt.startPos + |stmt.rawSQL|)
  {
    BodyPointsInRow(lex, stmt, filePath, true, false, channel);
    BodyPointsInRow(lex, stmt, filePath, false, true, channel);
  }

  /** All points of a file, executable and implicit, are disjoint non-empty slices of the source in
      strictly increasing order; so no two of them share a position key. */
  lemma {:induction false} FilePointsInRow(lex: Lexer, sql: string, stmts: seq<Statement>, n: nat, path: string,
                                           channel: string, from: nat)
    requires Instrumentable(lex, stmts) && AllInPlace(stmts) && Laid(sql, stmts) && n <= |stmts|
    requires n < |stmts| ==> from <= stmts[n].startPos
    requires from <= |sql|
    ensures InRow(FilePoints(lex, stmts, n, path, channel), path, from, |sql|)
    decreases |stmts| - n
  {
    if n < |stmts| {
      var stmt := stmts[n];
      assert SliceOfSource(sql, stmt);
      var end := stmt.startPos + |stmt.rawSQL|;
      StatementPointsInRow(lex, stmt, path, channel);
      RowWidens(StatementPoints(lex, stmt, path, channel), path, stmt.startPos, end, from, end);
      FilePointsInRow(lex, sql, stmts, n + 1, path, channel, end);
      RowsJoin(StatementPoints(lex, stmt, path, channel), FilePoints(lex, stmts, n + 1, path, channel), path,
               from, end, |sql|);
    }
  }

  /** A point of a body cuts exactly its segment's text out of the source file. */
  lemma PointSlicesSegment(sql: string, stmt: Statement, toks: seq<Token>, seg: Segment, filePath: string,
                           sqlMode: bool, channel: string)
    requires SliceOfSource(sql, stmt) && BodyInPlace(stmt) && !Skipped(stmt)
    requires WellLexed(stmt.body, toks) && seg.first < seg.end <= |toks|
    ensures var p := PointOf(ContextOf(stmt, filePath, sqlMode, channel), toks, seg);
            && 0 <= p.startPos && 0 < p.length && PointEnd(p) <= |sql|
            && sql[p.startPos..PointEnd(p)] == SegText(stmt.body, toks, seg)
  {
    hide FormatSignalID, WellLexed;
    var p := PointOf(ContextOf(stmt, filePath, sqlMode, channel), toks, seg);
    OffsetsOrdered(stmt.body, toks, seg.first, seg.end);
    var a, b := toks[seg.first].pos, Offset(stmt.body, toks, seg.end);
    SliceOfSlice(stmt.rawSQL, stmt.bodyStart, stmt.bodyStart + |stmt.body|, a, b);
    SliceOfSlice(sql, stmt.startPos, stmt.startPos + |stmt.rawSQL|, stmt.bodyStart + a, stmt.bodyStart + b);
  }
}
