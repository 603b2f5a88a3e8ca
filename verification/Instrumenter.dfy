/** internal/instrument/instrumenter.go: splices coverage signals into function bodies. */
module Instrumenter {
  import opened Basics
  import opened Splicing
  import opened Segmentation
  import opened Tokens
  import opened Parser
  import opened SignalCodec

  datatype CoveragePoint = CoveragePoint(
    file: string, startPos: int, length: int, signalID: string, implicitCoverage: bool)

  /** What one body is instrumented with; `base` is the body's offset in the source file. */
  datatype Context = Context(file: string, channel: string, body: string, base: int, sqlMode: bool)

  // ----- indentation -----

  predicate Blank(c: char) {
    c == ' ' || c == '\t'
  }

  function LeadingBlanks(line: string, n: nat := 0): (k: nat)
    requires n <= |line|
    ensures n <= k <= |line|
    decreases |line| - n
  {
    if n < |line| && Blank(line[n]) then LeadingBlanks(line, n + 1) else n
  }

  /** End of the line that holds position `i`. */
  function LineEnd(s: string, i: nat): (e: nat)
    requires i <= |s|
    ensures i <= e <= |s|
    ensures e < |s| ==> s[e] == '\n'
    decreases |s| - i
  {
    if i == |s| || s[i] == '\n' then i else LineEnd(s, i + 1)
  }

  predicate AllSpace(s: string, i: nat, j: nat)
    requires j <= |s|
  {
    forall k :: i <= k < j ==> IsSpace(s[k])
  }

  /** `indentOf`: leading blanks of the first line from `i` on that is not blank. */
  function IndentOf(s: string, i: nat := 0): string
    requires i <= |s|
    decreases |s| - i
  {
    var e := LineEnd(s, i);
    if !AllSpace(s, i, e) then s[i..e][..LeadingBlanks(s[i..e])]
    else if e == |s| then "" else IndentOf(s, e + 1)
  }

  /** Segments start at a token, so their own first line has no indentation. */
  lemma NoIndentAtToken(s: string)
    requires s != "" && !IsSpace(s[0])
    ensures IndentOf(s) == ""
  {
    assert LineEnd(s, 0) > 0;
    assert s[0..LineEnd(s, 0)][0] == s[0];
  }

  function BlankRunStart(content: string, i: nat): (j: nat)
    requires i <= |content|
    ensures j <= i
  {
    if i > 0 && Blank(content[i - 1]) then BlankRunStart(content, i - 1) else i
  }

  /** The blanks between the start of the line and `pos`, if there is nothing else. */
  function LineIndent(content: string, pos: int): string {
    if pos < 0 || pos > |content| then ""
    else
      var i := BlankRunStart(content, pos);
      if i > 0 && content[i - 1] != '\n' then "" else content[i..pos]
  }

  /** The run of blanks that ends at `pos` begins at `i`: it is the indentation if a line begins there too. */
  lemma {:induction false} LineIndentIs(content: string, pos: int, i: nat)
    requires 0 <= pos <= |content| ==> i <= pos
    requires 0 <= pos <= |content| ==> forall k :: i <= k < pos ==> content[k] in {' ', '\t'}
    requires 0 < i <= pos <= |content| ==> content[i - 1] !in {' ', '\t'}
    ensures LineIndent(content, pos)
            == if pos < 0 || pos > |content| || (i > 0 && content[i - 1] != '\n') then "" else content[i..pos]
  {
    if 0 <= pos <= |content| {
      BlankRun(content, pos, i);
    }
  }

  lemma {:induction false} BlankRun(content: string, pos: nat, i: nat)
    requires i <= pos <= |content| && forall k :: i <= k < pos ==> content[k] in {' ', '\t'}
    requires i > 0 ==> content[i - 1] !in {' ', '\t'}
    ensures BlankRunStart(content, pos) == i
    decreases pos
  {
    if i < pos {
      BlankRun(content, pos - 1, i);
    }
  }

  /** `indentBefore`. */
  method IndentBefore(content: string, pos: int) returns (indent: string)
    ensures indent == LineIndent(content, pos)
  {
    if pos < 0 || pos > |content| {
      return "";
    }
    var i := pos;
    while i > 0 && Blank(content[i - 1])
      invariant 0 <= i <= pos
      invariant BlankRunStart(content, pos) == BlankRunStart(content, i)
    {
      i := i - 1;
    }
    if i > 0 && content[i - 1] != '\n' {
      return "";
    }
    indent := content[i..pos];
  }

  // ----- one segment -----

  /** `isExecutableSegment`. */
  method IsExecutableSegment(lex: Lexer, segText: string) returns (executable: bool)
    ensures var ks := Kinds(lex(segText));
            var f := NextSignificant(ks, 0, |ks|);
            executable <==> f < |ks| && ks[f] !in {KBegin, KEnd, KLoop, KDeclare, KException}
  {
    var toks := lex(segText);
    ghost var ks := Kinds(toks);
    var i := 0;
    while i < |toks| && toks[i].kind.Comment?
      invariant i <= |toks|
      invariant NextSignificant(ks, 0, |ks|) == NextSignificant(ks, i, |ks|)
    {
      i := i + 1;
    }
    if i == |toks| {
      return false;
    }
    executable := !Structural(toks[i].kind);
  }

  /** `findTerminalPos`: byte offset of the first terminal, or -1. */
  method FindTerminalPos(lex: Lexer, segText: string) returns (pos: int)
    ensures var toks := lex(segText);
            pos == match FindTerminal(Kinds(toks), 0, |toks|) case None => -1 case Some(t) => toks[t].pos
  {
    var toks := lex(segText);
    ghost var ks := Kinds(toks);
    var i := 0;
    while i < |toks|
      invariant i <= |toks|
      invariant FindTerminal(ks, 0, |ks|) == FindTerminal(ks, i, |ks|)
    {
      if toks[i].kind.KReturn? {
        return toks[i].pos;
      }
      if toks[i].kind.KRaise? {
        var next := i + 1;
        while next < |toks| && toks[next].kind.Comment?
          invariant i < next <= |toks|
          invariant NextSignificant(ks, i + 1, |ks|) == NextSignificant(ks, next, |ks|)
        {
          next := next + 1;
        }
        if next == |toks| || !NonFatalLevel(toks[next].kind) {
          return toks[i].pos;
        }
        i := next + 1;
      } else {
        i := i + 1;
      }
    }
    pos := -1;
  }

  // ----- what is injected, and where -----

  function SegText(body: string, toks: seq<Token>, seg: Segment): string
    requires WellLexed(body, toks) && seg.first < seg.end <= |toks|
  {
    OffsetsOrdered(body, toks, seg.first, seg.end);
    body[toks[seg.first].pos..Offset(body, toks, seg.end)]
  }

  function PointOf(ctx: Context, toks: seq<Token>, seg: Segment): CoveragePoint
    requires WellLexed(ctx.body, toks) && seg.first < seg.end <= |toks|
  {
    var start, length := ctx.base + toks[seg.first].pos, |SegText(ctx.body, toks, seg)|;
    CoveragePoint(ctx.file, start, length, FormatSignalID(ctx.file, start, length), false)
  }

  predicate Placed(seg: Segment, place: Placement, n: nat) {
    seg.first < seg.end <= n && (place.Before? ==> seg.first <= place.index < seg.end)
  }

  /** Byte offset of the injection. */
  function EditAt(body: string, toks: seq<Token>, seg: Segment, place: Placement): nat
    requires Placed(seg, place, |toks|)
  {
    match place
    case Before(k) => toks[k].pos
    case After => OffsetBehind(body, toks, seg.end)
  }

  /** The injected bytes. */
  function ChunkOf(ctx: Context, toks: seq<Token>, seg: Segment, place: Placement): string
    requires WellLexed(ctx.body, toks) && Placed(seg, place, |toks|)
  {
    var id := PointOf(ctx, toks, seg).signalID;
    if ctx.sqlMode then SqlSignal(ctx.channel, id) + "\n" + LineIndent(ctx.body, toks[seg.first].pos)
    else match place
         case Before(k) =>
           OffsetsOrdered(ctx.body, toks, k, seg.end);
           IndentOf(ctx.body[toks[k].pos..Offset(ctx.body, toks, seg.end)])
             + PlpgsqlSignal(ctx.channel, id) + "\n"
         case After =>
           "\n" + (IndentOf(SegText(ctx.body, toks, seg)) + PlpgsqlSignal(ctx.channel, id))
  }

  predicate PlanFits(plan: Plan, n: nat) {
    match plan
    case Empty => true
    case Mark(seg, place, rest) => Placed(seg, place, n) && PlanFits(rest, n)
  }

  lemma {:induction false} InOrderFits(from: nat, plan: Plan, n: nat)
    requires PlanInOrder(from, plan, n)
    ensures PlanFits(plan, n)
    decreases plan
  {
    if plan.Mark? {
      InOrderFits(Behind(plan.seg.end, n), plan.rest, n);
    }
  }

  /** The plan as edits of the body text. */
  function TextEdits(ctx: Context, toks: seq<Token>, plan: Plan): Edits<char>
    requires WellLexed(ctx.body, toks) && PlanFits(plan, |toks|)
  {
    match plan
    case Empty => NoEdits
    case Mark(seg, place, rest) =>
      Insert(EditAt(ctx.body, toks, seg, place), ChunkOf(ctx, toks, seg, place), TextEdits(ctx, toks, rest))
  }

  /** The plan as coverage points. */
  function Points(ctx: Context, toks: seq<Token>, plan: Plan): seq<CoveragePoint>
    requires WellLexed(ctx.body, toks) && PlanFits(plan, |toks|)
  {
    match plan
    case Empty => []
    case Mark(seg, _, rest) => [PointOf(ctx, toks, seg)] + Points(ctx, toks, rest)
  }

  lemma EditInside(body: string, toks: seq<Token>, seg: Segment, place: Placement)
    requires WellLexed(body, toks) && Placed(seg, place, |toks|)
    ensures toks[seg.first].pos <= EditAt(body, toks, seg, place) <= OffsetBehind(body, toks, seg.end)
    ensures OffsetBehind(body, toks, seg.end) <= Offset(body, toks, Behind(seg.end, |toks|)) <= |body|
    ensures Offset(body, toks, seg.end) <= OffsetBehind(body, toks, seg.end)
  {
    OffsetsOrdered(body, toks, seg.first, seg.end);
    if place.Before? {
      OffsetsOrdered(body, toks, seg.first, place.index);
      OffsetsOrdered(body, toks, place.index, seg.end);
    }
    if seg.end < |toks| {
      OffsetsOrdered(body, toks, seg.end, seg.end + 1);
      assert TokenFits(body, toks[seg.end]);
    }
  }

  /** Planned edits are in order, hence can be spliced. */
  lemma {:induction false} EditsInOrder(ctx: Context, toks: seq<Token>, plan: Plan, i: nat, from: nat)
    requires WellLexed(ctx.body, toks) && PlanInOrder(i, plan, |toks|) && from <= Offset(ctx.body, toks, i)
    ensures PlanFits(plan, |toks|) && InOrder(from, TextEdits(ctx, toks, plan), |ctx.body|)
    decreases plan
  {
    InOrderFits(i, plan, |toks|);
    match plan
    case Empty =>
      OffsetsOrdered(ctx.body, toks, i, |toks|);
    case Mark(seg, place, rest) =>
      OffsetsOrdered(ctx.body, toks, i, seg.first);
      EditInside(ctx.body, toks, seg, place);
      EditsInOrder(ctx, toks, rest, Behind(seg.end, |toks|), EditAt(ctx.body, toks, seg, place));
  }

  lemma CutKinds(part: seq<Token>, toks: seq<Token>, seg: Segment)
    requires seg.first < seg.end <= |toks| && Cut(part, toks, seg.first, seg.end)
    ensures IsSlice(Kinds(part), Kinds(toks), seg.first) && |Kinds(part)| == seg.end - seg.first
    ensures FindTerminal(Kinds(toks), seg.first, seg.end)
            == match FindTerminal(Kinds(part), 0, |part|) case None => None case Some(t) => Some(seg.first + t)
    ensures forall k :: 0 <= k < |part| ==> part[k].pos + toks[seg.first].pos == toks[seg.first + k].pos
  {
    hide FindTerminal;
    forall k | 0 <= k < |part|
      ensures part[k].kind == toks[seg.first + k].kind
      ensures part[k].pos + toks[seg.first].pos == toks[seg.first + k].pos
    {
      assert Shifted(part[k], toks[seg.first + k], toks[seg.first].pos);
    }
    FindTerminalInSlice(Kinds(part), Kinds(toks), seg.first, 0);
  }

  /** The segment `seg` of `body`, with all that the lexer contract says about it. */
  predicate KnownSegment(lex: Lexer, body: string, seg: Segment) {
    var toks := lex(body);
    && WellLexed(body, toks)
    && seg.first < seg.end <= |toks|
    && SegmentEnd(toks, seg.end)
    && !toks[seg.first].kind.Comment?
    && SliceLexes(lex, body, seg.first, seg.end)
  }

  /** Bytes of the body between two offsets with one chunk in the middle. */
  function Stretch(body: string, last: nat, at: nat, chunk: string, next: nat): string
    requires last <= at <= next <= |body|
  {
    body[last..at] + chunk + body[at..next]
  }

  /** Gap and segment are written as separate pieces; the chunk splits the segment at `at`. */
  lemma WrittenPieces(body: string, last: nat, start: nat, at: nat, end: nat, chunk: string, out: string)
    requires last <= start <= at <= end <= |body|
    ensures var seg := body[start..end];
            out + body[last..start] + seg[..at - start] + chunk + seg[at - start..]
            == out + Stretch(body, last, at, chunk, end)
  {
    var seg := body[start..end];
    assert seg[..at - start] == body[start..at];
    assert seg[at - start..] == body[at..end];
    assert body[last..at] == body[last..start] + body[start..at];
    var gap, head, tail := body[last..start], body[start..at], body[at..end];
    assert out + gap + head + chunk + tail == out + (gap + head + chunk + tail);
  }

  /** The body as it is written: the closure `emitSegment` with the variables it captures. */
  class BodyWriter {
    const ctx: Context
    var builder: string
    var lastWrittenPos: nat
    var locations: seq<CoveragePoint>

    constructor (ctx: Context)
      ensures this.ctx == ctx && builder == "" && lastWrittenPos == 0 && locations == []
    {
      this.ctx := ctx;
      builder, lastWrittenPos, locations := "", 0, [];
    }

    /** The signal in front of `segText[at..]`, and the segment written to its end. */
    method WriteInside(segStart: nat, segEnd: nat, at: nat, chunk: string)
      requires lastWrittenPos <= segStart <= at <= segEnd <= |ctx.body|
      modifies this
      ensures builder == old(builder) + Stretch(ctx.body, old(lastWrittenPos), at, chunk, segEnd)
      ensures lastWrittenPos == segEnd && locations == old(locations)
    {
      WrittenPieces(ctx.body, lastWrittenPos, segStart, at, segEnd, chunk, builder);
      var segText := ctx.body[segStart..segEnd];
      if segStart > lastWrittenPos {
        builder := builder + ctx.body[lastWrittenPos..segStart];
      }
      builder := builder + segText[..at - segStart];
      builder := builder + chunk;
      builder := builder + segText[at - segStart..];
      lastWrittenPos := segEnd;
    }

    /** The segment, the `;` that closes it if there is one, then the signal. */
    method WriteBehind(segStart: nat, segEnd: nat, chunk: string)
      requires lastWrittenPos <= segStart <= segEnd <= |ctx.body|
      modifies this
      ensures lastWrittenPos == if segEnd < |ctx.body| && ctx.body[segEnd] == ';' then segEnd + 1 else segEnd
      ensures builder == old(builder) + Stretch(ctx.body, old(lastWrittenPos), lastWrittenPos, chunk, lastWrittenPos)
      ensures locations == old(locations)
    {
      ghost var first, out := lastWrittenPos, builder;
      if segStart > lastWrittenPos {
        builder := builder + ctx.body[lastWrittenPos..segStart];
      }
      builder := builder + ctx.body[segStart..segEnd];
      assert builder == out + ctx.body[first..segEnd];
      if segEnd < |ctx.body| && ctx.body[segEnd] == ';' {
        builder := builder + ";";
        lastWrittenPos := segEnd + 1;
      } else {
        lastWrittenPos := segEnd;
      }
      assert builder == out + ctx.body[first..lastWrittenPos];
      builder := builder + chunk;
    }

    method EmitPlpgsql(lex: Lexer, segStart: nat, segEnd: nat, signalID: string, ghost seg: Segment)
      requires KnownSegment(lex, ctx.body, seg) && !ctx.sqlMode
      requires segStart == lex(ctx.body)[seg.first].pos && segEnd == Offset(ctx.body, lex(ctx.body), seg.end)
      requires lastWrittenPos <= segStart && signalID == PointOf(ctx, lex(ctx.body), seg).signalID
      modifies this
      ensures Emitted(ctx, lex(ctx.body), seg, PlaceOf(Kinds(lex(ctx.body)), seg, false),
                      old(builder), old(lastWrittenPos), builder, lastWrittenPos)
      ensures locations == old(locations)
    {
      hide FindTerminal, IndentOf, PlpgsqlSignal, FormatSignalID, Emitted;
      ghost var toks := lex(ctx.body);
      OffsetsOrdered(ctx.body, toks, seg.first, seg.end);
      var segText := ctx.body[segStart..segEnd];
      var termPos := FindTerminalPos(lex, segText);
      TerminalPlace(lex(segText), toks, seg, termPos);
      if termPos >= 0 {
        var notifyCall := IndentOf(segText[termPos..]) + PlpgsqlSignal(ctx.channel, signalID);
        EmitBefore(segStart, segEnd, segStart + termPos, notifyCall + "\n", toks, seg,
                   PlaceOf(Kinds(toks), seg, false).index);
      } else {
        var notifyCall := IndentOf(segText) + PlpgsqlSignal(ctx.channel, signalID);
        EmitBehind(segStart, segEnd, "\n" + notifyCall, toks, seg);
      }
    }

    method EmitBefore(segStart: nat, segEnd: nat, at: nat, chunk: string, ghost toks: seq<Token>,
                      ghost seg: Segment, ghost k: nat)
      requires WellLexed(ctx.body, toks) && Placed(seg, Before(k), |toks|) && !ctx.sqlMode
      requires segStart == toks[seg.first].pos && segEnd == Offset(ctx.body, toks, seg.end) && at == toks[k].pos
      requires lastWrittenPos <= segStart <= at
      requires var segText := SegText(ctx.body, toks, seg);
               at - segStart <= |segText| &&
               chunk == IndentOf(segText[at - segStart..])
                        + PlpgsqlSignal(ctx.channel, PointOf(ctx, toks, seg).signalID) + "\n"
      modifies this
      ensures Emitted(ctx, toks, seg, Before(k), old(builder), old(lastWrittenPos), builder, lastWrittenPos)
      ensures locations == old(locations)
    {
      OffsetsOrdered(ctx.body, toks, k, seg.end);
      EditInside(ctx.body, toks, seg, Before(k));
      ChunkBefore(ctx, toks, seg, k);
      WriteInside(segStart, segEnd, at, chunk);
    }

    method EmitBehind(segStart: nat, segEnd: nat, chunk: string, ghost toks: seq<Token>, ghost seg: Segment)
      requires WellLexed(ctx.body, toks) && seg.first < seg.end <= |toks| && !ctx.sqlMode
      requires SegmentEnd(toks, seg.end)
      requires segStart == toks[seg.first].pos && segEnd == Offset(ctx.body, toks, seg.end)
      requires lastWrittenPos <= segStart && chunk == ChunkOf(ctx, toks, seg, After)
      modifies this
      ensures Emitted(ctx, toks, seg, After, old(builder), old(lastWrittenPos), builder, lastWrittenPos)
      ensures locations == old(locations)
    {
      hide ChunkOf, PlpgsqlSignal, Emitted, WellLexed;
      OffsetsOrdered(ctx.body, toks, seg.first, seg.end);
      EditInside(ctx.body, toks, seg, After);
      BehindSemicolon(ctx.body, toks, seg.end);
      ghost var out, last := builder, lastWrittenPos;
      WriteBehind(segStart, segEnd, chunk);
      EmittedBehind(ctx, toks, seg, out, last, builder, lastWrittenPos);
    }

    method EmitSql(segStart: nat, segEnd: nat, signalID: string, ghost toks: seq<Token>, ghost seg: Segment)
      requires WellLexed(ctx.body, toks) && seg.first < seg.end <= |toks| && ctx.sqlMode
      requires segStart == toks[seg.first].pos && segEnd == Offset(ctx.body, toks, seg.end)
      requires lastWrittenPos <= segStart && signalID == PointOf(ctx, toks, seg).signalID
      modifies this
      ensures Emitted(ctx, toks, seg, Before(seg.first), old(builder), old(lastWrittenPos), builder, lastWrittenPos)
      ensures locations == old(locations)
    {
      OffsetsOrdered(ctx.body, toks, seg.first, seg.end);
      EditInside(ctx.body, toks, seg, Before(seg.first));
      var indent := IndentBefore(ctx.body, segStart);
      WriteInside(segStart, segEnd, segStart, SqlSignal(ctx.channel, signalID) + "\n" + indent);
    }

    method EmitSegment(lex: Lexer, segStart: nat, segEnd: nat, ghost seg: Segment)
      requires KnownSegment(lex, ctx.body, seg)
      requires segStart == lex(ctx.body)[seg.first].pos && segEnd == Offset(ctx.body, lex(ctx.body), seg.end)
      requires lastWrittenPos <= segStart
      modifies this
      ensures var toks := lex(ctx.body);
              if Structural(toks[seg.first].kind) then
                builder == old(builder) && lastWrittenPos == old(lastWrittenPos) && locations == old(locations)
              else
                && Emitted(ctx, toks, seg, PlaceOf(Kinds(toks), seg, ctx.sqlMode),
                           old(builder), old(lastWrittenPos), builder, lastWrittenPos)
                && locations == old(locations) + [PointOf(ctx, toks, seg)]
    {
      hide FindTerminal, FormatSignalID, Emitted;
      CutKinds(lex(SegText(ctx.body, lex(ctx.body), seg)), lex(ctx.body), seg);
      OffsetsOrdered(ctx.body, lex(ctx.body), seg.first, seg.end);
      var executable := IsExecutableSegment(lex, ctx.body[segStart..segEnd]);
      if !executable {
        return;
      }
      var startPos, length := ctx.base + segStart, segEnd - segStart;
      var cp := CoveragePoint(ctx.file, startPos, length, FormatSignalID(ctx.file, startPos, length), false);
      locations := locations + [cp];
      if ctx.sqlMode {
        EmitSql(segStart, segEnd, cp.signalID, lex(ctx.body), seg);
      } else {
        EmitPlpgsql(lex, segStart, segEnd, cp.signalID, seg);
      }
    }
  }

  /** From (out, last) to (out', last'): the stretch up to `last'` with the segment's signal in it. */
  predicate Emitted(ctx: Context, toks: seq<Token>, seg: Segment, place: Placement,
                    out: string, last: nat, out': string, last': nat)
    requires WellLexed(ctx.body, toks) && Placed(seg, place, |toks|)
  {
    var at := EditAt(ctx.body, toks, seg, place);
    && last <= at <= last' <= OffsetBehind(ctx.body, toks, seg.end)
    && last' <= |ctx.body|
    && out' == out + Stretch(ctx.body, last, at, ChunkOf(ctx, toks, seg, place), last')
  }

  lemma EmittedBehind(ctx: Context, toks: seq<Token>, seg: Segment, out: string, last: nat, out': string, last': nat)
    requires WellLexed(ctx.body, toks) && seg.first < seg.end <= |toks| && SegmentEnd(toks, seg.end)
    requires last <= last' == OffsetBehind(ctx.body, toks, seg.end) <= |ctx.body|
    requires out' == out + Stretch(ctx.body, last, last', ChunkOf(ctx, toks, seg, After), last')
    ensures Emitted(ctx, toks, seg, After, out, last, out', last')
  {
    hide ChunkOf, WellLexed, Stretch;
  }

  /** What `findTerminalPos` says about the segment's text, in terms of the body's tokens. */
  lemma TerminalPlace(part: seq<Token>, toks: seq<Token>, seg: Segment, termPos: int)
    requires seg.first < seg.end <= |toks| && Cut(part, toks, seg.first, seg.end)
    requires termPos == match FindTerminal(Kinds(part), 0, |part|) case None => -1 case Some(t) => part[t].pos
    ensures match PlaceOf(Kinds(toks), seg, false)
            case After => termPos == -1
            case Before(k) => termPos >= 0 && k < |toks| && toks[k].pos == toks[seg.first].pos + termPos
  {
    hide FindTerminal, NextSignificant, Kinds;
    CutKinds(part, toks, seg);
  }

  lemma ChunkBefore(ctx: Context, toks: seq<Token>, seg: Segment, k: nat)
    requires WellLexed(ctx.body, toks) && Placed(seg, Before(k), |toks|) && !ctx.sqlMode
    ensures var segText, at := SegText(ctx.body, toks, seg), toks[k].pos - toks[seg.first].pos;
            && 0 <= at < |segText|
            && ChunkOf(ctx, toks, seg, Before(k))
               == IndentOf(segText[at..]) + PlpgsqlSignal(ctx.channel, PointOf(ctx, toks, seg).signalID) + "\n"
  {
    OffsetsOrdered(ctx.body, toks, seg.first, k);
    OffsetsOrdered(ctx.body, toks, k, seg.end);
    var a, b, i := toks[seg.first].pos, Offset(ctx.body, toks, seg.end), toks[k].pos;
    assert ctx.body[a..b][i - a..] == ctx.body[i..b];
  }

  lemma BehindSemicolon(body: string, toks: seq<Token>, end: nat)
    requires WellLexed(body, toks) && end <= |toks| && (end < |toks| ==> toks[end].kind.Semicolon?)
    ensures var o := Offset(body, toks, end);
            OffsetBehind(body, toks, end) == if o < |body| && body[o] == ';' then o + 1 else o
  {
    if end < |toks| {
      assert TokenFits(body, toks[end]);
      var o := toks[end].pos;
      assert body[o] == body[o..o + 1][0];
    }
  }

  // ----- one body -----

  /** Nothing to instrument, or no place to put it. */
  predicate Skipped(stmt: Statement) {
    stmt.body == "" || stmt.bodyStart < 0 || stmt.bodyStart > |stmt.rawSQL|
  }

  function ContextOf(stmt: Statement, filePath: string, sqlMode: bool, channel: string): Context {
    Context(filePath, channel, stmt.body, stmt.startPos + stmt.bodyStart, sqlMode)
  }

  function PlanOf(toks: seq<Token>, skipToBegin: bool, sqlMode: bool): (plan: Plan)
    ensures PlanFits(plan, |toks|)
  {
    var ks := Kinds(toks);
    var i := if skipToBegin then AfterBegin(ks, 0) else 0;
    PlanFromInOrder(ks, i, None, sqlMode);
    InOrderFits(i, PlanFrom(ks, i, None, sqlMode), |toks|);
    BodyPlan(ks, skipToBegin, sqlMode)
  }

  lemma PlanOrdered(toks: seq<Token>, skipToBegin: bool, sqlMode: bool)
    ensures PlanInOrder(0, PlanOf(toks, skipToBegin, sqlMode), |toks|)
  {
    var ks := Kinds(toks);
    var i := if skipToBegin then AfterBegin(ks, 0) else 0;
    PlanFromInOrder(ks, i, None, sqlMode);
    WeakenOrder(0, i, PlanFrom(ks, i, None, sqlMode), |ks|);
  }

  /** The body with all its signals. */
  function InstrumentedText(ctx: Context, toks: seq<Token>, skipToBegin: bool): string
    requires WellLexed(ctx.body, toks)
  {
    var plan := PlanOf(toks, skipToBegin, ctx.sqlMode);
    PlanOrdered(toks, skipToBegin, ctx.sqlMode);
    EditsInOrder(ctx, toks, plan, 0, 0);
    Splice(ctx.body, 0, TextEdits(ctx, toks, plan))
  }

  function PointsOf(ctx: Context, toks: seq<Token>, skipToBegin: bool): seq<CoveragePoint>
    requires WellLexed(ctx.body, toks)
  {
    Points(ctx, toks, PlanOf(toks, skipToBegin, ctx.sqlMode))
  }

  /** With `plan` still to be carried out from offset `last` on, the result will be (text, all). */
  predicate Leads(ctx: Context, toks: seq<Token>, plan: Plan, out: string, last: nat, points: seq<CoveragePoint>,
                  text: string, all: seq<CoveragePoint>)
    requires WellLexed(ctx.body, toks)
  {
    && PlanFits(plan, |toks|)
    && InOrder(last, TextEdits(ctx, toks, plan), |ctx.body|)
    && out + Splice(ctx.body, last, TextEdits(ctx, toks, plan)) == text
    && points + Points(ctx, toks, plan) == all
  }

  /** Writing one stretch settles the first edit. */
  lemma StretchSplice(body: string, last: nat, at: nat, chunk: string, next: nat, rest: Edits<char>, out: string)
    requires last <= at <= next && InOrder(next, rest, |body|)
    ensures InOrder(last, Insert(at, chunk, rest), |body|)
    ensures out + Stretch(body, last, at, chunk, next) + Splice(body, next, rest)
            == out + Splice(body, last, Insert(at, chunk, rest))
  {
    SpliceCopies(body, at, next, rest);
    var a, b, c := body[last..at] + chunk, body[at..next], Splice(body, next, rest);
    Concat3(out, a + b, c);
    Concat3(a, b, c);
  }

  /** Emitting a segment carries out the first mark of the plan. */
  lemma Settle(ctx: Context, toks: seq<Token>, seg: Segment, place: Placement, rest: Plan, out: string, last: nat,
               points: seq<CoveragePoint>, text: string, all: seq<CoveragePoint>, out': string, last': nat)
    requires WellLexed(ctx.body, toks) && Leads(ctx, toks, Mark(seg, place, rest), out, last, points, text, all)
    requires Emitted(ctx, toks, seg, place, out, last, out', last')
    requires InOrder(last', TextEdits(ctx, toks, rest), |ctx.body|)
    ensures Leads(ctx, toks, rest, out', last', points + [PointOf(ctx, toks, seg)], text, all)
  {
    var at, chunk := EditAt(ctx.body, toks, seg, place), ChunkOf(ctx, toks, seg, place);
    StretchSplice(ctx.body, last, at, chunk, last', TextEdits(ctx, toks, rest), out);
    Concat3(points, [PointOf(ctx, toks, seg)], Points(ctx, toks, rest));
  }

  lemma RestOrdered(ctx: Context, toks: seq<Token>, i: nat, last: nat)
    requires WellLexed(ctx.body, toks) && i <= |toks| && last <= Offset(ctx.body, toks, i)
    ensures var plan := PlanFrom(Kinds(toks), i, None, ctx.sqlMode);
            PlanFits(plan, |toks|) && InOrder(last, TextEdits(ctx, toks, plan), |ctx.body|)
  {
    PlanFromInOrder(Kinds(toks), i, None, ctx.sqlMode);
    EditsInOrder(ctx, toks, PlanFrom(Kinds(toks), i, None, ctx.sqlMode), i, last);
  }

  lemma SegmentKnown(lex: Lexer, body: string, seg: Segment)
    requires LexesSegments(lex, body)
    requires var toks := lex(body);
             seg.first < seg.end <= |toks| && SegmentEnd(toks, seg.end) && !toks[seg.first].kind.Comment?
    ensures KnownSegment(lex, body, seg)
  {
    assert SliceLexes(lex, body, seg.first, seg.end);
  }

  /** Emits the segment from `pending` to token `i` through the writer and moves on to `rest`. */
  method CloseSegment(lex: Lexer, w: BodyWriter, segStart: nat, segEnd: nat, ghost seg: Segment, ghost rest: Plan,
                      ghost text: string, ghost all: seq<CoveragePoint>)
    requires KnownSegment(lex, w.ctx.body, seg)
    requires segStart == lex(w.ctx.body)[seg.first].pos && segEnd == Offset(w.ctx.body, lex(w.ctx.body), seg.end)
    requires w.lastWrittenPos <= segStart
    requires var toks := lex(w.ctx.body);
             && rest == PlanFrom(Kinds(toks), Behind(seg.end, |toks|), None, w.ctx.sqlMode)
             && Leads(w.ctx, toks, EmitPlan(Kinds(toks), seg.first, seg.end, w.ctx.sqlMode, rest),
                      w.builder, w.lastWrittenPos, w.locations, text, all)
    modifies w
    ensures Leads(w.ctx, lex(w.ctx.body), rest, w.builder, w.lastWrittenPos, w.locations, text, all)
    ensures w.lastWrittenPos <= OffsetBehind(w.ctx.body, lex(w.ctx.body), seg.end)
  {
    ghost var toks, out, last, points := lex(w.ctx.body), w.builder, w.lastWrittenPos, w.locations;
    OffsetsOrdered(w.ctx.body, toks, seg.first, seg.end);
    EditInside(w.ctx.body, toks, seg, After);
    w.EmitSegment(lex, segStart, segEnd, seg);
    if !Structural(toks[seg.first].kind) {
      ghost var place := PlaceOf(Kinds(toks), seg, w.ctx.sqlMode);
      RestOrdered(w.ctx, toks, Behind(seg.end, |toks|), w.lastWrittenPos);
      Settle(w.ctx, toks, seg, place, rest, out, last, points, text, all, w.builder, w.lastWrittenPos);
    }
  }

  /** State of the token loop in front of token `i`. */
  ghost predicate Scanning(w: BodyWriter, toks: seq<Token>, i: nat, pending: Option<nat>, segStart: int,
                           text: string, all: seq<CoveragePoint>)
    reads w
  {
    && WellLexed(w.ctx.body, toks)
    && Pending(Kinds(toks), i, pending)
    && (pending.Some? ==> segStart == toks[pending.value].pos && !toks[pending.value].kind.Comment?)
    && w.lastWrittenPos <= Offset(w.ctx.body, toks, if pending.Some? then pending.value else i)
    && Leads(w.ctx, toks, PlanFrom(Kinds(toks), i, pending, w.ctx.sqlMode),
             w.builder, w.lastWrittenPos, w.locations, text, all)
  }

  /** One turn of the token loop. */
  method ScanToken(lex: Lexer, w: BodyWriter, toks: seq<Token>, i: nat, hasContent: bool, segStart: int,
                   ghost pending: Option<nat>, ghost text: string, ghost all: seq<CoveragePoint>)
    returns (hasContent': bool, segStart': int, ghost pending': Option<nat>)
    requires LexesSegments(lex, w.ctx.body) && toks == lex(w.ctx.body) && i < |toks|
    requires hasContent == pending.Some? && Scanning(w, toks, i, pending, segStart, text, all)
    modifies w
    ensures hasContent' == pending'.Some? && Scanning(w, toks, i + 1, pending', segStart', text, all)
  {
    hasContent', segStart', pending' := hasContent, segStart, pending;
    OffsetsOrdered(w.ctx.body, toks, i, i + 1);
    var tok := toks[i];
    if tok.kind.Comment? {
      return;
    }
    if tok.kind.Semicolon? {
      EndsBefore(w.ctx.body, toks, i);
      if hasContent {
        ghost var seg := Segment(pending.value, i);
        SegmentKnown(lex, w.ctx.body, seg);
        CloseSegment(lex, w, segStart, tok.pos, seg, PlanFrom(Kinds(toks), i + 1, None, w.ctx.sqlMode), text, all);
      }
      hasContent', segStart', pending' := false, -1, None;
    } else {
      if !hasContent {
        segStart', pending' := tok.pos, Some(i);
      }
      hasContent' := true;
    }
  }

  method SkipToBegin(toks: seq<Token>) returns (i: nat)
    ensures i == AfterBegin(Kinds(toks), 0) <= |toks|
  {
    i := 0;
    while i < |toks|
      invariant i <= |toks| && AfterBegin(Kinds(toks), 0) == AfterBegin(Kinds(toks), i)
    {
      i := i + 1;
      if toks[i - 1].kind.KBegin? {
        return;
      }
    }
  }

  lemma ScanStarts(ctx: Context, toks: seq<Token>, skipToBegin: bool, i: nat)
    requires WellLexed(ctx.body, toks) && i == if skipToBegin then AfterBegin(Kinds(toks), 0) else 0
    ensures Leads(ctx, toks, PlanFrom(Kinds(toks), i, None, ctx.sqlMode), "", 0, [],
                  InstrumentedText(ctx, toks, skipToBegin), PointsOf(ctx, toks, skipToBegin))
  {
    RestOrdered(ctx, toks, i, 0);
    var text := InstrumentedText(ctx, toks, skipToBegin);
    assert "" + text == text;
  }

  /** `instrumentBody`: the token loop, the trailing segment, and the text behind the last one. */
  method WriteBody(lex: Lexer, ctx: Context, skipToBegin: bool) returns (text: string, locations: seq<CoveragePoint>)
    requires LexesSegments(lex, ctx.body)
    ensures text == InstrumentedText(ctx, lex(ctx.body), skipToBegin)
    ensures locations == PointsOf(ctx, lex(ctx.body), skipToBegin)
  {
    var toks := lex(ctx.body);
    ghost var result, all := InstrumentedText(ctx, toks, skipToBegin), PointsOf(ctx, toks, skipToBegin);
    var w := new BodyWriter(ctx);
    var i := 0;
    if skipToBegin {
      i := SkipToBegin(toks);
    }
    ScanStarts(ctx, toks, skipToBegin, i);
    var hasContent, segStart, pending := ScanTokens(lex, w, toks, i, result, all);
    text := FinishBody(lex, w, hasContent, segStart, toks, pending, result, all);
    locations := w.locations;
  }

  /** The token loop from token `start` on. */
  method ScanTokens(lex: Lexer, w: BodyWriter, toks: seq<Token>, start: nat, ghost text: string,
                    ghost all: seq<CoveragePoint>)
    returns (hasContent: bool, segStart: int, ghost pending: Option<nat>)
    requires LexesSegments(lex, w.ctx.body) && toks == lex(w.ctx.body) && start <= |toks|
    requires Scanning(w, toks, start, None, -1, text, all)
    modifies w
    ensures hasContent == pending.Some? && Scanning(w, toks, |toks|, pending, segStart, text, all)
  {
    hide Scanning, LexesSegments;
    hasContent, segStart, pending := false, -1, None;
    for i := start to |toks|
      invariant hasContent == pending.Some? && Scanning(w, toks, i, pending, segStart, text, all)
    {
      hasContent, segStart, pending := ScanToken(lex, w, toks, i, hasContent, segStart, pending, text, all);
    }
  }

  /** A trailing segment that has no closing semicolon, then the rest of the body. */
  method FinishBody(lex: Lexer, w: BodyWriter, hasContent: bool, segStart: int, ghost toks: seq<Token>,
                    ghost pending: Option<nat>, ghost result: string, ghost all: seq<CoveragePoint>)
    returns (text: string)
    requires LexesSegments(lex, w.ctx.body) && toks == lex(w.ctx.body)
    requires hasContent == pending.Some? && Scanning(w, toks, |toks|, pending, segStart, result, all)
    modifies w
    ensures text == result && w.locations == all
  {
    if hasContent {
      ghost var seg := Segment(pending.value, |toks|);
      SegmentKnown(lex, w.ctx.body, seg);
      CloseSegment(lex, w, segStart, |w.ctx.body|, seg, Empty, result, all);
    }
    assert Leads(w.ctx, toks, Empty, w.builder, w.lastWrittenPos, w.locations, result, all);
    text := w.builder;
    if w.lastWrittenPos < |w.ctx.body| {
      text := text + w.ctx.body[w.lastWrittenPos..];
    }
  }

  lemma EndsBefore(body: string, toks: seq<Token>, i: nat)
    requires WellLexed(body, toks) && i < |toks|
    ensures OffsetBehind(body, toks, i) <= Offset(body, toks, i + 1)
  {
    assert TokenFits(body, toks[i]);
    OffsetsOrdered(body, toks, i, i + 1);
  }

  // ----- one statement -----

  /** The body fits where it is to be put back; the source indexes past it without a check. */
  predicate BodyFits(stmt: Statement) {
    Skipped(stmt) || stmt.bodyStart + |stmt.body| <= |stmt.rawSQL|
  }

  function BodyPoints(lex: Lexer, stmt: Statement, filePath: string, skipToBegin: bool, sqlMode: bool,
                      channel: string): seq<CoveragePoint>
    requires LexesSegments(lex, stmt.body)
  {
    if Skipped(stmt) then []
    else PointsOf(ContextOf(stmt, filePath, sqlMode, channel), lex(stmt.body), skipToBegin)
  }

  function BodyText(lex: Lexer, stmt: Statement, filePath: string, skipToBegin: bool, sqlMode: bool,
                    channel: string): string
    requires LexesSegments(lex, stmt.body) && BodyFits(stmt)
  {
    if BodyPoints(lex, stmt, filePath, skipToBegin, sqlMode, channel) == [] then stmt.rawSQL
    else stmt.rawSQL[..stmt.bodyStart]
           + InstrumentedText(ContextOf(stmt, filePath, sqlMode, channel), lex(stmt.body), skipToBegin)
           + stmt.rawSQL[stmt.bodyStart + |stmt.body|..]
  }

  lemma BodyIs(lex: Lexer, stmt: Statement, filePath: string, skipToBegin: bool, sqlMode: bool, channel: string)
    requires LexesSegments(lex, stmt.body) && BodyFits(stmt) && !Skipped(stmt)
    ensures WellLexed(stmt.body, lex(stmt.body))
    ensures var ctx, toks := ContextOf(stmt, filePath, sqlMode, channel), lex(stmt.body);
            && BodyPoints(lex, stmt, filePath, skipToBegin, sqlMode, channel) == PointsOf(ctx, toks, skipToBegin)
            && BodyText(lex, stmt, filePath, skipToBegin, sqlMode, channel)
               == if PointsOf(ctx, toks, skipToBegin) == [] then stmt.rawSQL
                  else stmt.rawSQL[..stmt.bodyStart] + InstrumentedText(ctx, toks, skipToBegin)
                       + stmt.rawSQL[stmt.bodyStart + |stmt.body|..]
  {
    hide InstrumentedText, PointsOf;
    LexedBody(lex, stmt.body);
  }

  method InstrumentBody(lex: Lexer, stmt: Statement, filePath: string, skipToBegin: bool, useSQLStatement: bool,
                        channel: string)
    returns (text: string, locations: seq<CoveragePoint>)
    requires LexesSegments(lex, stmt.body) && BodyFits(stmt)
    ensures locations == BodyPoints(lex, stmt, filePath, skipToBegin, useSQLStatement, channel)
    ensures text == BodyText(lex, stmt, filePath, skipToBegin, useSQLStatement, channel)
  {
    if stmt.body == "" || stmt.bodyStart < 0 || stmt.bodyStart > |stmt.rawSQL| {
      return stmt.rawSQL, [];
    }
    BodyIs(lex, stmt, filePath, skipToBegin, useSQLStatement, channel);
    hide BodyPoints, BodyText, InstrumentedText, PointsOf, LexesSegments, WellLexed;
    var body;
    body, locations := WriteBody(lex, ContextOf(stmt, filePath, useSQLStatement, channel), skipToBegin);
    if |locations| == 0 {
      return stmt.rawSQL, [];
    }
    text := stmt.rawSQL[..stmt.bodyStart] + body + stmt.rawSQL[stmt.bodyStart + |stmt.body|..];
  }

  /** `markStatementLinesAsCovered`. */
  function ImplicitPoint(stmt: Statement, filePath: string): CoveragePoint {
    CoveragePoint(filePath, stmt.startPos, |stmt.rawSQL|,
                  FormatSignalID(filePath, stmt.startPos, |stmt.rawSQL|), true)
  }

  datatype Mode = PlpgsqlBody | SqlBody | Implicit

  function ModeOf(stmt: Statement): Mode {
    if !HasBody(stmt.stmtType) then Implicit
    else if stmt.language == "plpgsql" then PlpgsqlBody
    else if stmt.language == "sql" then SqlBody
    else Implicit
  }

  function StatementPoints(lex: Lexer, stmt: Statement, filePath: string, channel: string): seq<CoveragePoint>
    requires LexesSegments(lex, stmt.body)
  {
    match ModeOf(stmt)
    case PlpgsqlBody => BodyPoints(lex, stmt, filePath, true, false, channel)
    case SqlBody => BodyPoints(lex, stmt, filePath, false, true, channel)
    case Implicit => [ImplicitPoint(stmt, filePath)]
  }

  /** The points of a body are those of its segments. */
  lemma {:induction false} BodyPointKinds(ctx: Context, toks: seq<Token>, plan: Plan)
    requires WellLexed(ctx.body, toks) && PlanFits(plan, |toks|)
    ensures forall p :: p in Points(ctx, toks, plan) ==> !p.implicitCoverage && p.file == ctx.file
    decreases plan
  {
    if plan.Mark? {
      BodyPointKinds(ctx, toks, plan.rest);
    }
  }

  /** A body in PL/pgSQL is read from behind its first BEGIN and a body in SQL from its start, if there is a body at
      all. Every other statement gets one implicit point and stays as it is. */
  lemma StatementModes(lex: Lexer, stmt: Statement, filePath: string, channel: string)
    requires LexesSegments(lex, stmt.body) && BodyFits(stmt)
    ensures var hasBody := stmt.stmtType in {StmtFunction, StmtProcedure, StmtDO};
            var noText := stmt.body == "" || stmt.bodyStart < 0 || stmt.bodyStart > |stmt.rawSQL|;
            var ctx := Context(filePath, channel, stmt.body, stmt.startPos + stmt.bodyStart, stmt.language == "sql");
            var points := StatementPoints(lex, stmt, filePath, channel);
            if hasBody && stmt.language in {"plpgsql", "sql"} then
              && points == (if noText then [] else PointsOf(ctx, lex(stmt.body), stmt.language == "plpgsql"))
              && forall p :: p in points ==> !p.implicitCoverage && p.file == filePath
            else
              && StatementText(lex, stmt, filePath, channel) == stmt.rawSQL && |points| == 1
              && points[0].file == filePath && points[0].startPos == stmt.startPos
              && points[0].length == |stmt.rawSQL| && points[0].implicitCoverage
              && points[0].signalID == FormatSignalID(filePath, stmt.startPos, |stmt.rawSQL|)
  {
    hide InstrumentedText, PlanFrom, AfterBegin, FormatSignalID;
    if !Skipped(stmt) {
      var sqlMode := stmt.language == "sql";
      var ctx, toks := ContextOf(stmt, filePath, sqlMode, channel), lex(stmt.body);
      InOrderFits(0, PlanOf(toks, !sqlMode, sqlMode), |toks|) by { PlanOrdered(toks, !sqlMode, sqlMode); }
      BodyPointKinds(ctx, toks, PlanOf(toks, !sqlMode, sqlMode));
    }
  }

  function StatementText(lex: Lexer, stmt: Statement, filePath: string, channel: string): string
    requires LexesSegments(lex, stmt.body) && BodyFits(stmt)
  {
    match ModeOf(stmt)
    case PlpgsqlBody => BodyText(lex, stmt, filePath, true, false, channel)
    case SqlBody => BodyText(lex, stmt, filePath, false, true, channel)
    case Implicit => stmt.rawSQL
  }

  method InstrumentStatement(lex: Lexer, stmt: Statement, filePath: string, channel: string)
    returns (text: string, locations: seq<CoveragePoint>)
    requires LexesSegments(lex, stmt.body) && BodyFits(stmt)
    ensures locations == StatementPoints(lex, stmt, filePath, channel)
    ensures text == StatementText(lex, stmt, filePath, channel)
  {
    if stmt.stmtType.StmtFunction? || stmt.stmtType.StmtProcedure? || stmt.stmtType.StmtDO? {
      if stmt.language == "plpgsql" {
        text, locations := InstrumentBody(lex, stmt, filePath, true, false, channel);
        return;
      } else if stmt.language == "sql" {
        text, locations := InstrumentBody(lex, stmt, filePath, false, true, channel);
        return;
      }
    }
    return stmt.rawSQL, [ImplicitPoint(stmt, filePath)];
  }

  // ----- one file -----

  datatype DiscoveredFile = DiscoveredFile(path: string, relativePath: string)

  datatype ParsedSQL = ParsedSQL(file: Option<DiscoveredFile>, statements: seq<Statement>)

  datatype InstrumentedSQL = InstrumentedSQL(original: ParsedSQL, text: string, locations: seq<CoveragePoint>)

  function KeyPath(file: DiscoveredFile): string {
    if file.relativePath == "" then file.path else file.relativePath
  }

  predicate Instrumentable(lex: Lexer, stmts: seq<Statement>) {
    forall k :: 0 <= k < |stmts| ==> LexesSegments(lex, stmts[k].body) && BodyFits(stmts[k])
  }

  /** Points of the statements from `n` on. */
  function FilePoints(lex: Lexer, stmts: seq<Statement>, n: nat, path: string, channel: string): seq<CoveragePoint>
    requires Instrumentable(lex, stmts) && n <= |stmts|
    decreases |stmts| - n
  {
    if n == |stmts| then []
    else StatementPoints(lex, stmts[n], path, channel) + FilePoints(lex, stmts, n + 1, path, channel)
  }

  function FileTexts(lex: Lexer, stmts: seq<Statement>, n: nat, path: string, channel: string): seq<string>
    requires Instrumentable(lex, stmts) && n <= |stmts|
    decreases |stmts| - n
  {
    if n == |stmts| then []
    else [StatementText(lex, stmts[n], path, channel)] + FileTexts(lex, stmts, n + 1, path, channel)
  }

  /** `strings.Join`. */
  function Join(parts: seq<string>, sep: string): string {
    if parts == [] then ""
    else if |parts| == 1 then parts[0]
    else parts[0] + sep + Join(parts[1..], sep)
  }

  method GenerateCoverageInstrument(lex: Lexer, parsed: Option<ParsedSQL>, channel: string)
    returns (r: Result<InstrumentedSQL, string>)
    requires parsed.Some? ==> Instrumentable(lex, parsed.value.statements)
    ensures r.Err? <==> parsed.None? || parsed.value.file.None?
    ensures r.Ok? ==> var file := parsed.value.file.value;
                      var path := if file.relativePath == "" then file.path else file.relativePath;
                      && r.value.original == parsed.value
                      && r.value.text == Join(FileTexts(lex, parsed.value.statements, 0, path, channel), "\n\n")
                      && r.value.locations == FilePoints(lex, parsed.value.statements, 0, path, channel)
  {
    if parsed.None? || parsed.value.file.None? {
      return Err("parsed SQL or file is nil");
    }
    var texts, locations := InstrumentAll(lex, parsed.value.statements, KeyPath(parsed.value.file.value), channel);
    r := Ok(InstrumentedSQL(parsed.value, Join(texts, "\n\n"), locations));
  }

  /** The statement loop of `GenerateCoverageInstrument`. */
  method InstrumentAll(lex: Lexer, stmts: seq<Statement>, relPath: string, channel: string)
    returns (texts: seq<string>, locations: seq<CoveragePoint>)
    requires Instrumentable(lex, stmts)
    ensures texts == FileTexts(lex, stmts, 0, relPath, channel)
    ensures locations == FilePoints(lex, stmts, 0, relPath, channel)
  {
    hide LexesSegments, BodyFits, StatementText, StatementPoints;
    texts, locations := [], [];
    ghost var allTexts := FileTexts(lex, stmts, 0, relPath, channel);
    ghost var allPoints := FilePoints(lex, stmts, 0, relPath, channel);
    for n := 0 to |stmts|
      invariant allTexts == texts + FileTexts(lex, stmts, n, relPath, channel)
      invariant allPoints == locations + FilePoints(lex, stmts, n, relPath, channel)
    {
      var stmtText, stmtPoints := InstrumentStatement(lex, stmts[n], relPath, channel);
      Concat3(texts, [stmtText], FileTexts(lex, stmts, n + 1, relPath, channel));
      Concat3(locations, stmtPoints, FilePoints(lex, stmts, n + 1, relPath, channel));
      locations, texts := locations + stmtPoints, texts + [stmtText];
    }
    assert texts + [] == texts && locations + [] == locations;
  }
}
