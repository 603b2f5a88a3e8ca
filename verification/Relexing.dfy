/** From the instrumented text back to statements: if the lexer reads every inserted signal as tokens of its
    own, then lexing the instrumented body gives the tokens of the instrumented program. */
module Relexing {
  import opened Basics
  import opened Splicing
  import opened Segmentation
  import opened Tokens
  import opened Parser
  import opened Instrumenter
  import opened Plpgsql
  import opened Meaning
  import opened Payloads
  import M = Correspondence

  /** `at` is where token `i` begins, the end of the text, or right behind the `;` that token `i - 1` is. */
  predicate Boundary(text: string, toks: seq<Token>, at: nat, i: nat) {
    && i <= |toks| && at <= |text|
    && (at == Offset(text, toks, i) || (0 < i && toks[i - 1].kind.Semicolon? && at == toks[i - 1].pos + 1))
  }

  predicate ReadsAt(lex: Lexer, chunk: string, words: seq<Lexeme>, text: string, at: nat, i: nat)
    requires at <= |text| && i <= |lex(text)|
  {
    var toks, toks' := lex(text), lex(text[..at] + chunk + text[at..]);
    && i <= |toks'| && toks'[..i] == toks[..i]
    && LexemesOf(toks') == LexemesOf(toks)[..i] + words + LexemesOf(toks)[i..]
  }

  /** What is taken for granted about the lexer: a signal put in at a boundary, the later ones being in place,
      is read as the words `render` gives for it and changes no token before or behind. */
  predicate ReadsPlan(lex: Lexer, ctx: Context, toks: seq<Token>, plan: Plan, i: nat, render: Render)
    requires WellLexed(ctx.body, toks) && PlanInOrder(i, plan, |toks|)
    decreases plan
  {
    match plan
    case Empty => true
    case Mark(seg, place, rest) =>
      var next := Behind(seg.end, |toks|);
      EditsInOrder(ctx, toks, plan, i, 0);
      EditsInOrder(ctx, toks, rest, next, 0);
      var t, at, k := Splice(ctx.body, 0, TextEdits(ctx, toks, rest)), EditAt(ctx.body, toks, seg, place),
                      M.IndexOf(seg, place, |toks|);
      && (Boundary(t, lex(t), at, k) ==> ReadsAt(lex, ChunkOf(ctx, toks, seg, place), render(seg), t, at, k))
      && ReadsPlan(lex, ctx, toks, rest, next, render)
  }

  /** The same for all signals of a PL/pgSQL body. */
  predicate ReadsSignals(lex: Lexer, stmt: Statement, path: string, channel: string, render: Render)
    requires WellLexed(stmt.body, lex(stmt.body))
  {
    var ctx, toks := ContextOf(stmt, path, false, channel), lex(stmt.body);
    PlanOrdered(toks, true, false);
    ReadsPlan(lex, ctx, toks, PlanOf(toks, true, false), 0, render)
  }

  lemma {:induction false} LexEditsInOrder(render: Render, i: nat, plan: Plan, n: nat)
    requires PlanInOrder(i, plan, n)
    ensures InOrder(i, M.LexEdits(render, plan, n), n)
    decreases plan
  {
    if plan.Mark? {
      var next := Behind(plan.seg.end, n);
      LexEditsInOrder(render, next, plan.rest, n);
      M.InOrderFrom(M.IndexOf(plan.seg, plan.place, n), next, M.LexEdits(render, plan.rest, n), n);
    }
  }

  /** The text `t` has the tokens of `body` with `edits` carried out, and those before index `m` unchanged. */
  ghost predicate Lexed(lex: Lexer, t: string, toks: seq<Token>, edits: Edits<Lexeme>, m: nat) {
    && m <= |toks| && InOrder(m, edits, |toks|)
    && m <= |lex(t)| && lex(t)[..m] == toks[..m]
    && LexemesOf(lex(t)) == LexemesOf(toks)[..m] + Splice(LexemesOf(toks), m, edits)
  }

  /** Where a signal goes is a boundary of the original text, and stays one as long as the tokens before it,
      and the one it is put in front of, are unchanged. */
  lemma StaysBoundary(lex: Lexer, body: string, toks: seq<Token>, t: string, seg: Segment, place: Placement, m: nat)
    requires WellLexed(body, toks) && Placed(seg, place, |toks|) && SegmentEnd(toks, seg.end)
    requires m == Behind(seg.end, |toks|) && m <= |lex(t)| && lex(t)[..m] == toks[..m]
    requires EditAt(body, toks, seg, place) <= |t|
    requires place.After? && seg.end == |toks| ==> t == body && lex(t) == toks
    ensures Boundary(t, lex(t), EditAt(body, toks, seg, place), M.IndexOf(seg, place, |toks|))
  {
    assert forall k :: 0 <= k < m ==> lex(t)[k] == lex(t)[..m][k] == toks[..m][k] == toks[k];
  }

  lemma InsertedLexemes(xs: seq<Lexeme>, m: nat, i: nat, k: nat, words: seq<Lexeme>, rest: Edits<Lexeme>,
                         ys: seq<Lexeme>)
    requires m <= i <= k && InOrder(k, rest, |xs|) && ys == xs[..k] + Splice(xs, k, rest)
    ensures InOrder(m, Insert(i, words, rest), |xs|) && i <= |ys|
    ensures ys[..i] + words + ys[i..] == xs[..m] + Splice(xs, m, Insert(i, words, rest))
  {
    SpliceCopies(xs, i, k, rest);
    assert ys[..i] == xs[..i] == xs[..m] + xs[m..i];
    assert ys[i..] == xs[i..k] + Splice(xs, k, rest);
    Concat4(xs[..m], xs[m..i], words, Splice(xs, i, rest));
  }

  /** One more signal, in front of those already carried out. */
  lemma OneMoreSignal(lex: Lexer, t: string, toks: seq<Token>, rest: Edits<Lexeme>, k: nat, at: nat, i: nat, m: nat,
                      chunk: string, words: seq<Lexeme>)
    requires Lexed(lex, t, toks, rest, k) && m <= i <= k
    requires Boundary(t, lex(t), at, i) && ReadsAt(lex, chunk, words, t, at, i)
    ensures Lexed(lex, t[..at] + chunk + t[at..], toks, Insert(i, words, rest), m)
  {
    var t' := t[..at] + chunk + t[at..];
    InsertedLexemes(LexemesOf(toks), m, i, k, words, rest, LexemesOf(lex(t)));
    assert lex(t')[..m] == lex(t')[..i][..m] == lex(t)[..i][..m] == lex(t)[..k][..m] == toks[..k][..m] == toks[..m];
  }

  /** Segments end at a `;` or at the end. */
  predicate PlanEnds(toks: seq<Token>, plan: Plan) {
    match plan
    case Empty => true
    case Mark(seg, _, rest) => SegmentEnd(toks, seg.end) && PlanEnds(toks, rest)
  }

  lemma {:induction false} PlanFromEnds(toks: seq<Token>, i: nat, pending: Option<nat>, sqlMode: bool)
    requires Pending(Kinds(toks), i, pending)
    ensures PlanEnds(toks, PlanFrom(Kinds(toks), i, pending, sqlMode))
    decreases |toks| - i
  {
    var ks := Kinds(toks);
    if i < |ks| {
      if ks[i].Semicolon? {
        PlanFromEnds(toks, i + 1, None, sqlMode);
      } else {
        PlanFromEnds(toks, i + 1, if ks[i].Comment? || pending.Some? then pending else Some(i), sqlMode);
      }
    }
  }

  lemma {:induction false} SplicedLexes(lex: Lexer, ctx: Context, toks: seq<Token>, plan: Plan, i: nat, render: Render)
    requires WellLexed(ctx.body, toks) && toks == lex(ctx.body) && PlanInOrder(i, plan, |toks|)
    requires PlanFits(plan, |toks|) && PlanEnds(toks, plan) && ReadsPlan(lex, ctx, toks, plan, i, render)
    ensures InOrder(0, TextEdits(ctx, toks, plan), |ctx.body|)
    ensures Lexed(lex, Splice(ctx.body, 0, TextEdits(ctx, toks, plan)), toks, M.LexEdits(render, plan, |toks|), i)
    decreases plan
  {
    var n, body := |toks|, ctx.body;
    EditsInOrder(ctx, toks, plan, i, 0);
    LexEditsInOrder(render, i, plan, n);
    match plan
    case Empty =>
      assert LexemesOf(toks) == LexemesOf(toks)[..i] + LexemesOf(toks)[i..];
      assert body[0..] == body;
    case Mark(seg, place, rest) =>
      var next, at := Behind(seg.end, n), EditAt(body, toks, seg, place);
      SplicedLexes(lex, ctx, toks, rest, next, render);
      var edits, t := TextEdits(ctx, toks, rest), Splice(body, 0, TextEdits(ctx, toks, rest));
      EditInside(body, toks, seg, place);
      EditsInOrder(ctx, toks, rest, next, at);
      SpliceCopies(body, 0, at, edits);
      assert t[..at] == body[0..at] && t[at..] == Splice(body, at, edits);
      if place.After? && seg.end == n { NothingBehind(ctx, toks, rest); }
      StaysBoundary(lex, body, toks, t, seg, place, next);
      OneMoreSignal(lex, t, toks, M.LexEdits(render, rest, n), next, at, M.IndexOf(seg, place, n), i,
                    ChunkOf(ctx, toks, seg, place), render(seg));
  }

  /** No segment lies behind the end. */
  lemma NothingBehind(ctx: Context, toks: seq<Token>, plan: Plan)
    requires WellLexed(ctx.body, toks) && PlanInOrder(|toks|, plan, |toks|) && PlanFits(plan, |toks|)
    ensures plan == Empty && Splice(ctx.body, 0, TextEdits(ctx, toks, plan)) == ctx.body
  {
  }

  /** Lexing an instrumented PL/pgSQL body gives the tokens of the instrumented program, and behind its outer END
      whatever `Trailing` says. */
  lemma InstrumentedBodyLexes(lex: Lexer, stmt: Statement, path: string, channel: string, b: Body, render: Render)
    requires IsProgram(lex, stmt, b) && ReadsSignals(lex, stmt, path, channel, render)
    ensures LexemesOf(lex(InstrumentedText(ContextOf(stmt, path, false, channel), lex(stmt.body), true)))
            == FlattenWith(render, InstrumentedBody(b), M.Trailing(render, b))
  {
    var ctx, toks := ContextOf(stmt, path, false, channel), lex(stmt.body);
    var plan := PlanOf(toks, true, false);
    SameKinds(toks);
    PlanOrdered(toks, true, false);
    PlanFromEnds(toks, AfterBegin(Kinds(toks), 0), None, false);
    SplicedLexes(lex, ctx, toks, plan, 0, render);
    M.BodyCorrespondence(render, b);
    var xs := LexemesOf(toks);
    assert M.LexEdits(render, plan, |toks|) == M.BodyLexEdits(render, xs);
    assert xs[..0] + Splice(xs, 0, M.BodyLexEdits(render, xs)) == Splice(xs, 0, M.BodyLexEdits(render, xs));
  }

  // ----- the assumptions can be met -----

  /** The words of each segment's own chunk. */
  function Spelled(lex: Lexer, ctx: Context, toks: seq<Token>): Render
    requires WellLexed(ctx.body, toks)
  {
    (seg: Segment) =>
      if Fits(toks, seg) then LexemesOf(lex(ChunkOf(ctx, toks, seg, PlaceOf(Kinds(toks), seg, false)))) else []
  }

  lemma ShiftedWords(part: seq<Token>, whole: seq<Token>, cut: nat)
    requires AllShifted(part, whole, cut)
    ensures LexemesOf(part) == LexemesOf(whole)
  {
    forall k | 0 <= k < |part| ensures LexemesOf(part)[k] == LexemesOf(whole)[k] {
      assert Shifted(part[k], whole[k], cut);
    }
  }

  /** The words of a part of a text are those of the part as a text of its own. */
  lemma PartWords(letters: Letters, text: string, from: nat, end: nat)
    requires from <= end <= |text|
    ensures LexemesOf(Characters(letters, text, from, end)) == LexemesOf(CharacterLexer(letters)(text[from..end]))
  {
    hide Characters, LexemesOf, AllShifted;
    assert |text[from..end]| == end - from;
    CharactersOfSlice(letters, text, from, end, end);
    ShiftedWords(Characters(letters, text[from..end], 0, end - from), Characters(letters, text, from, end), from);
  }

  lemma WordsConcat(a: seq<Token>, b: seq<Token>)
    ensures LexemesOf(a + b) == LexemesOf(a) + LexemesOf(b)
  {
  }

  /** The tokens in front of an offset depend on the text in front of it only. */
  lemma {:induction false} SamePrefix(letters: Letters, s: string, t: string, at: nat)
    requires at <= |s| && at <= |t| && s[..at] == t[..at]
    ensures Characters(letters, s, 0, at) == Characters(letters, t, 0, at)
    decreases at
  {
    if at > 0 {
      assert s[..at][..at - 1] == s[..at - 1] && t[..at][..at - 1] == t[..at - 1];
      assert s[at - 1] == s[..at][at - 1] == t[..at][at - 1] == t[at - 1];
      SamePrefix(letters, s, t, at - 1);
    }
  }

  /** A chunk put in at any offset is read as its own characters. */
  lemma ChunkRead(letters: Letters, text: string, at: nat, chunk: string)
    requires at <= |text|
    ensures var lex, i := CharacterLexer(letters), |Characters(letters, text, 0, at)|;
            i <= |lex(text)| && ReadsAt(lex, chunk, LexemesOf(lex(chunk)), text, at, i)
  {
    hide Characters;
    var lex, text' := CharacterLexer(letters), text[..at] + chunk + text[at..];
    var n, n', behind := |text|, |text'|, at + |chunk|;
    CharactersSplit(letters, text, 0, at, n);
    CharactersSplit(letters, text', 0, at, n');
    CharactersSplit(letters, text', at, behind, n');
    InsertedText(text, at, chunk);
    SamePrefix(letters, text, text', at);
    PartWords(letters, text', at, behind);
    PartWords(letters, text', behind, n');
    PartWords(letters, text, at, n);
    ReadAround(lex(text), lex(text'), Characters(letters, text, 0, at), Characters(letters, text', at, behind),
               Characters(letters, text', behind, n'), Characters(letters, text, at, n), LexemesOf(lex(chunk)));
  }

  /** Tokens in front that stay, tokens of a chunk, and tokens behind that keep their words. */
  lemma ReadAround(toks: seq<Token>, toks': seq<Token>, head: seq<Token>, a: seq<Token>, b': seq<Token>, b: seq<Token>,
                   words: seq<Lexeme>)
    requires toks == head + b && toks' == head + (a + b') && LexemesOf(b') == LexemesOf(b) && LexemesOf(a) == words
    ensures var i := |head|;
            && i <= |toks| && i <= |toks'| && toks'[..i] == toks[..i]
            && LexemesOf(toks') == LexemesOf(toks)[..i] + words + LexemesOf(toks)[i..]
  {
    hide LexemesOf;
    WordsConcat(head, a + b');
    WordsConcat(a, b');
    WordsConcat(head, b);
    Concat3(LexemesOf(head), words, LexemesOf(b));
  }

  lemma InsertedText(text: string, at: nat, chunk: string)
    requires at <= |text|
    ensures var text', behind := text[..at] + chunk + text[at..], at + |chunk|;
            && text'[..at] == text[..at] && text'[at..behind] == chunk && text'[behind..|text'|] == text[at..|text|]
  {
  }

  /** At a boundary there are as many tokens in front as the boundary says. */
  lemma BoundaryIndex(letters: Letters, text: string, at: nat, i: nat)
    requires Boundary(text, CharacterLexer(letters)(text), at, i)
    ensures |Characters(letters, text, 0, at)| == i
  {
    var n, toks := |text|, Characters(letters, text, 0, |text|);
    if at == Offset(text, toks, i) {
      if i < |toks| { CharactersBefore(letters, text, n, i); }
    } else {
      CharactersBefore(letters, text, n, i - 1);
      CharactersFit(letters, text, 0, n);
      assert SingleCharacter(letters, text, toks[i - 1], 0, n);
    }
  }

  /** Every signal has the place its segment calls for. */
  predicate PlacesOf(ks: seq<Kind>, plan: Plan) {
    match plan
    case Empty => true
    case Mark(seg, place, rest) =>
      seg.first < seg.end <= |ks| && place == PlaceOf(ks, seg, false) && PlacesOf(ks, rest)
  }

  lemma {:induction false} PlanFromPlaces(ks: seq<Kind>, i: nat, pending: Option<nat>)
    requires Pending(ks, i, pending)
    ensures PlacesOf(ks, PlanFrom(ks, i, pending, false))
    decreases |ks| - i
  {
    hide PlaceOf;
    if i < |ks| {
      PlanFromPlaces(ks, i + 1, if ks[i].Semicolon? then None
                                else if ks[i].Comment? || pending.Some? then pending else Some(i));
    }
  }

  lemma {:induction false} CharactersReadPlan(letters: Letters, ctx: Context, toks: seq<Token>, plan: Plan, i: nat)
    requires WellLexed(ctx.body, toks) && PlanInOrder(i, plan, |toks|) && PlacesOf(Kinds(toks), plan)
    ensures ReadsPlan(CharacterLexer(letters), ctx, toks, plan, i, Spelled(CharacterLexer(letters), ctx, toks))
    decreases plan
  {
    match plan
    case Empty =>
    case Mark(seg, place, rest) =>
      hide Characters, ChunkOf, ReadsAt, WellLexed, PlaceOf, Boundary;
      var lex, next := CharacterLexer(letters), Behind(seg.end, |toks|);
      EditsInOrder(ctx, toks, plan, i, 0);
      EditsInOrder(ctx, toks, rest, next, 0);
      CharactersReadPlan(letters, ctx, toks, rest, next);
      var t, at, k := Splice(ctx.body, 0, TextEdits(ctx, toks, rest)), EditAt(ctx.body, toks, seg, place),
                      M.IndexOf(seg, place, |toks|);
      if Boundary(t, lex(t), at, k) {
        hide Splice, TextEdits;
        BoundaryIndex(letters, t, at, k);
        AtMost(t, lex(t), at, k);
        ChunkRead(letters, t, at, ChunkOf(ctx, toks, seg, place));
      }
  }

  lemma AtMost(text: string, toks: seq<Token>, at: nat, i: nat)
    requires Boundary(text, toks, at, i)
    ensures at <= |text| && i <= |toks|
  {
  }

  /** The character lexers read every signal of every body as tokens of its own. */
  lemma CharactersReadSignals(letters: Letters, stmt: Statement, path: string, channel: string)
    requires WellLexed(stmt.body, CharacterLexer(letters)(stmt.body))
    ensures var lex := CharacterLexer(letters);
            ReadsSignals(lex, stmt, path, channel, Spelled(lex, ContextOf(stmt, path, false, channel), lex(stmt.body)))
  {
    hide Characters, WellLexed;
    var toks := CharacterLexer(letters)(stmt.body);
    PlanFromPlaces(Kinds(toks), AfterBegin(Kinds(toks), 0), None);
    PlanOrdered(toks, true, false);
    CharactersReadPlan(letters, ContextOf(stmt, path, false, channel), toks, PlanOf(toks, true, false), 0);
  }
}
