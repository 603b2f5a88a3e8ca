/** From the text of a statement to the program the server runs: it reads the body's constant, splits it into tokens and
    parses them. For an instrumented statement that must give the instrumented program. */
module Loading {
  import opened Basics
  import opened Segmentation
  import opened Tokens
  import opened Parser
  import opened Splicing
  import opened SignalCodec
  import opened Instrumenter
  import opened InstrumenterTheorems
  import opened Plpgsql
  import opened Staleness
  import opened Payloads
  import opened Relexing
  import opened Quoting
  import E = Meaning
  import M = Correspondence

  /** How the server parses the tokens of a function body. */
  type Grammar = seq<Lexeme> -> Option<Body>

  /** The program of the dollar-quoted body that begins at `start`. */
  function Loaded(lex: Lexer, parse: Grammar, delim: string, text: string, start: int): Option<Body> {
    if 0 <= start <= |text| then
      match InnerEnd(Dollar(delim), text[start..])
      case None => None
      case Some(n) => parse(LexemesOf(lex(text[start..][..n])))
    else None
  }

  /** Loading a function from the text of its statement and running it. */
  function RunText<S>(w: E.World<S>, lex: Lexer, parse: Grammar, delim: string, text: string, start: int, fuel: nat,
                      st: E.State<S>): Option<E.Run<S>>
  {
    match Loaded(lex, parse, delim, text, start)
    case None => None
    case Some(p) => Some(E.ExecBlock(w, Inside(p), fuel, st))
  }

  /** The server takes the original for `b`, and each signal in the instrumented text for a statement of its own. */
  predicate Parses(parse: Grammar, render: Render, b: Body)
    requires SourceBody(b)
  {
    && parse(FlattenBody(Plainly, b)) == Some(b)
    && parse(FlattenBody(render, InstrumentedBody(b))) == Some(InstrumentedBody(b))
  }

  /** A dollar-quoted PL/pgSQL function that the server reads back when it is instrumented: its tag is in no signal, and
      no signal stands behind its outer END. */
  ghost predicate Loadable(lex: Lexer, parse: Grammar, delim: string, render: Render, stmt: Statement, path: string,
                           channel: string, b: Body)
  {
    && IsProgram(lex, stmt, b) && BodyFits(stmt) && BodyInPlace(stmt)
    && DollarDelimiter(delim) && ReadsConstant(Dollar(delim), stmt.rawSQL, stmt.bodyStart, stmt.body)
    && Survives(lex, stmt, path, true, channel, Dollar(delim)) && !ClosingTag(b).SignalAfter?
    && ReadsSignals(lex, stmt, path, channel, render) && Parses(parse, render, b)
  }

  lemma LoadedConstant(lex: Lexer, parse: Grammar, delim: string, text: string, start: int, content: string)
    requires 0 <= start && ReadsConstant(Dollar(delim), text, start, content)
    ensures Loaded(lex, parse, delim, text, start) == parse(LexemesOf(lex(content)))
  {
    assert text[start..][..|content|] == content;
  }

  /** The server loads the original program from the original text, and the instrumented program from the instrumented
      text: quoting, tokens and parsing together. */
  lemma InstrumentedStatementLoads(lex: Lexer, parse: Grammar, delim: string, render: Render, stmt: Statement,
                                   path: string, channel: string, b: Body)
    requires Loadable(lex, parse, delim, render, stmt, path, channel, b)
    ensures SourceBody(b) && Loaded(lex, parse, delim, stmt.rawSQL, stmt.bodyStart) == Some(b)
    ensures LexesSegments(lex, stmt.body) && BodyFits(stmt)
    ensures Loaded(lex, parse, delim, StatementText(lex, stmt, path, channel), stmt.bodyStart)
            == Some(InstrumentedBody(b))
  {
    assert SourceBody(b) && LexesSegments(lex, stmt.body) && WellLexed(stmt.body, lex(stmt.body));
    hide LexesSegments, WellLexed, InstrumentedText, ReadsConstant, ReadsSignals, SourceBody, Survives, Loaded,
         DollarDelimiter, FlattenWith;
    var ctx := ContextOf(stmt, path, false, channel);
    var t := InstrumentedText(ctx, lex(stmt.body), true);
    LoadedConstant(lex, parse, delim, stmt.rawSQL, stmt.bodyStart, stmt.body);
    BodyReadBack(lex, stmt, path, true, false, channel, Dollar(delim));
    LoadedConstant(lex, parse, delim, BodyText(lex, stmt, path, true, false, channel), stmt.bodyStart, t);
    InstrumentedBodyLexes(lex, stmt, path, channel, b, render);
  }

  /** The instrumenter keeps the meaning of a function from text to run: what the server loads from the instrumented
      statement goes the same way as what it loads from the original, from every state, through the same statements, and
      sends a signal exactly where a segment's terminal is reached or its last statement completes. */
  lemma StatementKeepsMeaning<S(!new)>(w: E.World<S>, u: Uses, lex: Lexer, parse: Grammar, delim: string,
                                       render: Render, stmt: Statement, path: string, channel: string, b: Body,
                                       fuel: nat, st: E.State<S>)
    requires Loadable(lex, parse, delim, render, stmt, path, channel, b)
    requires Respects(w, u) && !BodyStale(u, b)
    ensures SourceBody(b) && LexesSegments(lex, stmt.body)
    ensures var original := RunText(w, lex, parse, delim, stmt.rawSQL, stmt.bodyStart, fuel, st);
            var text := StatementText(lex, stmt, path, channel);
            var instrumented := RunText(w, lex, parse, delim, text, stmt.bodyStart, fuel, st);
            && original.Some? && instrumented.Some?
            && E.Faithful(original.value, E.ExecBlock(w, Annotated(b), fuel, st), instrumented.value)
  {
    InstrumentedStatementLoads(lex, parse, delim, render, stmt, path, channel, b);
    hide Loadable, LexesSegments, SourceBody, Loaded, Respects, BodyStale;
    BodyMeaningPreserved(w, u, b, fuel, st);
  }

  // ----- all of this can be met -----

  /** B is BEGIN and E is END. */
  function ShortLetters(): Letters {
    (c: char) => match c case ';' => Semicolon case 'B' => KBegin case 'E' => KEnd case _ => Other
  }

  /** `DO $$BR;E$$` with one statement, R. */
  const SHORT := Statement("$$BR;E$$", 0, 1, 1, StmtDO, "plpgsql", "BR;E", 2)

  const SHORT_BODY :=
    Body([], Lexeme(KBegin, "B"), Do(Simple([Lexeme(Other, "R")], Untracked), Done), NoArms, [Lexeme(KEnd, "E")],
         false, [])

  const SHORT_SEGMENT := Segment(1, 2)

  lemma ShortTokens()
    ensures LexemesOf(CharacterLexer(ShortLetters())(SHORT.body)) == FlattenBody(Plainly, SHORT_BODY)
  {
    var f, s := ShortLetters(), SHORT.body;
    assert Characters(f, s, 0, 1) == [Token(KBegin, 0, "B")];
    assert Characters(f, s, 0, 2) == [Token(KBegin, 0, "B"), Token(Other, 1, "R")];
    assert Characters(f, s, 0, 3) == [Token(KBegin, 0, "B"), Token(Other, 1, "R"), Token(Semicolon, 2, ";")];
    var toks := [Token(KBegin, 0, "B"), Token(Other, 1, "R"), Token(Semicolon, 2, ";"), Token(KEnd, 3, "E")];
    assert Characters(f, s, 0, 4) == toks;
    assert LexemesOf(toks) == [Lexeme(KBegin, "B"), Lexeme(Other, "R"), SEMI, Lexeme(KEnd, "E")];
    ShortFlat();
  }

  lemma ShortFlat()
    ensures FlattenBody(Plainly, SHORT_BODY) == [Lexeme(KBegin, "B"), Lexeme(Other, "R"), SEMI, Lexeme(KEnd, "E")]
  {
    assert Flatten(Plainly, SHORT_BODY.main) == [Lexeme(Other, "R"), SEMI];
    assert FlattenArms(Plainly, Inside(SHORT_BODY)) == [Lexeme(Other, "R"), SEMI];
  }

  lemma ShortIsSource()
    ensures SourceBody(SHORT_BODY) && SegmentsOfArms(Annotated(SHORT_BODY)) == [SHORT_SEGMENT]
    ensures ClosingTag(SHORT_BODY).Untracked?
    ensures Inside(InstrumentedBody(SHORT_BODY))
            == Arm([], Do(Simple([Lexeme(Other, "R")], Untracked), Do(Signal(SHORT_SEGMENT), Done)), NoArms)
  {
    var r := [Lexeme(Other, "R")];
    assert First(r) == 0 && First([Lexeme(KEnd, "E")]) == 0 && First([]) == 0;
    E.OrdinaryWords(r, 1);
    assert SourceBody(SHORT_BODY);
    var tag := TagOf(Fresh, 1, r, TerminalWords(r));
    assert Read(Fresh, 1, []) == Fresh;
    hide First, TagOf, TerminalWords;
    assert tag == SignalAfter(SHORT_SEGMENT);
    assert Annotate(SHORT_BODY.main, 1, Fresh) == Do(Simple(r, tag), Done);
    assert SegmentsOf(Do(Simple(r, tag), Done)) == SegmentOf(tag) + [];
    assert Annotated(SHORT_BODY) == Arm([], Do(Simple(r, tag), Done), NoArms);
    InsideBody(SHORT_BODY);
    assert AfterArms(Fresh, 1, Inside(SHORT_BODY)) == Fresh;
    ShortClosing();
  }

  lemma ShortClosing()
    requires SourceBody(SHORT_BODY) && AfterArms(Fresh, 1, Inside(SHORT_BODY)) == Fresh
    ensures ClosingTag(SHORT_BODY).Untracked?
  {
    assert First([Lexeme(KEnd, "E")]) == 0;
    assert |SHORT_BODY.preamble| + 1 == 1;
  }

  lemma ShortProgram()
    requires SourceBody(SHORT_BODY) && LexesSegments(CharacterLexer(ShortLetters()), SHORT.body)
    ensures IsProgram(CharacterLexer(ShortLetters()), SHORT, SHORT_BODY) && BodyInPlace(SHORT) && BodyFits(SHORT)
  {
    hide SourceBody, LexesSegments;
    ShortTokens();
    assert SHORT.rawSQL[2..6] == SHORT.body;
  }

  lemma ShortConstant()
    ensures DollarDelimiter("$$") && ReadsConstant(Dollar("$$"), SHORT.rawSQL, SHORT.bodyStart, SHORT.body)
  {
    var s := SHORT.rawSQL[2..];
    assert s == SHORT.body + "$$";
    assert OccursAt("$$", s, 4);
    forall i: nat | i < 4 ensures !OccursAt("$$", s, i) {
      assert s[i] != '$';
      if OccursAt("$$", s, i) { CharOf("$$", s, i, i); }
    }
    FirstIs("$$", s, 4);
  }

  /** A grammar that knows one program, and its instrumented form. */
  function TwoPrograms(render: Render, b: Body): Grammar
    requires SourceBody(b)
  {
    (words: seq<Lexeme>) =>
      if words == FlattenBody(Plainly, b) then Some(b)
      else if words == FlattenBody(render, InstrumentedBody(b)) then Some(InstrumentedBody(b)) else None
  }

  lemma ShortParses(render: Render)
    requires SourceBody(SHORT_BODY) && render(SHORT_SEGMENT) != []
    ensures Parses(TwoPrograms(render, SHORT_BODY), render, SHORT_BODY)
  {
    ShortIsSource();
    ShortFlat();
    var b', r := InstrumentedBody(SHORT_BODY), [Lexeme(Other, "R")];
    var code := Do(Simple(r, Untracked), Do(Signal(SHORT_SEGMENT), Done));
    assert Flatten(render, Do(Signal(SHORT_SEGMENT), Done)) == render(SHORT_SEGMENT) + [];
    assert Flatten(render, code) == r + [SEMI] + (render(SHORT_SEGMENT) + []);
    assert |FlattenArms(render, Arm([], code, NoArms))| > 2;
    hide First, SourceBody, InstrumentedBody;
    assert |FlattenBody(render, b')| > 4;
  }

  lemma {:induction false} SomeToken(letters: Letters, text: string, k: nat)
    requires k < |text| && !IsSpace(text[k])
    ensures CharacterLexer(letters)(text) != []
  {
    assert Characters(letters, text, 0, k + 1) != [];
    CharactersSplit(letters, text, 0, k + 1, |text|);
  }

  lemma SignalHasToken(letters: Letters, chunk: string, channel: string, id: string)
    requires CarriesSignal(chunk, channel, id, false)
    ensures CharacterLexer(letters)(chunk) != []
  {
    var s := PlpgsqlSignal(channel, id);
    SignalIsTrim(channel, id);
    assert chunk == s + "\n" || chunk == "\n" + s;
    SomeToken(letters, chunk, if chunk == s + "\n" then 0 else 1);
  }

  lemma ShortRendered(path: string, channel: string)
    requires var lex := CharacterLexer(ShortLetters()); WellLexed(SHORT.body, lex(SHORT.body)) && |lex(SHORT.body)| == 4
    ensures var lex := CharacterLexer(ShortLetters());
            Spelled(lex, ContextOf(SHORT, path, false, channel), lex(SHORT.body))(SHORT_SEGMENT) != []
  {
    hide Characters, WellLexed, ChunkOf, PlaceOf;
    var lex := CharacterLexer(ShortLetters());
    var ctx, toks := ContextOf(SHORT, path, false, channel), lex(SHORT.body);
    var place := PlaceOf(Kinds(toks), SHORT_SEGMENT, false);
    assert Placed(SHORT_SEGMENT, place, |toks|) by { PlacedInside(Kinds(toks), SHORT_SEGMENT); }
    ChunkCarries(ctx, toks, SHORT_SEGMENT, place);
    SignalHasToken(ShortLetters(), ChunkOf(ctx, toks, SHORT_SEGMENT, place), channel,
                   PointOf(ctx, toks, SHORT_SEGMENT).signalID);
  }

  lemma PlacedInside(ks: seq<Kind>, seg: Segment)
    requires seg.first < seg.end <= |ks|
    ensures Placed(seg, PlaceOf(ks, seg, false), |ks|)
  {
  }

  /** What is asked of the lexer, of a program and of its signals holds together, for a dollar-quoted program with a
      signal: its instrumented statement loads, and no file or channel name but one with two dollar signs in a row
      changes that. */
  lemma AssumptionsCanBeMet(path: string, channel: string)
    requires !Occurs("$$", path) && !Occurs("$$", channel)
    ensures SourceBody(SHORT_BODY) && SegmentsOfArms(Annotated(SHORT_BODY)) == [SHORT_SEGMENT]
    ensures var lex := CharacterLexer(ShortLetters());
            && LexerContract(lex) && WellLexed(SHORT.body, lex(SHORT.body))
            && var render := Spelled(lex, ContextOf(SHORT, path, false, channel), lex(SHORT.body));
               Loadable(lex, TwoPrograms(render, SHORT_BODY), "$$", render, SHORT, path, channel, SHORT_BODY)
  {
    hide Characters, ReadsSignals, WellLexed, LexesSegments, IsProgram, SourceBody, ClosingTag, BodyInPlace, BodyFits,
         Occurs, DollarDelimiter, ReadsConstant, Parses, NothingToSignal;
    var lex := CharacterLexer(ShortLetters());
    ContractCanBeMet(ShortLetters());
    assert LexesSegments(lex, SHORT.body);
    ShortIsSource();
    ShortProgram();
    ShortConstant();
    LexedBody(lex, SHORT.body);
    CharactersReadSignals(ShortLetters(), SHORT, path, channel);
    ShortTokens();
    ShortFlat();
    assert |lex(SHORT.body)| == |LexemesOf(lex(SHORT.body))| == 4;
    ShortRendered(path, channel);
    ShortParses(Spelled(lex, ContextOf(SHORT, path, false, channel), lex(SHORT.body)));
  }
}
