/** The token-level plan of Segmentation, carried out on a program's tokens, is the statement-level
    instrumentation of Plpgsql. */
module Correspondence {
  import opened Basics
  import opened Splicing
  import opened Segmentation
  import opened Plpgsql

  /** Token index in front of which a signal goes. */
  function IndexOf(seg: Segment, place: Placement, n: nat): nat {
    match place
    case Before(k) => k
    case After => Behind(seg.end, n)
  }

  /** The plan as edits of the token list. */
  function LexEdits(render: Render, plan: Plan, n: nat): Edits<Lexeme> {
    match plan
    case Empty => NoEdits
    case Mark(seg, place, rest) => Insert(IndexOf(seg, place, n), render(seg), LexEdits(render, rest, n))
  }

  function PendingOf(o: Open): Option<nat> {
    if o.Fresh? then None else Some(o.first)
  }

  /** State of the token loop at `i` in agreement with `o`: since the segment began, plain tokens only. */
  predicate At(toks: seq<Lexeme>, i: nat, o: Open) {
    && i <= |toks|
    && (o.Opened? ==> o.first < i && o.kind == toks[o.first].kind
                      && forall k :: o.first <= k < i ==> Plain(toks[k].kind))
  }

  /** What the loop still injects from `i` on. */
  function Rest(render: Render, toks: seq<Lexeme>, i: nat, o: Open): Edits<Lexeme>
    requires At(toks, i, o)
  {
    LexEdits(render, PlanFrom(KindsOf(toks), i, PendingOf(o), false), |toks|)
  }

  predicate Have(toks: seq<Lexeme>, i: nat, part: seq<Lexeme>) {
    i + |part| <= |toks| && toks[i..i + |part|] == part
  }

  lemma HaveParts(toks: seq<Lexeme>, i: nat, a: seq<Lexeme>, b: seq<Lexeme>)
    requires Have(toks, i, a + b)
    ensures Have(toks, i, a) && Have(toks, i + |a|, b)
  {
    var ab := a + b;
    assert forall k :: 0 <= k < |ab| ==> toks[i + k] == ab[k];
    assert forall k :: 0 <= k < |a| ==> toks[i + k] == a[k];
    assert forall k :: 0 <= k < |b| ==> toks[i + |a| + k] == ab[|a| + k] == b[k];
  }

  lemma HaveAt(toks: seq<Lexeme>, i: nat, part: seq<Lexeme>, k: nat)
    requires Have(toks, i, part) && k < |part|
    ensures toks[i + k] == part[k]
  {
    assert toks[i..i + |part|][k] == toks[i + k];
  }

  /** The loop passes over tokens that are no `;`; the segment begins with the first that is no comment. */
  lemma {:induction false} PlanSkips(ks: seq<Kind>, i: nat, e: nat, pending: Option<nat>)
    requires i <= e <= |ks| && Pending(ks, i, pending)
    requires forall k :: i <= k < e ==> !ks[k].Semicolon?
    ensures var j := NextSignificant(ks, i, e);
            PlanFrom(ks, i, pending, false)
            == PlanFrom(ks, e, if pending.Some? || j == e then pending else Some(j), false)
    decreases e - i
  {
    if i < e {
      PlanSkips(ks, i + 1, e, if pending.Some? || ks[i].Comment? then pending else Some(i));
    }
  }

  lemma {:induction false} NoTerminal(ks: seq<Kind>, i: nat, m: nat, e: nat)
    requires i <= m <= e <= |ks| && forall k :: i <= k < m ==> Plain(ks[k])
    ensures FindTerminal(ks, i, e) == FindTerminal(ks, m, e)
    decreases m - i
  {
    if i < m {
      NoTerminal(ks, i + 1, m, e);
    }
  }

  lemma WordsSlice(toks: seq<Lexeme>, i: nat, words: seq<Lexeme>)
    requires Have(toks, i, words)
    ensures IsSlice(KindsOf(words), KindsOf(toks), i)
    ensures NextSignificant(KindsOf(toks), i, i + |words|) == i + First(words)
  {
    forall k | 0 <= k < |words| ensures KindsOf(words)[k] == KindsOf(toks)[i + k] {
      HaveAt(toks, i, words, k);
    }
    NextSignificantInSlice(KindsOf(words), KindsOf(toks), i, 0);
  }

  lemma TerminalAtHead(words: seq<Lexeme>)
    requires EndWords(words)
    ensures FindTerminal(KindsOf(words), 0, |words|) == if TerminalWords(words) then Some(0) else None
  {
    var ks, e := KindsOf(words), |words|;
    assert forall k :: 1 <= k < e ==> Plain(ks[k]);
    NoTerminal(ks, 1, e, e);
    var j := NextSignificant(ks, 1, e);
    if ks[0].KRaise? && j < e {
      NoTerminal(ks, j + 1, e, e);
    }
  }

  /** Where the terminal of a segment sits: at the head of its last statement or nowhere. */
  lemma TerminalOfWords(toks: seq<Lexeme>, p: nat, i: nat, words: seq<Lexeme>)
    requires Have(toks, i, words) && EndWords(words) && p <= i + |words|
    requires forall k :: p <= k < i ==> Plain(toks[k].kind)
    requires p > i ==> AllPlain(words)
    ensures FindTerminal(KindsOf(toks), p, i + |words|) == if TerminalWords(words) then Some(i) else None
  {
    hide FindTerminal, First;
    var ks, e := KindsOf(toks), i + |words|;
    WordsSlice(toks, i, words);
    TerminalAtHead(words);
    if p <= i {
      hide EndWords, IsSlice, Have;
      NoTerminal(ks, p, i, e);
      FindTerminalInSlice(KindsOf(words), ks, i, 0);
    } else {
      NoTerminalPast(toks, p, i, words);
    }
  }

  lemma NoTerminalPast(toks: seq<Lexeme>, p: nat, i: nat, words: seq<Lexeme>)
    requires Have(toks, i, words) && i < p <= i + |words| && EndWords(words) && AllPlain(words)
    ensures FindTerminal(KindsOf(toks), p, i + |words|) == None && !TerminalWords(words)
  {
    hide FindTerminal;
    var ks, e := KindsOf(toks), i + |words|;
    forall k | p <= k < e ensures Plain(ks[k]) { HaveAt(toks, i, words, k - i); }
    NoTerminal(ks, p, e, e);
    assert Plain(words[0].kind);
  }

  function Tagged(render: Render, tag: Tag, part: seq<Lexeme>): seq<Lexeme> {
    match tag
    case Untracked => part
    case SignalBefore(seg) => render(seg) + part
    case SignalAfter(seg) => part + render(seg)
  }

  function TagEdits(render: Render, tag: Tag, i: nat, j: nat, rest: Edits<Lexeme>): Edits<Lexeme> {
    match tag
    case Untracked => rest
    case SignalBefore(seg) => Insert(i, render(seg), rest)
    case SignalAfter(seg) => Insert(j, render(seg), rest)
  }

  lemma SpliceTag(render: Render, toks: seq<Lexeme>, tag: Tag, i: nat, j: nat, rest: Edits<Lexeme>)
    requires i <= j && InOrder(j, rest, |toks|)
    ensures InOrder(i, TagEdits(render, tag, i, j, rest), |toks|)
    ensures Splice(toks, i, TagEdits(render, tag, i, j, rest))
            == Tagged(render, tag, toks[i..j]) + Splice(toks, j, rest)
  {
    SpliceCopies(toks, i, j, rest);
    var tail := Splice(toks, j, rest);
    match tag
    case Untracked =>
    case SignalBefore(seg) =>
      assert toks[i..i] + render(seg) == render(seg);
      Concat3(render(seg), toks[i..j], tail);
    case SignalAfter(seg) =>
      SpliceCopies(toks, j, j, rest);
  }

  lemma SegmentPlan(ks: seq<Kind>, i: nat, e: nat, pending: Option<nat>, first: nat)
    requires i < e < |ks| && ks[e].Semicolon? && Pending(ks, i, pending)
    requires first == if pending.Some? then pending.value else NextSignificant(ks, i, e)
    requires first < e && forall k :: i <= k < e ==> !ks[k].Semicolon?
    ensures PlanFrom(ks, i, pending, false) == EmitPlan(ks, first, e, false, PlanFrom(ks, e + 1, None, false))
  {
    PlanSkips(ks, i, e, pending);
  }

  function PlanAt(toks: seq<Lexeme>, i: nat, o: Open): Plan
    requires At(toks, i, o)
  {
    PlanFrom(KindsOf(toks), i, PendingOf(o), false)
  }

  function TagPlan(tag: Tag, i: nat, tail: Plan): Plan {
    match tag
    case Untracked => tail
    case SignalBefore(seg) => Mark(seg, Before(i), tail)
    case SignalAfter(seg) => Mark(seg, After, tail)
  }

  /** A statement's last words at `i` and the `;` behind them: the loop emits the segment they end. */
  lemma SegmentEnds(toks: seq<Lexeme>, i: nat, o: Open, words: seq<Lexeme>)
    requires At(toks, i, o) && EndWords(words) && Have(toks, i, words + [SEMI])
    ensures var e := i + |words|;
            && At(toks, e + 1, Fresh)
            && PlanAt(toks, i, o) == TagPlan(TagOf(o, i, words, TerminalWords(words)), i, PlanAt(toks, e + 1, Fresh))
  {
    hide First, KindsOf, NextSignificant, FindTerminal;
    var ks, e := KindsOf(toks), i + |words|;
    HaveParts(toks, i, words, [SEMI]);
    WordsKinds(toks, i, words);
    WordsSlice(toks, i, words);
    var start := Read(o, i, words);
    SegmentPlan(ks, i, e, PendingOf(o), start.first);
    HeadComment(words);
    TerminalOfWords(toks, start.first, i, words);
    var tail := PlanFrom(ks, e + 1, None, false);
    assert EmitPlan(ks, start.first, e, false, tail) == TagPlan(TagOf(o, i, words, TerminalWords(words)), i, tail);
  }

  /** Words that begin with a comment are plain throughout. */
  lemma HeadComment(words: seq<Lexeme>)
    requires EndWords(words)
    ensures First(words) > 0 ==> AllPlain(words)
  {
    if First(words) > 0 { assert words[0].kind.Comment?; }
  }

  lemma WordsKinds(toks: seq<Lexeme>, i: nat, words: seq<Lexeme>)
    requires EndWords(words) && Have(toks, i, words) && Have(toks, i + |words|, [SEMI])
    ensures var ks, e := KindsOf(toks), i + |words|;
            && ks[i + First(words)] == words[First(words)].kind && ks[e].Semicolon?
            && forall k :: i <= k < e ==> !ks[k].Semicolon?
  {
    var ks, e := KindsOf(toks), i + |words|;
    HaveAt(toks, e, [SEMI], 0);
    HaveAt(toks, i, words, First(words));
    forall k | i <= k < e
      ensures !ks[k].Semicolon?
    {
      HaveAt(toks, i, words, k - i);
    }
  }

  lemma LexEditsOfTag(render: Render, tag: Tag, i: nat, j: nat, tail: Plan, n: nat)
    requires tag.SignalAfter? ==> Behind(tag.seg.end, n) == j
    ensures LexEdits(render, TagPlan(tag, i, tail), n) == TagEdits(render, tag, i, j, LexEdits(render, tail, n))
  {
  }

  lemma InOrderFrom(from: nat, to: nat, edits: Edits<Lexeme>, n: nat)
    requires from <= to && InOrder(to, edits, n)
    ensures InOrder(from, edits, n)
  {
  }

  /** The edits still to come lie behind `q` if the segment being read has plain tokens only before `q`. */
  lemma {:induction false} AheadOf(render: Render, ks: seq<Kind>, i: nat, pending: Option<nat>, q: nat)
    requires Pending(ks, i, pending) && q <= i
    requires pending.Some? ==> pending.value <= q && forall k :: pending.value <= k < q ==> Plain(ks[k])
    ensures InOrder(q, LexEdits(render, PlanFrom(ks, i, pending, false), |ks|), |ks|)
    decreases |ks| - i
  {
    if i < |ks| {
      if ks[i].Semicolon? {
        AheadOf(render, ks, i + 1, None, i + 1);
        InOrderFrom(q, i + 1, LexEdits(render, PlanFrom(ks, i + 1, None, false), |ks|), |ks|);
        if pending.Some? { NoTerminal(ks, pending.value, q, i); }
      } else if ks[i].Comment? || pending.Some? {
        AheadOf(render, ks, i + 1, pending, q);
      } else {
        AheadOf(render, ks, i + 1, Some(i), i);
        InOrderFrom(q, i, LexEdits(render, PlanFrom(ks, i + 1, Some(i), false), |ks|), |ks|);
      }
    } else if pending.Some? {
      NoTerminal(ks, pending.value, q, i);
    }
  }

  /** The instrumented token list from `i` on. */
  function Onward(render: Render, toks: seq<Lexeme>, i: nat, o: Open): seq<Lexeme>
    requires At(toks, i, o)
  {
    AheadOf(render, KindsOf(toks), i, PendingOf(o), i);
    Splice(toks, i, Rest(render, toks, i, o))
  }

  /** Between `i` and `j` the instrumented token list is `part`. */
  predicate Yields(render: Render, toks: seq<Lexeme>, i: nat, o: Open, part: seq<Lexeme>, j: nat, o': Open) {
    && At(toks, i, o) && At(toks, j, o')
    && Onward(render, toks, i, o) == part + Onward(render, toks, j, o')
  }

  lemma YieldsNothing(render: Render, toks: seq<Lexeme>, i: nat, o: Open)
    requires At(toks, i, o)
    ensures Yields(render, toks, i, o, [], i, o)
  {
    var tail := Onward(render, toks, i, o);
    assert [] + tail == tail;
  }

  lemma YieldsTrans(render: Render, toks: seq<Lexeme>, i: nat, o: Open, a: seq<Lexeme>, j: nat, o': Open,
                    b: seq<Lexeme>, k: nat, o'': Open)
    requires Yields(render, toks, i, o, a, j, o') && Yields(render, toks, j, o', b, k, o'')
    ensures Yields(render, toks, i, o, a + b, k, o'')
  {
    Concat3(a, b, Onward(render, toks, k, o''));
  }

  lemma WordsEdits(render: Render, toks: seq<Lexeme>, i: nat, o: Open, words: seq<Lexeme>)
    requires At(toks, i, o) && EndWords(words) && Have(toks, i, words + [SEMI])
    ensures var j := i + |words| + 1;
            && At(toks, j, Fresh)
            && Rest(render, toks, i, o)
               == TagEdits(render, TagOf(o, i, words, TerminalWords(words)), i, j, Rest(render, toks, j, Fresh))
  {
    hide FindTerminal, KindsOf, First;
    SegmentEnds(toks, i, o, words);
    var j := i + |words| + 1;
    LexEditsOfTag(render, TagOf(o, i, words, TerminalWords(words)), i, j, PlanAt(toks, j, Fresh), |toks|);
  }

  lemma WordsYield(render: Render, toks: seq<Lexeme>, i: nat, o: Open, words: seq<Lexeme>)
    requires At(toks, i, o) && EndWords(words) && Have(toks, i, words + [SEMI])
    ensures Yields(render, toks, i, o, Tagged(render, TagOf(o, i, words, TerminalWords(words)), words + [SEMI]),
                   i + |words| + 1, Fresh)
  {
    hide TagOf, TerminalWords, PlanFrom, FindTerminal, TagEdits, Tagged, KindsOf;
    WordsEdits(render, toks, i, o, words);
    var j := i + |words| + 1;
    AheadOf(render, KindsOf(toks), j, None, j);
    SpliceTag(render, toks, TagOf(o, i, words, TerminalWords(words)), i, j, Rest(render, toks, j, Fresh));
  }

  /** Reading plain words keeps the loop's state in agreement. */
  lemma HeaderAt(toks: seq<Lexeme>, i: nat, o: Open, header: seq<Lexeme>)
    requires At(toks, i, o) && AllPlain(header) && Have(toks, i, header)
    ensures At(toks, i + |header|, Read(o, i, header))
    ensures forall k :: i <= k < i + |header| ==> Plain(KindsOf(toks)[k])
  {
    forall k | i <= k < i + |header| ensures Plain(toks[k].kind) {
      HaveAt(toks, i, header, k - i);
    }
    if First(header) < |header| { HaveAt(toks, i, header, First(header)); }
  }

  lemma HeaderPlan(toks: seq<Lexeme>, i: nat, o: Open, header: seq<Lexeme>)
    requires At(toks, i, o) && AllPlain(header) && Have(toks, i, header)
    ensures var j, o' := i + |header|, Read(o, i, header);
            At(toks, j, o') && PlanAt(toks, i, o) == PlanAt(toks, j, o')
  {
    hide KindsOf, First, FindTerminal;
    HeaderAt(toks, i, o, header);
    WordsSlice(toks, i, header);
    PlanSkips(KindsOf(toks), i, i + |header|, PendingOf(o));
  }

  lemma HeaderYields(render: Render, toks: seq<Lexeme>, i: nat, o: Open, header: seq<Lexeme>)
    requires At(toks, i, o) && AllPlain(header) && Have(toks, i, header)
    ensures Yields(render, toks, i, o, header, i + |header|, Read(o, i, header))
  {
    HeaderPlan(toks, i, o, header);
    var j, o' := i + |header|, Read(o, i, header);
    AheadOf(render, KindsOf(toks), j, PendingOf(o'), j);
    SpliceCopies(toks, i, j, Rest(render, toks, j, o'));
  }

  // ----- structure -----

  lemma FlattenWithSignal(render: Render, s: Stmt, tag: Tag, rest: Code)
    ensures Flatten(render, WithSignal(s, tag, rest))
            == Tagged(render, tag, FlattenStmt(render, s)) + Flatten(render, rest)
  {
    match tag
    case Untracked =>
    case SignalBefore(seg) =>
      Concat3(render(seg), FlattenStmt(render, s), Flatten(render, rest));
    case SignalAfter(seg) =>
      assert Flatten(render, Do(Signal(seg), rest)) == render(seg) + Flatten(render, rest);
      Concat3(FlattenStmt(render, s), render(seg), Flatten(render, rest));
  }

  /** One instrumented statement and the instrumented statements behind it. */
  lemma DoYields(render: Render, toks: seq<Lexeme>, i: nat, o: Open, part: seq<Lexeme>, s: Stmt, m: nat, om: Open,
                 rest: Code, j: nat, o': Open)
    requires part == Tagged(render, TagIn(s), FlattenStmt(render, InstrumentStmt(s)))
    requires Yields(render, toks, i, o, part, m, om)
    requires Yields(render, toks, m, om, Flatten(render, Instrument(rest)), j, o')
    ensures Yields(render, toks, i, o, Flatten(render, Instrument(Do(s, rest))), j, o')
  {
    FlattenWithSignal(render, InstrumentStmt(s), TagIn(s), Instrument(rest));
    YieldsTrans(render, toks, i, o, part, m, om, Flatten(render, Instrument(rest)), j, o');
  }

  /** The parts of a compound statement and the words that close it. */
  lemma CompoundYields(render: Render, toks: seq<Lexeme>, i: nat, o: Open, inner: seq<Lexeme>, m: nat, o': Open,
                       last: seq<Lexeme>, tag: Tag, j: nat)
    requires !tag.SignalBefore?
    requires Yields(render, toks, i, o, inner, m, o')
    requires Yields(render, toks, m, o', Tagged(render, tag, last), j, Fresh)
    ensures Yields(render, toks, i, o, Tagged(render, tag, inner + last), j, Fresh)
  {
    YieldsTrans(render, toks, i, o, inner, m, o', Tagged(render, tag, last), j, Fresh);
    if tag.SignalAfter? {
      Concat3(inner, last, render(tag.seg));
    }
  }

  lemma {:induction false} CodeYields(render: Render, toks: seq<Lexeme>, i: nat, o: Open, code: Code,
                                      code': Code, part: seq<Lexeme>, j: nat, o': Open)
    requires Source(code) && At(toks, i, o) && Have(toks, i, Flatten(Plainly, code))
    requires code' == Annotate(code, i, o) && part == Flatten(render, Instrument(code'))
    requires j == i + LengthOf(code) && o' == AfterCode(o, code)
    ensures Yields(render, toks, i, o, part, j, o')
    decreases code
  {
    hide Onward, At, Have;
    match code
    case Done =>
      YieldsNothing(render, toks, i, o);
    case Do(s, rest) =>
      var m, om := i + |FlattenStmt(Plainly, s)|, AfterStmt(o, s);
      HaveParts(toks, i, FlattenStmt(Plainly, s), Flatten(Plainly, rest));
      var s', rest' := AnnotateStmt(s, i, o), Annotate(rest, m, om);
      var here, more := Tagged(render, TagIn(s'), FlattenStmt(render, InstrumentStmt(s'))),
                        Flatten(render, Instrument(rest'));
      StmtYields(render, toks, i, o, s, s', here, m, om);
      CodeYields(render, toks, m, om, rest, rest', more, j, o');
      DoYields(render, toks, i, o, here, s', m, om, rest', j, o');
  }

  lemma {:induction false} StmtYields(render: Render, toks: seq<Lexeme>, i: nat, o: Open, s: Stmt,
                                      s': Stmt, part: seq<Lexeme>, j: nat, o': Open)
    requires SourceStmt(s) && At(toks, i, o) && Have(toks, i, FlattenStmt(Plainly, s))
    requires s' == AnnotateStmt(s, i, o) && part == Tagged(render, TagIn(s'), FlattenStmt(render, InstrumentStmt(s')))
    requires j == i + |FlattenStmt(Plainly, s)| && o' == AfterStmt(o, s)
    ensures Yields(render, toks, i, o, part, j, o')
    decreases s
  {
    hide Onward, At, Have;
    match s
    case Simple(words, _) =>
      assert part == Tagged(render, TagOf(o, i, words, TerminalWords(words)), words + [SEMI]);
      WordsYield(render, toks, i, o, words);
    case Compound(form, arms, closer, _) =>
      var last := closer + [SEMI];
      var m, om := i + LengthOfArms(arms), AfterArms(o, i, arms);
      var arms' := AnnotateArms(arms, i, o);
      var inner := FlattenArms(render, InstrumentArms(arms'));
      CloserEnds(closer);
      assert part == Tagged(render, TagOf(om, m, closer, false), inner + last) && j == m + |last|;
      HaveParts(toks, i, FlattenArms(Plainly, arms), last);
      ArmsYield(render, toks, i, o, arms, arms', inner, m, om);
      WordsYield(render, toks, m, om, closer);
      CompoundYields(render, toks, i, o, inner, m, om, last, TagOf(om, m, closer, false), j);
    case Remark(comments) =>
      OnlyComments(comments);
      HeaderYields(render, toks, i, o, comments);
  }

  lemma CloserEnds(closer: seq<Lexeme>)
    requires CloserWords(closer)
    ensures EndWords(closer) && !TerminalWords(closer)
  {
    assert Plain(closer[0].kind);
  }

  /** Comments leave the segment as it is. */
  lemma OnlyComments(comments: seq<Lexeme>)
    requires AllComments(comments)
    ensures AllPlain(comments) && First(comments) == |comments|
  {
  }

  lemma {:induction false} ArmsYield(render: Render, toks: seq<Lexeme>, i: nat, o: Open, arms: Arms,
                                     arms': Arms, part: seq<Lexeme>, j: nat, o': Open)
    requires SourceArms(arms) && At(toks, i, o) && Have(toks, i, FlattenArms(Plainly, arms))
    requires arms' == AnnotateArms(arms, i, o) && part == FlattenArms(render, InstrumentArms(arms'))
    requires j == i + LengthOfArms(arms) && o' == AfterArms(o, i, arms)
    ensures Yields(render, toks, i, o, part, j, o')
    decreases arms
  {
    hide Onward, At, Have;
    match arms
    case NoArms =>
      YieldsNothing(render, toks, i, o);
    case Arm(header, body, others) =>
      var flat, more := Flatten(Plainly, body), FlattenArms(Plainly, others);
      var a, oa := i + |header|, Read(o, i, header);
      var b, ob := a + |flat|, AfterCode(oa, body);
      var code', others' := Annotate(body, a, oa), AnnotateArms(others, b, ob);
      var inner, last := Flatten(render, Instrument(code')), FlattenArms(render, InstrumentArms(others'));
      assert arms' == Arm(header, code', others') && part == header + (inner + last);
      assert j == b + |more| && o' == AfterArms(ob, b, others);
      HaveParts(toks, i, header, flat + more);
      HaveParts(toks, a, flat, more);
      HeaderYields(render, toks, i, o, header);
      CodeYields(render, toks, a, oa, body, code', inner, b, ob);
      ArmsYield(render, toks, b, ob, others, others', last, j, o');
      ArmYields(render, toks, i, o, header, a, oa, inner, b, ob, last, j, o');
  }

  lemma ArmYields(render: Render, toks: seq<Lexeme>, i: nat, o: Open, header: seq<Lexeme>, a: nat, oa: Open,
                  body: seq<Lexeme>, b: nat, ob: Open, others: seq<Lexeme>, j: nat, o': Open)
    requires Yields(render, toks, i, o, header, a, oa) && Yields(render, toks, a, oa, body, b, ob)
    requires Yields(render, toks, b, ob, others, j, o')
    ensures Yields(render, toks, i, o, header + (body + others), j, o')
  {
    hide Onward, At;
    YieldsTrans(render, toks, a, oa, body, b, ob, others, j, o');
    YieldsTrans(render, toks, i, o, header, a, oa, body + others, j, o');
  }

  // ----- whole bodies -----

  /** The injections `instrumentBody` plans for a PL/pgSQL body with these tokens. */
  function BodyLexEdits(render: Render, toks: seq<Lexeme>): Edits<Lexeme> {
    LexEdits(render, BodyPlan(KindsOf(toks), true, false), |toks|)
  }

  lemma {:induction false} AfterFirstBegin(ks: seq<Kind>, i: nat, m: nat)
    requires i <= m < |ks| && ks[m].KBegin? && forall k :: i <= k < m ==> !ks[k].KBegin?
    ensures AfterBegin(ks, i) == m + 1
    decreases m - i
  {
    if i < m {
      AfterFirstBegin(ks, i + 1, m);
    }
  }

  /** What is left after the statements: the closing END, with or without `;`. */
  lemma CloserPlan(toks: seq<Lexeme>, i: nat, o: Open, closer: seq<Lexeme>)
    requires At(toks, i, o) && CloserWords(closer) && Have(toks, i, closer) && |toks| == i + |closer|
    ensures PlanAt(toks, i, o) == TagPlan(TagOf(o, i, closer, false), i, Empty)
  {
    HeaderPlan(toks, i, o, closer);
    var ks, start := KindsOf(toks), Read(o, i, closer);
    HaveAt(toks, i, closer, First(closer));
    NoTerminal(ks, start.first, |toks|, |toks|);
    assert ks[start.first] == start.kind;
    assert PlanFrom(ks, |toks|, Some(start.first), false) == EmitPlan(ks, start.first, |toks|, false, Empty);
    assert PlaceOf(ks, Segment(start.first, |toks|), false) == After;
  }

  /** Comments at the end plan nothing. */
  lemma TrailerPlan(toks: seq<Lexeme>, i: nat, trailer: seq<Lexeme>)
    requires Have(toks, i, trailer) && AllComments(trailer) && |toks| == i + |trailer|
    ensures At(toks, i, Fresh) && PlanAt(toks, i, Fresh) == Empty
  {
    OnlyComments(trailer);
    HeaderPlan(toks, i, Fresh, trailer);
  }

  /** The outer END at `i`, its `;` and the comments behind that. */
  predicate Closing(toks: seq<Lexeme>, i: nat, b: Body) {
    && CloserWords(b.closer) && AllComments(b.trailer) && (b.trailer != [] ==> b.semicolon)
    && Have(toks, i, Last(b)) && Have(toks, i + |Last(b)|, b.trailer) && |toks| == i + |Last(b)| + |b.trailer|
  }

  lemma ClosingPlan(toks: seq<Lexeme>, i: nat, o: Open, b: Body)
    requires At(toks, i, o) && Closing(toks, i, b)
    ensures PlanAt(toks, i, o) == TagPlan(TagOf(o, i, b.closer, false), i, Empty)
  {
    CloserEnds(b.closer);
    if b.semicolon {
      SegmentEnds(toks, i, o, b.closer);
      TrailerPlan(toks, i + |Last(b)|, b.trailer);
    } else {
      assert Last(b) == b.closer;
      CloserPlan(toks, i, o, b.closer);
    }
  }

  /** What follows the statements in the instrumented token list. */
  lemma CloserOnward(render: Render, toks: seq<Lexeme>, i: nat, o: Open, b: Body)
    requires At(toks, i, o) && Closing(toks, i, b)
    ensures Onward(render, toks, i, o) == Tagged(render, TagOf(o, i, b.closer, false), Last(b)) + b.trailer
  {
    var tag, j := TagOf(o, i, b.closer, false), i + |Last(b)|;
    ClosingPlan(toks, i, o, b);
    assert LexEdits(render, Empty, |toks|) == NoEdits;
    LexEditsOfTag(render, tag, i, j, Empty, |toks|);
    SpliceTag(render, toks, tag, i, j, NoEdits);
    assert toks[i..j] == Last(b) && toks[j..] == b.trailer;
  }

  function Trailing(render: Render, b: Body): seq<Lexeme>
    requires SourceBody(b)
  {
    var tag := ClosingTag(b);
    if tag.SignalAfter? then render(tag.seg) else []
  }

  lemma BodyParts(b: Body, toks: seq<Lexeme>, i: nat)
    requires SourceBody(b) && toks == FlattenBody(Plainly, b) && i == |b.preamble| + 1
    ensures var inside := FlattenArms(Plainly, Inside(b));
            && Have(toks, i, inside) && Closing(toks, i + |inside|, b)
            && toks[0..i] == b.preamble + [b.opener]
            && AfterBegin(KindsOf(toks), 0) == i
  {
    hide First, FlattenArms, Last, Inside, Source, SourceArms, KindsOf, Have, Closing;
    var inside, tail := FlattenArms(Plainly, Inside(b)), Last(b) + b.trailer;
    assert Last(b) + [] + b.trailer == tail;
    BehindHead(b.preamble, b.opener, inside + tail);
    HaveParts(toks, i, inside, tail);
    ClosingAt(toks, i + |inside|, b);
    AfterFirstBegin(KindsOf(toks), 0, |b.preamble|);
  }

  lemma ClosingAt(toks: seq<Lexeme>, j: nat, b: Body)
    requires SourceBody(b) && Have(toks, j, Last(b) + b.trailer) && |toks| == j + |Last(b) + b.trailer|
    ensures Closing(toks, j, b)
  {
    hide Source, SourceArms, Last, First;
    HaveParts(toks, j, Last(b), b.trailer);
  }

  lemma BehindHead(head: seq<Lexeme>, x: Lexeme, tail: seq<Lexeme>)
    ensures var toks, i := head + [x] + tail, |head| + 1;
            && Have(toks, i, tail) && |toks| == i + |tail| && toks[0..i] == head + [x] && toks[|head|] == x
            && forall k :: 0 <= k < |head| ==> toks[k] == head[k]
  {
  }

  lemma TaggedLast(render: Render, tag: Tag, last: seq<Lexeme>)
    requires !tag.SignalBefore?
    ensures Tagged(render, tag, last) == last + (if tag.SignalAfter? then render(tag.seg) else [])
  {
    assert last + [] == last;
  }

  /** From BEGIN on, the instrumented token list is the instrumented statements, the outer END, `Trailing` and the
      comments behind. */
  lemma InsideOnward(render: Render, b: Body, toks: seq<Lexeme>, i: nat, arms': Arms)
    requires SourceBody(b) && toks == FlattenBody(Plainly, b) && i == |b.preamble| + 1
    requires arms' == InstrumentArms(AnnotateArms(Inside(b), i, Fresh))
    ensures At(toks, i, Fresh)
    ensures Onward(render, toks, i, Fresh)
            == FlattenArms(render, arms') + (Last(b) + Trailing(render, b) + b.trailer)
  {
    hide Onward, FlattenArms, First, FlattenWith, Have, Closing, Last;
    BodyParts(b, toks, i);
    var inside := Inside(b);
    var j, o := i + LengthOfArms(inside), AfterArms(Fresh, i, inside);
    var part, last := FlattenArms(render, arms'), Last(b) + Trailing(render, b) + b.trailer;
    assert ClosingTag(b) == TagOf(o, j, b.closer, false);
    ArmsYield(render, toks, i, Fresh, inside, AnnotateArms(inside, i, Fresh), part, j, o);
    CloserOnward(render, toks, j, o, b);
    TaggedLast(render, ClosingTag(b), Last(b));
    assert Onward(render, toks, j, o) == last;
  }

  lemma InsideInstrumented(render: Render, b: Body, arms': Arms)
    requires SourceBody(b) && arms' == InstrumentArms(AnnotateArms(Inside(b), |b.preamble| + 1, Fresh))
    ensures Inside(InstrumentedBody(b)) == arms'
  {
  }

  /** Carrying out the instrumenter's plan on the tokens of a function body gives the tokens of the
      instrumented statements - plus a signal behind the outer END in exactly the case `ClosingTag` names. */
  lemma BodyCorrespondence(render: Render, b: Body)
    requires SourceBody(b)
    ensures var toks := FlattenBody(Plainly, b);
            && InOrder(0, BodyLexEdits(render, toks), |toks|)
            && Splice(toks, 0, BodyLexEdits(render, toks))
               == FlattenWith(render, InstrumentedBody(b), Trailing(render, b))
  {
    var toks, i := FlattenBody(Plainly, b), |b.preamble| + 1;
    BodyParts(b, toks, i);
    var arms' := InstrumentArms(AnnotateArms(Inside(b), i, Fresh));
    InsideOnward(render, b, toks, i, arms');
    InsideInstrumented(render, b, arms');
    AheadOf(render, KindsOf(toks), i, None, i);
    SpliceCopies(toks, 0, i, Rest(render, toks, i, Fresh));
  }

  // ----- the segments that get a signal are those tied to statements -----

  function PlanSegments(plan: Plan): seq<Segment> {
    match plan
    case Empty => []
    case Mark(seg, _, rest) => [seg] + PlanSegments(rest)
  }

  function Coming(toks: seq<Lexeme>, i: nat, o: Open): seq<Segment>
    requires At(toks, i, o)
  {
    PlanSegments(PlanAt(toks, i, o))
  }

  /** The segments the loop emits between `i` and `j` are `segs`. */
  predicate Lists(toks: seq<Lexeme>, i: nat, o: Open, segs: seq<Segment>, j: nat, o': Open) {
    At(toks, i, o) && At(toks, j, o') && Coming(toks, i, o) == segs + Coming(toks, j, o')
  }

  lemma ListsTrans(toks: seq<Lexeme>, i: nat, o: Open, a: seq<Segment>, j: nat, o': Open, b: seq<Segment>,
                   k: nat, o'': Open)
    requires Lists(toks, i, o, a, j, o') && Lists(toks, j, o', b, k, o'')
    ensures Lists(toks, i, o, a + b, k, o'')
  {
    hide Coming, At;
    Concat3(a, b, Coming(toks, k, o''));
  }

  lemma ListsNothing(toks: seq<Lexeme>, i: nat, o: Open)
    requires At(toks, i, o)
    ensures Lists(toks, i, o, [], i, o)
  {
    assert [] + Coming(toks, i, o) == Coming(toks, i, o);
  }

  lemma SegmentsOfTagPlan(tag: Tag, i: nat, tail: Plan)
    ensures PlanSegments(TagPlan(tag, i, tail)) == SegmentOf(tag) + PlanSegments(tail)
  {
    assert [] + PlanSegments(tail) == PlanSegments(tail);
  }

  lemma WordsList(toks: seq<Lexeme>, i: nat, o: Open, words: seq<Lexeme>)
    requires At(toks, i, o) && EndWords(words) && Have(toks, i, words + [SEMI])
    ensures Lists(toks, i, o, SegmentOf(TagOf(o, i, words, TerminalWords(words))), i + |words| + 1, Fresh)
  {
    hide TagOf, TerminalWords, PlanFrom, FindTerminal, KindsOf;
    SegmentEnds(toks, i, o, words);
    SegmentsOfTagPlan(TagOf(o, i, words, TerminalWords(words)), i, PlanAt(toks, i + |words| + 1, Fresh));
  }

  lemma HeaderList(toks: seq<Lexeme>, i: nat, o: Open, header: seq<Lexeme>)
    requires At(toks, i, o) && AllPlain(header) && Have(toks, i, header)
    ensures Lists(toks, i, o, [], i + |header|, Read(o, i, header))
  {
    hide PlanFrom, KindsOf;
    HeaderPlan(toks, i, o, header);
    ListsNothing(toks, i + |header|, Read(o, i, header));
  }

  lemma {:induction false} CodeLists(toks: seq<Lexeme>, i: nat, o: Open, code: Code, segs: seq<Segment>, j: nat,
                                     o': Open)
    requires Source(code) && At(toks, i, o) && Have(toks, i, Flatten(Plainly, code))
    requires segs == SegmentsOf(Annotate(code, i, o)) && j == i + LengthOf(code) && o' == AfterCode(o, code)
    ensures Lists(toks, i, o, segs, j, o')
    decreases code
  {
    hide Coming, At, Have;
    match code
    case Done =>
      ListsNothing(toks, i, o);
    case Do(s, rest) =>
      var m, om := i + |FlattenStmt(Plainly, s)|, AfterStmt(o, s);
      HaveParts(toks, i, FlattenStmt(Plainly, s), Flatten(Plainly, rest));
      var here, more := SegmentsOfStmt(AnnotateStmt(s, i, o)), SegmentsOf(Annotate(rest, m, om));
      StmtLists(toks, i, o, s, here, m, om);
      CodeLists(toks, m, om, rest, more, j, o');
      ListsTrans(toks, i, o, here, m, om, more, j, o');
  }

  lemma {:induction false} StmtLists(toks: seq<Lexeme>, i: nat, o: Open, s: Stmt, segs: seq<Segment>, j: nat, o': Open)
    requires SourceStmt(s) && At(toks, i, o) && Have(toks, i, FlattenStmt(Plainly, s))
    requires segs == SegmentsOfStmt(AnnotateStmt(s, i, o)) && j == i + |FlattenStmt(Plainly, s)|
    requires o' == AfterStmt(o, s)
    ensures Lists(toks, i, o, segs, j, o')
    decreases s
  {
    hide Coming, At, Have;
    match s
    case Simple(words, _) =>
      WordsList(toks, i, o, words);
    case Compound(form, arms, closer, _) =>
      var last := closer + [SEMI];
      var m, om := i + LengthOfArms(arms), AfterArms(o, i, arms);
      CloserEnds(closer);
      var inner, own := SegmentsOfArms(AnnotateArms(arms, i, o)), SegmentOf(TagOf(om, m, closer, false));
      assert segs == inner + own && j == m + |last|;
      HaveParts(toks, i, FlattenArms(Plainly, arms), last);
      ArmsList(toks, i, o, arms, inner, m, om);
      WordsList(toks, m, om, closer);
      ListsTrans(toks, i, o, inner, m, om, own, j, Fresh);
    case Remark(comments) =>
      OnlyComments(comments);
      HeaderList(toks, i, o, comments);
  }

  lemma {:induction false} ArmsList(toks: seq<Lexeme>, i: nat, o: Open, arms: Arms, segs: seq<Segment>, j: nat,
                                    o': Open)
    requires SourceArms(arms) && At(toks, i, o) && Have(toks, i, FlattenArms(Plainly, arms))
    requires segs == SegmentsOfArms(AnnotateArms(arms, i, o)) && j == i + LengthOfArms(arms)
    requires o' == AfterArms(o, i, arms)
    ensures Lists(toks, i, o, segs, j, o')
    decreases arms
  {
    hide Coming, At, Have;
    match arms
    case NoArms =>
      ListsNothing(toks, i, o);
    case Arm(header, body, others) =>
      var flat, more := Flatten(Plainly, body), FlattenArms(Plainly, others);
      var a, oa := i + |header|, Read(o, i, header);
      var b, ob := a + |flat|, AfterCode(oa, body);
      var inner, last := SegmentsOf(Annotate(body, a, oa)), SegmentsOfArms(AnnotateArms(others, b, ob));
      assert segs == inner + last && j == b + |more| && o' == AfterArms(ob, b, others);
      HaveParts(toks, i, header, flat + more);
      HaveParts(toks, a, flat, more);
      HeaderList(toks, i, o, header);
      CodeLists(toks, a, oa, body, inner, b, ob);
      ArmsList(toks, b, ob, others, last, j, o');
      ListsTrans(toks, a, oa, inner, b, ob, last, j, o');
      ListsTrans(toks, i, o, [], a, oa, segs, j, o');
      assert [] + segs == segs;
  }

  lemma CloserList(toks: seq<Lexeme>, i: nat, o: Open, b: Body)
    requires At(toks, i, o) && Closing(toks, i, b)
    ensures Coming(toks, i, o) == SegmentOf(TagOf(o, i, b.closer, false))
  {
    var own := SegmentOf(TagOf(o, i, b.closer, false));
    assert own + [] == own;
    assert PlanSegments(Empty) == [];
    ClosingPlan(toks, i, o, b);
    SegmentsOfTagPlan(TagOf(o, i, b.closer, false), i, Empty);
  }

  /** The signals planned for a function body are exactly those tied to its statements, in order, and the one
      `ClosingTag` names. */
  lemma BodySegments(b: Body)
    requires SourceBody(b)
    ensures PlanSegments(BodyPlan(KindsOf(FlattenBody(Plainly, b)), true, false))
            == SegmentsOfArms(AnnotateArms(Inside(b), |b.preamble| + 1, Fresh)) + SegmentOf(ClosingTag(b))
  {
    hide PlanFrom, FindTerminal, TagOf, First, Read, AfterCode, Annotate, SegmentsOf, Flatten, KindsOf;
    var toks, i, inside := FlattenBody(Plainly, b), |b.preamble| + 1, Inside(b);
    BodyParts(b, toks, i);
    var j, o := i + LengthOfArms(inside), AfterArms(Fresh, i, inside);
    assert ClosingTag(b) == TagOf(o, j, b.closer, false);
    hide Have, Closing, AfterArms, AnnotateArms, SegmentsOfArms, FlattenArms;
    ArmsList(toks, i, Fresh, inside, SegmentsOfArms(AnnotateArms(inside, i, Fresh)), j, o);
    CloserList(toks, j, o, b);
  }
}
