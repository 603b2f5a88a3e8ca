/** Signals where one might not expect them, with the exact conditions: of compound statements, behind the outer END,
    in declaration sections, and inside of quoted bodies. */
module Limits {
  import opened Basics
  import opened Segmentation
  import opened SignalCodec
  import opened Splicing
  import opened Plpgsql
  import opened Meaning
  import opened Firing
  import opened Staleness

  // ----- the signal of a compound statement -----

  /** A segment is being read that will get a signal. */
  predicate Loose(o: Open) {
    o.Opened? && !Structural(o.kind)
  }

  /** Headers that begin with a word of their own, not BEGIN, LOOP or EXCEPTION: `IF .. THEN`, `ELSE`,
      `WHILE .. LOOP`, `WHEN .. THEN`. */
  predicate WordArms(arms: Arms) {
    match arms
    case NoArms => true
    case Arm(header, _, others) =>
      First(header) < |header| && !Structural(header[First(header)].kind) && WordArms(others)
  }

  predicate LastArmEmpty(arms: Arms) {
    match arms
    case NoArms => false
    case Arm(_, body, others) => if others.NoArms? then OnlyRemarks(body) else LastArmEmpty(others)
  }

  predicate SomeStatement(arms: Arms) {
    match arms
    case NoArms => false
    case Arm(_, body, others) => !OnlyRemarks(body) || SomeStatement(others)
  }

  lemma {:induction false} LooseAfterArms(o: Open, i: nat, arms: Arms)
    requires WordArms(arms) && (arms.NoArms? || !Loose(o))
    ensures Loose(AfterArms(o, i, arms))
            <==> if arms.NoArms? then Loose(o) else LastArmEmpty(arms) && (SomeStatement(arms) || o.Fresh?)
    decreases arms
  {
    if arms.Arm? {
      hide First;
      var o' := AfterCode(Read(o, i, arms.header), arms.body);
      var j := i + |arms.header| + LengthOf(arms.body);
      AfterCodeIs(Read(o, i, arms.header), arms.body);
      if Loose(o') {
        LooseAlong(o', j, arms.others);
      } else {
        LooseAfterArms(o', j, arms.others);
      }
    }
  }

  /** From a segment that is being read already, with statements or without. */
  lemma {:induction false} LooseAlong(o: Open, i: nat, arms: Arms)
    requires WordArms(arms) && Loose(o)
    ensures Loose(AfterArms(o, i, arms)) <==> arms.NoArms? || LastArmEmpty(arms)
    decreases arms
  {
    if arms.Arm? {
      hide First;
      var o' := AfterCode(o, arms.body);
      var j := i + |arms.header| + LengthOf(arms.body);
      AfterCodeIs(o, arms.body);
      if OnlyRemarks(arms.body) {
        LooseAlong(o', j, arms.others);
      } else {
        LooseAfterArms(o', j, arms.others);
      }
    }
  }

  lemma {:induction false} FreshAfterArms(o: Open, i: nat, arms: Arms)
    requires arms.Arm? && !LastArmEmpty(arms)
    ensures AfterArms(o, i, arms) == Fresh
    decreases arms
  {
    hide First;
    var o' := AfterCode(Read(o, i, arms.header), arms.body);
    AfterCodeIs(Read(o, i, arms.header), arms.body);
    if arms.others.Arm? {
      FreshAfterArms(o', i + |arms.header| + LengthOf(arms.body), arms.others);
    }
  }

  /** A compound statement carries a signal of its own exactly if the segment that its END closes opens with a word
      that is not structure only. The last arm then has no statements; and if all headers begin with words, that is
      all it takes unless the whole statement is part of a segment that opens with BEGIN or the like. */
  lemma CompoundSignal(s: Stmt, i: nat, o: Open)
    requires SourceStmt(s) && s.Compound? && s.arms.Arm? && s.closer[First(s.closer)].kind.KEnd?
    ensures var tag := AnnotateStmt(s, i, o).tag;
            && (!tag.Untracked? <==> LastArmEmpty(s.arms) && Loose(AfterArms(o, i, s.arms)))
            && (WordArms(s.arms) ==>
                  (!tag.Untracked? <==> LastArmEmpty(s.arms) && (SomeStatement(s.arms) || o.Fresh? || Loose(o))))
  {
    hide First, WordArms;
    if !LastArmEmpty(s.arms) {
      FreshAfterArms(o, i, s.arms);
    }
    if WordArms(s.arms) {
      if Loose(o) {
        LooseAlong(o, i, s.arms);
      } else {
        LooseAfterArms(o, i, s.arms);
      }
    }
  }

  // ----- a signal behind the end -----

  /** `EXCEPTION WHEN .. THEN ..`, then `WHEN .. THEN ..`. */
  predicate Handlers(arms: Arms) {
    arms.Arm? ==>
      && First(arms.header) < |arms.header| && arms.header[First(arms.header)].kind.KException?
      && WordArms(arms.others)
  }

  /** A signal is put behind the outer END exactly if the last handler has no statements while an earlier one
      has some; the body then no longer ends with END. With statements, that is: a body of comments only leaves the
      EXCEPTION in the segment. */
  lemma SignalBehindEnd(b: Body)
    requires SourceBody(b) && Handlers(b.handlers)
    ensures ClosingTag(b).SignalAfter? <==> LastArmEmpty(b.handlers) && SomeStatement(b.handlers)
    ensures !ClosingTag(b).SignalAfter? ==> ClosingTag(b).Untracked?
  {
    hide First, Source, SourceArms, WordArms;
    var i := |b.preamble| + 1;
    var j := i + LengthOf(b.main);
    assert Read(Fresh, i, []) == Fresh;
    AfterCodeIs(Fresh, b.main);
    assert AfterArms(Fresh, i, Inside(b)) == AfterArms(Fresh, j, b.handlers);
    match b.handlers
    case NoArms =>
    case Arm(header, body, others) =>
      var o := AfterCode(Read(Fresh, j, header), body);
      AfterCodeIs(Read(Fresh, j, header), body);
      LooseAfterArms(o, j + |header| + LengthOf(body), others);
  }

  const NULL_WORDS: seq<Lexeme> := [Lexeme(Other, "NULL")]
  const IF: seq<Lexeme> := [Lexeme(Other, "IF"), Lexeme(Other, "c"), Lexeme(Other, "THEN")]
  const ELSE: seq<Lexeme> := [Lexeme(Other, "ELSE")]
  const END_IF: seq<Lexeme> := [Lexeme(KEnd, "END"), Lexeme(Other, "IF")]

  /** `IF c THEN NULL; ELSE END IF;` */
  function EmptyElse(): Stmt {
    Compound(Branch, Arm(IF, One(NULL_WORDS, Untracked), Arm(ELSE, Done, NoArms)), END_IF, Untracked)
  }

  /** Whichever arm was taken, a compound statement's own signal follows as soon as the statement completes. */
  lemma OwnSignal<E>(w: World<E>, s: Stmt, i: nat, o: Open, fuel: nat, st: State<E>)
    requires SourceStmt(s) && s.Compound? && AnnotateStmt(s, i, o).tag.SignalAfter?
    ensures var a := AnnotateStmt(s, i, o);
            var r := ExecStmt(w, InstrumentStmt(a), fuel, st);
            ExecCode(w, Instrument(Do(a, Done)), fuel, st).trace
            == r.trace + (if r.flow.Normal? then [Notified(a.tag.seg)] else [])
  {
    hide AnnotateArms, InstrumentArms, TagOf, SourceArms, First;
    var a := AnnotateStmt(s, i, o);
    ExecWithSignal(w, InstrumentStmt(a), a.tag, Done, fuel, st);
    var r := ExecStmt(w, InstrumentStmt(a), fuel, st);
    assert r.trace + [] == r.trace == [] + r.trace;
    assert r.trace + [Notified(a.tag.seg)] + [] == r.trace + [Notified(a.tag.seg)];
  }

  /** The signal of `ELSE END IF` is sent although the THEN arm was taken. */
  lemma EmptyElseSignalled<E>(w: World<E>, st: State<E>, c: Core<E>)
    requires w.test(IF, st.core) == Holds(c) && w.run(NULL_WORDS, State(c, w.rows(IF, st))).flow.Normal?
    ensures SourceStmt(EmptyElse())
    ensures var trace := ExecCode(w, Instrument(Do(AnnotateStmt(EmptyElse(), 0, Fresh), Done)), 0, st).trace;
            trace != [] && trace[|trace| - 1] == Notified(Segment(5, 8))
  {
    EmptyElseTag();
    ThenCompletes(w, st, c);
    OwnSignal(w, EmptyElse(), 0, Fresh, 0, st);
  }

  lemma ThenCompletes<E>(w: World<E>, st: State<E>, c: Core<E>)
    requires w.test(IF, st.core) == Holds(c) && w.run(NULL_WORDS, State(c, w.rows(IF, st))).flow.Normal?
    requires SourceStmt(EmptyElse())
    ensures ExecStmt(w, InstrumentStmt(AnnotateStmt(EmptyElse(), 0, Fresh)), 0, st).flow.Normal?
  {
    ThenArm();
    PlainNull();
    var a := AnnotateStmt(EmptyElse(), 0, Fresh);
    var tag := SignalAfter(Segment(0, 4));
    assert a.Compound? && a.form.Branch? && a.arms.Arm? && a.arms.header == IF && a.arms.body == One(NULL_WORDS, tag);
    hide First, TagOf, TerminalWords, Annotate, AnnotateStmt, EmptyElse;
    var idle, first := Simple(NULL_WORDS, Untracked), State(c, w.rows(IF, st));
    var then' := WithSignal(idle, tag, Done);
    assert Instrument(One(NULL_WORDS, tag)) == then';
    ExecWithSignal(w, idle, tag, Done, 0, first);
    assert ExecCode(w, then', 0, first).flow.Normal?;
    assert InstrumentStmt(a).arms.header == IF && InstrumentStmt(a).arms.body == then';
    assert ExecStmt(w, InstrumentStmt(a), 0, st) == ExecFirst(w, InstrumentStmt(a).arms, 0, st, Normal);
  }

  lemma PlainNull()
    ensures SimpleWords(NULL_WORDS) && First(NULL_WORDS) == 0 && !TerminalWords(NULL_WORDS)
    ensures TagOf(Opened(0, Other), 3, NULL_WORDS, false) == SignalAfter(Segment(0, 4))
  {
    assert First(NULL_WORDS) == 0;
  }

  lemma ThenArm()
    ensures SourceStmt(EmptyElse()) && AnnotateStmt(EmptyElse(), 0, Fresh).arms.body
            == One(NULL_WORDS, TagOf(Opened(0, Other), 3, NULL_WORDS, TerminalWords(NULL_WORDS)))
  {
    EmptyElseTag();
    var o := Read(Fresh, 0, IF);
    assert o == Opened(0, Other) by { assert First(IF) == 0; }
    hide TagOf, TerminalWords;
    assert Annotate(One(NULL_WORDS, Untracked), 3, o)
           == One(NULL_WORDS, TagOf(o, 3, NULL_WORDS, TerminalWords(NULL_WORDS)));
  }

  lemma EmptyElseTag()
    ensures SourceStmt(EmptyElse()) && AnnotateStmt(EmptyElse(), 0, Fresh).tag == SignalAfter(Segment(5, 8))
  {
    var s := EmptyElse();
    var code := One(NULL_WORDS, Untracked);
    assert SimpleWords(NULL_WORDS);
    assert SourceArms(Arm(ELSE, Done, NoArms));
    assert SourceArms(s.arms);
    assert Flatten(Plainly, code) == NULL_WORDS + [SEMI] + [];
    assert LengthOf(code) == 2;
    assert FlattenArms(Plainly, Arm(ELSE, Done, NoArms)) == ELSE;
    assert LengthOfArms(s.arms) == 6;
    assert AfterArms(Fresh, 0, s.arms) == AfterArms(Fresh, 5, Arm(ELSE, Done, NoArms)) == Opened(5, Other);
  }

  // ----- a row count that is overwritten in time -----

  const BEGIN: seq<Lexeme> := [Lexeme(KBegin, "BEGIN")]
  const END: seq<Lexeme> := [Lexeme(KEnd, "END")]

  /** `NULL; BEGIN UPDATE ..; GET DIAGNOSTICS ..; END;` */
  function UpdateInBlock(): Code {
    Do(Simple(NULL_WORDS, Untracked), Do(Compound(Block, Arm(BEGIN, Two(UPDATE, GET), NoArms), END, Untracked), Done))
  }

  /** The segment `BEGIN UPDATE ..` has no signal, so the row count of NULL's signal is overwritten before it is read:
      the program keeps its meaning if UPDATE is known to set the row count. If it is not, it may change. */
  lemma OverwrittenInTime(u: Uses)
    requires forall words :: u.sees(words) <==> words == GET
    ensures Source(UpdateInBlock()) && (Stale(u, UpdateInBlock(), 0, Fresh) <==> !u.sets(UPDATE))
  {
    UpdateInBlockTags();
    hide First, Source, SourceArms, Annotate, Annotated, TagOf, TerminalWords, UpdateInBlock;
    assert UPDATE != GET && NULL_WORDS != GET;
    var get := One(GET, SignalAfter(Segment(8, 11)));
    var inner := Do(Simple(UPDATE, Untracked), get);
    forall d: bool ensures May(u, get, d, Reads) == d {
      assert !May(u, Done, true, Reads);
    }
    assert May(u, inner, true, Reads) == !u.sets(UPDATE);
    var block := Do(Compound(Block, Arm(BEGIN, inner, NoArms), END, Untracked), Done);
    assert May(u, block, true, Reads) == May(u, inner, true, Reads);
  }

  /** The statements of the block with their tags. */
  function UpdateThenGet(): Code {
    Do(Simple(UPDATE, Untracked), One(GET, SignalAfter(Segment(8, 11))))
  }

  lemma UpdateInBlockTags()
    ensures Source(UpdateInBlock())
    ensures Annotate(UpdateInBlock(), 0, Fresh)
            == Do(Simple(NULL_WORDS, SignalAfter(Segment(0, 1))),
                  Do(Compound(Block, Arm(BEGIN, UpdateThenGet(), NoArms), END, Untracked), Done))
  {
    OrdinaryWords(NULL_WORDS, 0);
    BlockTags();
    hide First, TerminalWords, SimpleWords, TagOf, Two;
    assert |FlattenStmt(Plainly, Simple(NULL_WORDS, Untracked))| == 2;
  }

  lemma BlockTags()
    ensures var code := UpdateInBlock().rest;
            && Source(code)
            && Annotate(code, 2, Fresh)
               == Do(Compound(Block, Arm(BEGIN, UpdateThenGet(), NoArms), END, Untracked), Done)
  {
    TwoTags();
    assert First(BEGIN) == 0 && First(END) == 0;
    assert Read(Fresh, 2, BEGIN) == Opened(2, KBegin);
    hide First, TerminalWords, SimpleWords, Two, Read;
    var arms := Arm(BEGIN, Two(UPDATE, GET), NoArms);
    assert SourceArms(arms);
    assert AfterArms(Fresh, 2, arms) == AfterCode(Opened(2, KBegin), Two(UPDATE, GET)) == Fresh;
    assert AnnotateArms(arms, 2, Fresh) == Arm(BEGIN, Annotate(Two(UPDATE, GET), 3, Opened(2, KBegin)), NoArms);
    assert TagOf(Fresh, 2 + LengthOfArms(arms), END, false) == Untracked by { EndTag(2 + LengthOfArms(arms)); }
    hide TagOf;
    var block := Compound(Block, arms, END, Untracked);
    assert AnnotateStmt(block, 2, Fresh) == Compound(Block, AnnotateArms(arms, 2, Fresh), END, Untracked);
  }

  lemma EndTag(i: nat)
    ensures First(END) == 0 && TagOf(Fresh, i, END, false) == Untracked
  {
    assert First(END) == 0;
  }

  lemma TwoTags()
    ensures var two := Two(UPDATE, GET);
            && Source(two) && AfterCode(Opened(2, KBegin), two) == Fresh
            && Annotate(two, 3, Opened(2, KBegin))
               == UpdateThenGet()
  {
    OrdinaryWords(UPDATE, 3);
    OrdinaryWords(GET, 8);
    assert First(UPDATE) == 0;
    hide First, TerminalWords, SimpleWords;
    assert Annotate(One(GET, Untracked), 8, Fresh) == One(GET, SignalAfter(Segment(8, 11)));
    assert |FlattenStmt(Plainly, Simple(UPDATE, Untracked))| == 5;
  }

  // ----- a point that nothing covers -----

  const EXIT: seq<Lexeme> := [Lexeme(Other, "EXIT")]

  /** `first; EXIT;`: EXIT is a segment of its own with a point of its own, but as it never completes normally no run
      sends its signal, however often it is reached. */
  lemma ExitNeverCompleted<E(!new)>(w: World<E>, first: seq<Lexeme>, fuel: nat, st: State<E>)
    requires first != [] && (forall k :: 0 <= k < |first| ==> first[k].kind.Other?) && Endless(w, EXIT)
    ensures Source(Two(first, EXIT))
    ensures var a, seg := Annotate(Two(first, EXIT), 0, Fresh), Segment(|first| + 1, |first| + 2);
            seg in SegmentsOf(a) && TimesCompleted(FiredCode(w, a, fuel, st).trace, seg) == 0
  {
    hide Source, Annotate, Endless, FiredCode, TraceWithin, TimesCompleted, SegmentsOf, CodeWithin, Two;
    var one, seg := Segment(0, |first|), Segment(|first| + 1, |first| + 2);
    var a := Do(Simple(first, SignalAfter(one)), One(EXIT, SignalAfter(seg)));
    ExitTags(first);
    TwoSegments(w, first, one, seg);
    CodeFires(w, a, fuel, st, {one});
    NoSignalWithin(FiredCode(w, a, fuel, st).trace, {one}, seg);
  }

  lemma ExitTags(first: seq<Lexeme>)
    requires first != [] && forall k :: 0 <= k < |first| ==> first[k].kind.Other?
    ensures Source(Two(first, EXIT))
    ensures Annotate(Two(first, EXIT), 0, Fresh)
            == Do(Simple(first, SignalAfter(Segment(0, |first|))),
                  One(EXIT, SignalAfter(Segment(|first| + 1, |first| + 2))))
  {
    OrdinaryWords(first, 0);
    OrdinaryWords(EXIT, |first| + 1);
    hide First, TerminalWords, TagOf, SimpleWords, Annotate;
    AnnotateTwo(first, EXIT);
  }

  lemma TwoSegments<E(!new)>(w: World<E>, first: seq<Lexeme>, one: Segment, seg: Segment)
    requires Endless(w, EXIT)
    ensures var a := Do(Simple(first, SignalAfter(one)), One(EXIT, SignalAfter(seg)));
            seg in SegmentsOf(a) && CodeWithin(w, a, {one})
  {
    hide Endless;
    var exit := One(EXIT, SignalAfter(seg));
    assert SegmentsOf(exit) == [seg] + SegmentsOf(Done);
    assert ([seg] + SegmentsOf(Done))[0] == seg;
    assert SegmentsOf(Do(Simple(first, SignalAfter(one)), exit)) == [one] + SegmentsOf(exit);
    assert CodeWithin(w, exit, {one});
  }

  // ----- a nested declaration section -----

  /** `name type ..`, with comments anywhere. */
  predicate Declaration(d: seq<Kind>) {
    var k := NextSignificant(d, 0, |d|);
    k < |d| && !Structural(d[k]) && forall j :: 0 <= j < |d| ==> Plain(d[j])
  }

  /** `d1; d2; .. dn;` */
  function Declarations(decls: seq<seq<Kind>>): seq<Kind> {
    if decls == [] then [] else decls[0] + [Semicolon] + Declarations(decls[1..])
  }

  lemma {:induction false} DeclarationsAt(decls: seq<seq<Kind>>, j: nat)
    requires j < |decls|
    ensures Declarations(decls) == Declarations(decls[..j]) + decls[j] + [Semicolon] + Declarations(decls[j + 1..])
    ensures j > 0 ==> var init := Declarations(decls[..j]); init != [] && init[|init| - 1] == Semicolon
    decreases j
  {
    if j == 0 {
      assert Declarations(decls[..0]) == [];
      assert [] + decls[0] == decls[0];
    } else {
      var rest := decls[1..];
      DeclarationsAt(rest, j - 1);
      assert decls[..j][0] == decls[0] && decls[..j][1..] == rest[..j - 1];
      assert rest[j - 1] == decls[j] && rest[j - 1 + 1..] == decls[j + 1..];
      var init, here, tail := Declarations(rest[..j - 1]), decls[j], Declarations(decls[j + 1..]);
      Concat4(decls[0] + [Semicolon], init, here + [Semicolon], tail);
      assert init + here + [Semicolon] == init + (here + [Semicolon]);
      assert Declarations(decls[..j]) == decls[0] + [Semicolon] + init;
      assert decls[0] + [Semicolon] + init + here + [Semicolon] == decls[0] + [Semicolon] + init + (here + [Semicolon]);
    }
  }

  lemma {:induction false} BeginBefore(before: seq<Kind>, tail: seq<Kind>, i: nat)
    requires i <= |before| && KBegin in before[i..]
    ensures AfterBegin(before + tail, i) == AfterBegin(before, i)
    decreases |before| - i
  {
    if !before[i].KBegin? {
      assert before[i..][1..] == before[i + 1..];
      BeginBefore(before, tail, i + 1);
    }
  }

  lemma {:induction false} OpensBefore(before: seq<Kind>, tail: seq<Kind>, from: nat, i: nat)
    requires from <= i <= |before|
    ensures Opens(before + tail, from, i) == Opens(before, from, i)
    decreases i
  {
    if from < i {
      OpensBefore(before, tail, from, i - 1);
    }
  }

  lemma {:induction false} OpensBehindComments(ks: seq<Kind>, from: nat, i: nat, j: nat)
    requires from <= i <= j <= |ks| && Opens(ks, from, i) && forall k :: i <= k < j ==> ks[k].Comment?
    ensures Opens(ks, from, j)
    decreases j
  {
    if i < j {
      OpensBehindComments(ks, from, i, j - 1);
    }
  }

  /** The text in front of a nested DECLARE, behind the outer BEGIN: the segment that DECLARE belongs to opens at
      `p`. */
  predicate OpenAt(before: seq<Kind>, p: nat) {
    && KBegin in before && AfterBegin(before, 0) <= p <= |before| && Opens(before, AfterBegin(before, 0), p)
    && (p < |before| ==> !before[p].Comment?) && forall k :: p <= k < |before| ==> !before[k].Semicolon?
  }

  /** `before DECLARE d1; .. dn; behind` */
  function Nested(before: seq<Kind>, decls: seq<seq<Kind>>, behind: seq<Kind>): seq<Kind> {
    before + ([KDeclare] + Declarations(decls) + behind)
  }

  /** Index of the `;` of declaration `j`. */
  function DeclarationEnd(before: seq<Kind>, decls: seq<seq<Kind>>, j: nat): nat
    requires j < |decls|
  {
    |before| + 1 + |Declarations(decls[..j])| + |decls[j]|
  }

  lemma NestedAt(before: seq<Kind>, decls: seq<seq<Kind>>, behind: seq<Kind>, j: nat)
    requires j < |decls|
    ensures var head, end := before + [KDeclare] + Declarations(decls[..j]), DeclarationEnd(before, decls, j);
            && end == |head| + |decls[j]|
            && Nested(before, decls, behind)
               == head + decls[j] + ([Semicolon] + (Declarations(decls[j + 1..]) + behind))
            && IsSlice(decls[j], Nested(before, decls, behind), |head|)
            && Nested(before, decls, behind)[end] == Semicolon
            && (j > 0 ==> Nested(before, decls, behind)[|head| - 1] == Semicolon)
  {
    DeclarationsAt(decls, j);
    var init, tail := Declarations(decls[..j]), Declarations(decls[j + 1..]);
    var ks := Nested(before, decls, behind);
    assert ks == before + ([KDeclare] + (init + decls[j] + [Semicolon] + tail) + behind);
    assert ks == before + [KDeclare] + init + decls[j] + ([Semicolon] + (tail + behind));
    SlicedOut(before + [KDeclare] + init, decls[j], tail + behind);
  }

  lemma SlicedOut(head: seq<Kind>, d: seq<Kind>, tail: seq<Kind>)
    ensures var ks := head + d + ([Semicolon] + tail);
            && IsSlice(d, ks, |head|) && ks[|head| + |d|] == Semicolon
            && (head != [] ==> ks[|head| - 1] == head[|head| - 1])
  {
  }

  /** The second and every later declaration of a nested section is taken for a statement: a signal is put between
      the declarations, or between them and BEGIN. */
  lemma LaterDeclaration(before: seq<Kind>, decls: seq<seq<Kind>>, behind: seq<Kind>, p: nat, j: nat)
    requires OpenAt(before, p) && 0 < j < |decls| && Declaration(decls[j])
    ensures var end := DeclarationEnd(before, decls, j);
            var first := end - |decls[j]| + NextSignificant(decls[j], 0, |decls[j]|);
            Marks(BodyPlan(Nested(before, decls, behind), true, false), Segment(first, end), After)
  {
    var ks, head := Nested(before, decls, behind), before + [KDeclare] + Declarations(decls[..j]);
    BeginOfNested(before, decls, behind);
    NestedAt(before, decls, behind, j);
    hide Nested, DeclarationEnd, Declarations, Declaration, NextSignificant, IsSlice, BodyPlan, Opens;
    assert AfterBegin(ks, 0) <= |head|;
    MarkedBehindSemicolon(ks, |head|, decls[j]);
  }

  lemma MarkedBehindSemicolon(ks: seq<Kind>, start: nat, d: seq<Kind>)
    requires AfterBegin(ks, 0) <= start && 0 < start && start + |d| < |ks| && IsSlice(d, ks, start) && Declaration(d)
    requires ks[start - 1] == Semicolon && ks[start + |d|] == Semicolon
    ensures Marks(BodyPlan(ks, true, false), Segment(start + NextSignificant(d, 0, |d|), start + |d|), After)
  {
    hide Declaration, IsSlice, BodyPlan, RightPlace;
    PlainSegment(ks, AfterBegin(ks, 0), start, d);
    PlaceIsRight(ks, Segment(start + NextSignificant(d, 0, |d|), start + |d|), false);
    PlanMarksExactly(ks, true, false, Segment(start + NextSignificant(d, 0, |d|), start + |d|), After);
  }

  /** What stands between two semicolons without RETURN and RAISE is a segment with its signal behind it. */
  lemma PlainSegment(ks: seq<Kind>, from: nat, start: nat, d: seq<Kind>)
    requires from <= start && Declaration(d) && IsSlice(d, ks, start) && Opens(ks, from, start)
    requires start + |d| < |ks| && ks[start + |d|].Semicolon?
    ensures Chosen(ks, from, false, Segment(start + NextSignificant(d, 0, |d|), start + |d|), After)
  {
    hide FindTerminal;
    var end, k := start + |d|, NextSignificant(d, 0, |d|);
    forall i | start <= i < end ensures Plain(ks[i]) && (i < start + k ==> ks[i].Comment?) {
      assert ks[start + (i - start)] == d[i - start];
    }
    assert ks[start + k] == d[k];
    OpensBehindComments(ks, from, start, start + k);
    FindTerminalIsFirst(ks, start + k, end);
    assert PlaceOf(ks, Segment(start + k, end), false) == After by {
      hide Declaration, IsSlice;
      assert forall i :: start + k <= i < end ==> !TerminalAt(ks, i, end);
    }
  }

  lemma BeginOfNested(before: seq<Kind>, decls: seq<seq<Kind>>, behind: seq<Kind>)
    requires KBegin in before
    ensures AfterBegin(Nested(before, decls, behind), 0) == AfterBegin(before, 0)
  {
    assert before[0..] == before;
    BeginBefore(before, [KDeclare] + Declarations(decls) + behind, 0);
  }

  /** The first declaration ends the segment of DECLARE itself. No other segment ends there, and it gets a signal
      exactly if the segment does not open with a structural keyword - if DECLARE is its first word, it gets none. */
  lemma FirstDeclaration(before: seq<Kind>, decls: seq<seq<Kind>>, behind: seq<Kind>, p: nat, seg: Segment,
                         place: Placement)
    requires OpenAt(before, p) && decls != [] && Declaration(decls[0]) && seg.end == DeclarationEnd(before, decls, 0)
    ensures var ks := Nested(before, decls, behind);
            && p < seg.end <= |ks|
            && (Marks(BodyPlan(ks, true, false), seg, place)
                <==> && seg.first == p && ks[p] !in {KBegin, KEnd, KLoop, KDeclare, KException}
                     && RightPlace(ks, Segment(p, seg.end), false, place))
    ensures p == |before| ==> Nested(before, decls, behind)[p] == KDeclare
  {
    var ks, from, d, end := Nested(before, decls, behind), AfterBegin(before, 0), decls[0], seg.end;
    NestedAt(before, decls, behind, 0);
    BeginOfNested(before, decls, behind);
    OpensBefore(before, [KDeclare] + Declarations(decls) + behind, from, p);
    assert ks[|before|] == KDeclare && before <= ks && end == |before| + 1 + |d|;
    hide Nested, DeclarationEnd, FindTerminal, BodyPlan, RightPlace;
    FirstSegment(ks, before, d, from, p, end);
    PlanMarksExactly(ks, true, false, seg, place);
    if IsSegment(ks, from, seg) && seg.first < p { NotOpenInside(ks, from, seg.first, p); }
    if IsSegment(ks, from, seg) && seg.first > p { NotOpenInside(ks, from, p, seg.first); }
  }

  lemma FirstSegment(ks: seq<Kind>, before: seq<Kind>, d: seq<Kind>, from: nat, p: nat, end: nat)
    requires from <= p <= |before| <= |ks| && before <= ks && end == |before| + 1 + |d| < |ks|
    requires ks[|before|] == KDeclare && ks[end] == Semicolon && IsSlice(d, ks, |before| + 1) && Declaration(d)
    requires Opens(ks, from, p) && (p < |before| ==> !before[p].Comment?)
    requires forall k :: p <= k < |before| ==> !before[k].Semicolon?
    ensures IsSegment(ks, from, Segment(p, end))
  {
    hide Opens;
    forall k | p <= k < end ensures !ks[k].Semicolon? {
      if k < |before| {
        assert ks[k] == before[k];
      } else if k > |before| {
        assert ks[|before| + 1 + (k - |before| - 1)] == d[k - |before| - 1];
      }
    }
    assert p < |before| ==> ks[p] == before[p];
  }

  // ----- a body in single quotes -----

  /** A signal put into a body that is written in single quotes ends the literal: the server reads the body up
      to the word EXECUTE of the first signal, and the rest of the signal as something else. */
  lemma QuotedBodyEndsAtSignal(before: string, indent: string, channel: string, signalID: string, behind: string)
    requires '\'' !in indent
    ensures ReadLiteral(DoubleQuotes(before) + indent + PlpgsqlSignal(channel, signalID) + behind)
            == Some(Literal(before + indent + "EXECUTE ", DoubleQuotes(NotifyCall(channel, signalID)) + "';" + behind))
  {
    hide DoubleQuotes, ReadLiteral, NotifyCall;
    var rest := DoubleQuotes(NotifyCall(channel, signalID)) + "';" + behind;
    SignalInQuotes(before, indent, channel, signalID, behind);
    SignalBegins(channel, signalID);
    ReadDoubled(before + indent + "EXECUTE ", rest);
  }

  lemma SignalInQuotes(before: string, indent: string, channel: string, signalID: string, behind: string)
    requires '\'' !in indent
    ensures DoubleQuotes(before) + indent + PlpgsqlSignal(channel, signalID) + behind
            == DoubleQuotes(before + indent + "EXECUTE ") + "'"
               + (DoubleQuotes(NotifyCall(channel, signalID)) + "';" + behind)
  {
    var w := indent + "EXECUTE ";
    QuoteFree(w);
    DoubleQuotesConcat(before, w);
    SignalBegins(channel, signalID);
    hide DoubleQuotes, NotifyCall, PlpgsqlSignal;
    Regroup(DoubleQuotes(before), indent, "EXECUTE ", "'", DoubleQuotes(NotifyCall(channel, signalID)), "';", behind);
    Concat3(before, indent, "EXECUTE ");
  }

  lemma SignalBegins(channel: string, signalID: string)
    ensures var quoted := DoubleQuotes(NotifyCall(channel, signalID)); quoted != "" && quoted[0] == 'S'
    ensures PlpgsqlSignal(channel, signalID) == "EXECUTE " + "'" + DoubleQuotes(NotifyCall(channel, signalID)) + "';"
  {
    assert NotifyCall(channel, signalID)[0] == 'S';
    assert EXECUTE_OPEN == "EXECUTE " + "'";
  }

  lemma Regroup(x: string, y: string, w: string, quote: string, q: string, end: string, r: string)
    ensures x + y + (w + quote + q + end) + r == (x + (y + w)) + quote + (q + end + r)
  {
    var l := x + y + (w + quote + q + end) + r;
    assert l == x + y + w + quote + q + end + r;
  }

  lemma {:induction false} DoubleQuotesConcat(a: string, b: string)
    ensures DoubleQuotes(a + b) == DoubleQuotes(a) + DoubleQuotes(b)
  {
    if a == "" {
      assert a + b == b;
    } else {
      DoubleQuotesConcat(a[1..], b);
      assert (a + b)[0] == a[0] && (a + b)[1..] == a[1..] + b;
      Concat3(if a[0] == '\'' then "''" else [a[0]], DoubleQuotes(a[1..]), DoubleQuotes(b));
    }
  }

  lemma {:induction false} QuoteFree(s: string)
    requires '\'' !in s
    ensures DoubleQuotes(s) == s
  {
    if s != "" {
      QuoteFree(s[1..]);
    }
  }
}
