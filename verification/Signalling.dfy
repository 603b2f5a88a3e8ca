/** Where in a run the signals are sent: directly in front of a terminal, behind a completed statement, and in the
    arm that was taken. */
module Signalling {
  import opened Basics
  import opened Segmentation
  import opened Plpgsql
  import M = Meaning

  type Tie = (Segment, seq<Lexeme>)

  /** The segments whose signal stands in front of a terminal, with the words of the terminal. */
  function Terminals(code: Code): set<Tie>
    decreases code
  {
    match code
    case Done => {}
    case Do(s, rest) => TerminalsOfStmt(s) + Terminals(rest)
  }

  function TerminalsOfStmt(s: Stmt): set<Tie>
    decreases s
  {
    match s
    case Simple(words, SignalBefore(seg)) => {(seg, words)}
    case Compound(_, arms, _, _) => TerminalsOfArms(arms)
    case _ => {}
  }

  function TerminalsOfArms(arms: Arms): set<Tie>
    decreases arms
  {
    match arms
    case NoArms => {}
    case Arm(_, body, others) => Terminals(body) + TerminalsOfArms(others)
  }

  /** The segments whose signal stands behind a statement. */
  function Afters(code: Code): set<Segment>
    decreases code
  {
    match code
    case Done => {}
    case Do(s, rest) => AftersOfStmt(s) + Afters(rest)
  }

  function AftersOfStmt(s: Stmt): set<Segment>
    decreases s
  {
    match s
    case Simple(_, SignalAfter(seg)) => {seg}
    case Compound(_, arms, _, tag) => AftersOfArms(arms) + (if tag.SignalAfter? then {tag.seg} else {})
    case _ => {}
  }

  function AftersOfArms(arms: Arms): set<Segment>
    decreases arms
  {
    match arms
    case NoArms => {}
    case Arm(_, body, others) => Afters(body) + AftersOfArms(others)
  }

  /** No signal statements, and only simple statements are terminals. */
  predicate Proper(code: Code)
    decreases code
  {
    code.Do? ==> ProperStmt(code.stmt) && Proper(code.rest)
  }

  predicate ProperStmt(s: Stmt)
    decreases s
  {
    match s
    case Compound(_, arms, _, tag) => ProperArms(arms) && !tag.SignalBefore?
    case Signal(_) => false
    case _ => true
  }

  predicate ProperArms(arms: Arms)
    decreases arms
  {
    arms.Arm? ==> Proper(arms.body) && ProperArms(arms.others)
  }

  /** A signal in the trace is for a segment of `afters`, or stands directly in front of the terminal it is tied to. */
  predicate Justified<E(==)>(trace: seq<M.Event<E>>, k: nat, ties: set<Tie>, afters: set<Segment>)
    requires k < |trace| && trace[k].Notified?
  {
    || trace[k].seg in afters
    || (k + 1 < |trace| && trace[k + 1].Did? && (trace[k].seg, trace[k + 1].words) in ties)
  }

  predicate Told<E(==)>(trace: seq<M.Event<E>>, ties: set<Tie>, afters: set<Segment>) {
    forall k :: 0 <= k < |trace| && trace[k].Notified? ==> Justified(trace, k, ties, afters)
  }

  lemma ToldConcat<E>(a: seq<M.Event<E>>, b: seq<M.Event<E>>, ties: set<Tie>, afters: set<Segment>)
    requires Told(a, ties, afters) && Told(b, ties, afters)
    ensures Told(a + b, ties, afters)
  {
    var t := a + b;
    forall k | 0 <= k < |t| && t[k].Notified? ensures Justified(t, k, ties, afters) {
      if k < |a| {
        assert Justified(a, k, ties, afters);
      } else {
        assert t[k] == b[k - |a|] && Justified(b, k - |a|, ties, afters);
      }
    }
  }

  /** The traces of a statement with its signal. */
  lemma ToldTag<E>(s: Stmt, trace: seq<M.Event<E>>, ties: set<Tie>, afters: set<Segment>)
    requires ProperStmt(s) && TerminalsOfStmt(s) <= ties && AftersOfStmt(s) <= afters && Told(trace, ties, afters)
    requires s.Simple? ==> |trace| == 1 && trace[0].Did? && trace[0].words == s.words
    ensures var tag := TagIn(s);
            && (tag.SignalBefore? ==> Told([M.Notified(tag.seg)] + trace, ties, afters))
            && (tag.SignalAfter? ==> Told(trace + [M.Notified(tag.seg)], ties, afters))
  {
  }

  lemma {:induction false} ToldCode<E>(w: M.World<E>, code: Code, fuel: nat, st: M.State<E>, ties: set<Tie>,
                                       afters: set<Segment>)
    requires Proper(code) && Terminals(code) <= ties && Afters(code) <= afters
    ensures Told(M.ExecCode(w, Instrument(code), fuel, st).trace, ties, afters)
    decreases fuel, code, 0
  {
    if code.Do? {
      hide Told;
      var s, rest := code.stmt, code.rest;
      var tag, s', rest' := TagIn(s), InstrumentStmt(s), Instrument(rest);
      var start := if tag.SignalBefore? then M.Fire(w, st) else st;
      M.ExecWithSignal(w, s', tag, rest', fuel, st);
      ToldStmt(w, s, fuel, start, ties, afters);
      var r := M.ExecStmt(w, s', fuel, start);
      ToldTag(s, r.trace, ties, afters);
      assert [] + r.trace == r.trace;
      if r.flow.Normal? {
        var next := if tag.SignalAfter? then M.Fire(w, r.state) else r.state;
        ToldCode(w, rest, fuel, next, ties, afters);
        var more := M.ExecCode(w, rest', fuel, next).trace;
        if tag.SignalBefore? {
          ToldConcat([M.Notified(tag.seg)] + r.trace, more, ties, afters);
        } else if tag.SignalAfter? {
          ToldConcat(r.trace + [M.Notified(tag.seg)], more, ties, afters);
        } else {
          ToldConcat(r.trace, more, ties, afters);
        }
      }
    }
  }

  lemma {:induction false} ToldStmt<E>(w: M.World<E>, s: Stmt, fuel: nat, st: M.State<E>, ties: set<Tie>,
                                       afters: set<Segment>)
    requires ProperStmt(s) && TerminalsOfStmt(s) <= ties && AftersOfStmt(s) <= afters
    ensures var trace := M.ExecStmt(w, InstrumentStmt(s), fuel, st).trace;
            && Told(trace, ties, afters)
            && (s.Simple? ==> |trace| == 1 && trace[0].Did? && trace[0].words == s.words)
    decreases fuel, s, 0
  {
    match s
    case Simple(_, _) =>
    case Remark(_) =>
    case Compound(form, arms, _, _) =>
      match form
      case Branch => ToldFirst(w, arms, fuel, st, M.Normal, ties, afters);
      case Repeat => ToldLoop(w, arms, fuel, st, ties, afters);
      case Block => ToldBlock(w, arms, fuel, st, ties, afters);
  }

  lemma {:induction false} ToldFirst<E>(w: M.World<E>, arms: Arms, fuel: nat, st: M.State<E>, otherwise: M.Flow,
                                        ties: set<Tie>, afters: set<Segment>)
    requires ProperArms(arms) && TerminalsOfArms(arms) <= ties && AftersOfArms(arms) <= afters
    ensures Told(M.ExecFirst(w, InstrumentArms(arms), fuel, st, otherwise).trace, ties, afters)
    decreases fuel, arms, 0
  {
    if arms.Arm? {
      var n := w.rows(arms.header, st);
      match w.test(arms.header, st.core)
      case Holds(c) => ToldCode(w, arms.body, fuel, M.State(c, n), ties, afters);
      case Fails(c) => ToldFirst(w, arms.others, fuel, M.State(c, n), otherwise, ties, afters);
      case Error(c) =>
    }
  }

  lemma {:induction false} ToldLoop<E>(w: M.World<E>, arms: Arms, fuel: nat, st: M.State<E>, ties: set<Tie>,
                                       afters: set<Segment>)
    requires ProperArms(arms) && TerminalsOfArms(arms) <= ties && AftersOfArms(arms) <= afters
    ensures Told(M.ExecLoop(w, InstrumentArms(arms), fuel, st).trace, ties, afters)
    decreases fuel, arms, 1
  {
    if arms.Arm? && fuel > 0 {
      var arms', n := InstrumentArms(arms), w.rows(arms.header, st);
      match w.test(arms.header, st.core)
      case Fails(c) =>
      case Error(c) =>
      case Holds(c) =>
        ToldCode(w, arms.body, fuel - 1, M.State(c, n), ties, afters);
        var r := M.ExecCode(w, arms'.body, fuel - 1, M.State(c, n));
        if r.flow.Normal? || r.flow.Continued? {
          ToldLoop(w, arms, fuel - 1, r.state, ties, afters);
          ToldConcat(r.trace, M.ExecLoop(w, arms', fuel - 1, r.state).trace, ties, afters);
        }
    }
  }

  lemma {:induction false} ToldBlock<E>(w: M.World<E>, arms: Arms, fuel: nat, st: M.State<E>, ties: set<Tie>,
                                        afters: set<Segment>)
    requires ProperArms(arms) && TerminalsOfArms(arms) <= ties && AftersOfArms(arms) <= afters
    ensures Told(M.ExecBlock(w, InstrumentArms(arms), fuel, st).trace, ties, afters)
    decreases fuel, arms, 1
  {
    if arms.Arm? {
      var arms' := InstrumentArms(arms);
      ToldCode(w, arms.body, fuel, st, ties, afters);
      var r := M.ExecCode(w, arms'.body, fuel, st);
      if r.flow.Raised? && arms.others.Arm? {
        var undone := M.State(w.recover(st.core, r.state.core), r.state.rowCount);
        ToldFirst(w, arms.others, fuel, undone, M.Raised, ties, afters);
        ToldConcat(r.trace, M.ExecFirst(w, arms'.others, fuel, undone, M.Raised).trace, ties, afters);
      }
    }
  }

  // ----- annotated code -----

  /** The words of every tie are those of a terminal. */
  predicate AllTerminal(ties: set<Tie>) {
    forall tie :: tie in ties ==> TerminalWords(tie.1)
  }

  lemma {:induction false} AnnotatedProper(code: Code, i: nat, o: Open)
    requires Source(code)
    ensures Proper(Annotate(code, i, o)) && AllTerminal(Terminals(Annotate(code, i, o)))
    decreases code
  {
    if code.Do? {
      AnnotatedProperStmt(code.stmt, i, o);
      AnnotatedProper(code.rest, i + |FlattenStmt(Plainly, code.stmt)|, AfterStmt(o, code.stmt));
    }
  }

  lemma {:induction false} AnnotatedProperStmt(s: Stmt, i: nat, o: Open)
    requires SourceStmt(s)
    ensures ProperStmt(AnnotateStmt(s, i, o)) && AllTerminal(TerminalsOfStmt(AnnotateStmt(s, i, o)))
    decreases s
  {
    hide TerminalWords, First;
    if s.Compound? {
      AnnotatedProperArms(s.arms, i, o);
    }
  }

  lemma {:induction false} AnnotatedProperArms(arms: Arms, i: nat, o: Open)
    requires SourceArms(arms)
    ensures ProperArms(AnnotateArms(arms, i, o)) && AllTerminal(TerminalsOfArms(AnnotateArms(arms, i, o)))
    decreases arms
  {
    if arms.Arm? {
      var j, o' := i + |arms.header|, Read(o, i, arms.header);
      AnnotatedProper(arms.body, j, o');
      AnnotatedProperArms(arms.others, j + LengthOf(arms.body), AfterCode(o', arms.body));
    }
  }

  /** RETURN, or RAISE whose next word is no message level. */
  predicate EndsFunction(words: seq<Lexeme>)
    requires words != []
  {
    || words[0].kind == KReturn
    || (words[0].kind == KRaise
        && forall j :: 0 < j < |words| && words[j].kind in {KNotice, KWarning, KInfo, KLog, KDebug}
                       ==> exists k :: 0 < k < j && words[k].kind != Comment)
  }

  lemma EndsFunctionIs(words: seq<Lexeme>)
    requires words != []
    ensures TerminalWords(words) <==> EndsFunction(words)
  {
    var ks := KindsOf(words);
    TerminalAtIs(ks, 0, |words|);
    if EndsFunction(words) && words[0].kind == KRaise {
      forall j | 0 < j < |words| && ks[j] in {KNotice, KWarning, KInfo, KLog, KDebug}
        ensures exists k :: 0 < k < j && ks[k] != Comment
      {
        var k :| 0 < k < j && words[k].kind != Comment;
        assert ks[k] != Comment;
      }
    }
    if TerminalWords(words) && words[0].kind == KRaise {
      forall j | 0 < j < |words| && words[j].kind in {KNotice, KWarning, KInfo, KLog, KDebug}
        ensures exists k :: 0 < k < j && words[k].kind != Comment
      {
        assert ks[j] in {KNotice, KWarning, KInfo, KLog, KDebug};
        var k :| 0 < k < j && ks[k] != Comment;
        assert words[k].kind != Comment;
      }
    }
  }

  /** A simple statement ends the segment `o` that is being read, or is one by itself. It has a signal unless that
      segment opens with a structural keyword: a RETURN or fatal RAISE in front of it, any other behind it. */
  lemma StatementSignal(words: seq<Lexeme>, rest: Code, i: nat, o: Open)
    requires SimpleWords(words) && Source(rest)
    ensures var seg := Segment(if o.Opened? then o.first else i, i + |words|);
            var opener := if o.Opened? then o.kind else words[0].kind;
            var s, rest' := Simple(words, Untracked), Instrument(Annotate(rest, i + |words| + 1, Fresh));
            Instrument(Annotate(Do(s, rest), i, o))
            == if opener in {KBegin, KEnd, KLoop, KDeclare, KException} then Do(s, rest')
               else if EndsFunction(words) then Do(Signal(seg), Do(s, rest'))
               else Do(s, Do(Signal(seg), rest'))
  {
    EndsFunctionIs(words);
    assert First(words) == 0;
    var s := Simple(words, Untracked);
    assert |FlattenStmt(Plainly, s)| == |words| + 1;
    assert Annotate(Do(s, rest), i, o) == Do(AnnotateStmt(s, i, o), Annotate(rest, i + |words| + 1, Fresh));
  }

  /** In every run of instrumented code, a signal of a segment with a terminal stands directly in front of
      that terminal; every other signal is for a segment without one. */
  lemma SignalsInFront<E>(w: M.World<E>, code: Code, i: nat, o: Open, fuel: nat, st: M.State<E>)
    requires Source(code)
    ensures var a := Annotate(code, i, o);
            Told(M.ExecCode(w, Instrument(a), fuel, st).trace, Terminals(a), Afters(a)) && AllTerminal(Terminals(a))
  {
    AnnotatedProper(code, i, o);
    var a := Annotate(code, i, o);
    ToldCode(w, a, fuel, st, Terminals(a), Afters(a));
  }

  /** The same for a whole function body. */
  lemma BodySignalsInFront<E>(w: M.World<E>, b: Body, fuel: nat, st: M.State<E>)
    requires SourceBody(b)
    ensures var a := AnnotateArms(Inside(b), |b.preamble| + 1, Fresh);
            && Told(M.ExecBlock(w, Inside(InstrumentedBody(b)), fuel, st).trace, TerminalsOfArms(a), AftersOfArms(a))
            && AllTerminal(TerminalsOfArms(a))
  {
    hide Told, First, Source, SourceArms;
    SourceInside(b);
    var a := AnnotateArms(Inside(b), |b.preamble| + 1, Fresh);
    AnnotatedProperArms(Inside(b), |b.preamble| + 1, Fresh);
    assert Inside(InstrumentedBody(b)) == InstrumentArms(a);
    ToldBlock(w, a, fuel, st, TerminalsOfArms(a), AftersOfArms(a));
  }

  lemma SourceInside(b: Body)
    requires SourceBody(b)
    ensures SourceArms(Inside(b))
  {
  }

  // ----- branches -----

  lemma {:induction false} Named(code: Code, seg: Segment)
    requires Proper(code) && (seg in Afters(code) || exists words :: (seg, words) in Terminals(code))
    ensures seg in SegmentsOf(code)
    decreases code
  {
    if code.Do? {
      var s, rest := code.stmt, code.rest;
      if seg in AftersOfStmt(s) || exists words :: (seg, words) in TerminalsOfStmt(s) {
        NamedInStmt(s, seg);
      } else {
        Named(rest, seg);
      }
    }
  }

  lemma {:induction false} NamedInStmt(s: Stmt, seg: Segment)
    requires ProperStmt(s) && (seg in AftersOfStmt(s) || exists words :: (seg, words) in TerminalsOfStmt(s))
    ensures seg in SegmentsOfStmt(s)
    decreases s
  {
    match s
    case Simple(_, tag) =>
      assert SegmentOf(tag) == [seg];
    case Compound(_, arms, _, tag) =>
      if tag == SignalAfter(seg) {
        assert SegmentOf(tag) == [seg];
      } else {
        NamedInArms(arms, seg);
      }
    case Remark(_) =>
  }

  lemma {:induction false} NamedInArms(arms: Arms, seg: Segment)
    requires ProperArms(arms) && (seg in AftersOfArms(arms) || exists words :: (seg, words) in TerminalsOfArms(arms))
    ensures seg in SegmentsOfArms(arms)
    decreases arms
  {
    if arms.Arm? {
      if seg in Afters(arms.body) || exists words :: (seg, words) in Terminals(arms.body) {
        Named(arms.body, seg);
      } else {
        NamedInArms(arms.others, seg);
      }
    }
  }

  /** The arm whose body a branch runs, if any. */
  function Taken<E>(w: M.World<E>, arms: Arms, c: M.Core<E>): Option<Code>
    decreases arms
  {
    match arms
    case NoArms => None
    case Arm(header, body, others) =>
      match w.test(header, c)
      case Holds(_) => Some(body)
      case Fails(c') => Taken(w, others, c')
      case Error(_) => None
  }

  lemma ToldNames<E>(code: Code, trace: seq<M.Event<E>>, seg: Segment)
    requires Proper(code) && Told(trace, Terminals(code), Afters(code)) && M.Notified(seg) in trace
    ensures seg in SegmentsOf(code)
  {
    var k :| 0 <= k < |trace| && trace[k] == M.Notified(seg);
    assert Justified(trace, k, Terminals(code), Afters(code));
    Named(code, seg);
  }

  lemma {:induction false} FirstNotifies<E>(w: M.World<E>, arms: Arms, fuel: nat, st: M.State<E>, otherwise: M.Flow,
                                            seg: Segment)
    requires ProperArms(arms) && M.Notified(seg) in M.ExecFirst(w, InstrumentArms(arms), fuel, st, otherwise).trace
    ensures var taken := Taken(w, arms, st.core); taken.Some? && seg in SegmentsOf(taken.value)
    decreases arms
  {
    match arms
    case NoArms =>
    case Arm(header, body, others) =>
      var n := w.rows(header, st);
      match w.test(header, st.core)
      case Holds(c) =>
        ToldCode(w, body, fuel, M.State(c, n), Terminals(body), Afters(body));
        ToldNames(body, M.ExecCode(w, Instrument(body), fuel, M.State(c, n)).trace, seg);
      case Fails(c) => FirstNotifies(w, others, fuel, M.State(c, n), otherwise, seg);
      case Error(c) =>
  }

  /** What an instrumented branch sends is for statements of the arm it takes, or is the branch's own signal. */
  lemma BranchNotifies<E>(w: M.World<E>, s: Stmt, i: nat, o: Open, fuel: nat, st: M.State<E>, seg: Segment)
    requires SourceStmt(s) && s.Compound? && s.form.Branch?
    requires var a := AnnotateStmt(s, i, o); M.Notified(seg) in M.ExecCode(w, Instrument(Do(a, Done)), fuel, st).trace
    ensures var a := AnnotateStmt(s, i, o);
            || a.tag == SignalAfter(seg)
            || (var taken := Taken(w, a.arms, st.core); taken.Some? && seg in SegmentsOf(taken.value))
  {
    hide AnnotateArms, InstrumentArms, TagOf, Source, SourceArms;
    var a := AnnotateStmt(s, i, o);
    AnnotatedProperStmt(s, i, o);
    M.ExecWithSignal(w, InstrumentStmt(a), a.tag, Done, fuel, st);
    var r := M.ExecStmt(w, InstrumentStmt(a), fuel, st);
    if M.Notified(seg) in r.trace {
      FirstNotifies(w, a.arms, fuel, st, M.Normal, seg);
    }
  }

  /** What an instrumented block sends is for its statements; for those of the handler it takes, if its statements
      raise; or is the block's own signal. */
  lemma BlockNotifies<E>(w: M.World<E>, s: Stmt, i: nat, o: Open, fuel: nat, st: M.State<E>, seg: Segment)
    requires SourceStmt(s) && s.Compound? && s.form.Block? && s.arms.Arm?
    requires var a := AnnotateStmt(s, i, o);
             M.Notified(seg) in M.ExecCode(w, Instrument(Do(a, Done)), fuel, st).trace
    ensures AnnotateStmt(s, i, o).arms.Arm?
    ensures var a := AnnotateStmt(s, i, o);
            var r := M.ExecCode(w, Instrument(a.arms.body), fuel, st);
            var taken := Taken(w, a.arms.others, w.recover(st.core, r.state.core));
            || a.tag == SignalAfter(seg) || seg in SegmentsOf(a.arms.body)
            || (r.flow.Raised? && taken.Some? && seg in SegmentsOf(taken.value))
  {
    hide Annotate, Instrument, TagOf, Source, SourceArms;
    var a := AnnotateStmt(s, i, o);
    assert a.arms.Arm?;
    AnnotatedProperStmt(s, i, o);
    assert Instrument(Do(a, Done)) == WithSignal(InstrumentStmt(a), a.tag, Done) by { InstrumentOne(a); }
    M.ExecWithSignal(w, InstrumentStmt(a), a.tag, Done, fuel, st);
    if M.Notified(seg) in M.ExecStmt(w, InstrumentStmt(a), fuel, st).trace {
      BlockSends(w, a.arms, fuel, st, seg);
    }
  }

  lemma InstrumentOne(s: Stmt)
    requires s.Compound?
    ensures Instrument(Do(s, Done)) == WithSignal(InstrumentStmt(s), s.tag, Done)
  {
  }

  lemma BlockSends<E>(w: M.World<E>, arms: Arms, fuel: nat, st: M.State<E>, seg: Segment)
    requires arms.Arm? && ProperArms(arms) && M.Notified(seg) in M.ExecBlock(w, InstrumentArms(arms), fuel, st).trace
    ensures var r := M.ExecCode(w, Instrument(arms.body), fuel, st);
            var taken := Taken(w, arms.others, w.recover(st.core, r.state.core));
            seg in SegmentsOf(arms.body) || (r.flow.Raised? && taken.Some? && seg in SegmentsOf(taken.value))
  {
    var body, handlers := arms.body, arms.others;
    var r := M.ExecCode(w, Instrument(body), fuel, st);
    if M.Notified(seg) in r.trace {
      ToldCode(w, body, fuel, st, Terminals(body), Afters(body));
      ToldNames(body, r.trace, seg);
    } else {
      var undone := M.State(w.recover(st.core, r.state.core), r.state.rowCount);
      FirstNotifies(w, handlers, fuel, undone, M.Raised, seg);
    }
  }
}
