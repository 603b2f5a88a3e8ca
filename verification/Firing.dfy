/** An instrumented program on its own terms: the statements it goes through, in the states its signals leave behind,
    and that it signals each of their terminals and completions once, whatever the program reads. */
module Firing {
  import opened Plpgsql
  import opened Meaning
  import opened Splicing
  import S = Segmentation

  function FireBefore<E>(w: World<E>, tag: Tag, st: State<E>): State<E> {
    if tag.SignalBefore? then Fire(w, st) else st
  }

  /** A completed statement with its mark, and its signal fired. */
  function Fired<E>(w: World<E>, tag: Tag, r: Run<E>): Run<E> {
    Mark(tag, r).(state := if tag.SignalAfter? && r.flow.Normal? then Fire(w, r.state) else r.state)
  }

  // ----- annotated programs whose tags fire -----

  function FiredCode<E>(w: World<E>, code: Code, fuel: nat, st: State<E>): Run<E>
    decreases fuel, code, 0
  {
    match code
    case Done => Run(Normal, st, [])
    case Do(s, rest) =>
      var r := Fired(w, TagIn(s), FiredStmt(w, s, fuel, FireBefore(w, TagIn(s), st)));
      if r.flow.Normal? then Prepend(r.trace, FiredCode(w, rest, fuel, r.state)) else r
  }

  function FiredStmt<E>(w: World<E>, s: Stmt, fuel: nat, st: State<E>): Run<E>
    decreases fuel, s, 0
  {
    match s
    case Compound(form, arms, _, _) =>
      (match form
       case Branch => FiredFirst(w, arms, fuel, st, Normal)
       case Repeat => FiredLoop(w, arms, fuel, st)
       case Block => FiredBlock(w, arms, fuel, st))
    case _ => ExecStmt(w, s, fuel, st)
  }

  function FiredFirst<E>(w: World<E>, arms: Arms, fuel: nat, st: State<E>, otherwise: Flow): Run<E>
    decreases fuel, arms, 0
  {
    match arms
    case NoArms => Run(otherwise, st, [])
    case Arm(header, body, others) =>
      var n := w.rows(header, st);
      match w.test(header, st.core)
      case Holds(c) => FiredCode(w, body, fuel, State(c, n))
      case Fails(c) => FiredFirst(w, others, fuel, State(c, n), otherwise)
      case Error(c) => Run(Raised, State(c, n), [])
  }

  function FiredLoop<E>(w: World<E>, arms: Arms, fuel: nat, st: State<E>): Run<E>
    decreases fuel, arms, 1
  {
    if arms.NoArms? then Run(Normal, st, [])
    else if fuel == 0 then Run(OutOfFuel, st, [])
    else
      var n := w.rows(arms.header, st);
      match w.test(arms.header, st.core)
      case Fails(c) => Run(Normal, State(w.leave(arms.header, c), n), [])
      case Error(c) => Run(Raised, State(c, n), [])
      case Holds(c) =>
        var r := FiredCode(w, arms.body, fuel - 1, State(c, n));
        match r.flow
        case Normal => Prepend(r.trace, FiredLoop(w, arms, fuel - 1, r.state))
        case Continued => Prepend(r.trace, FiredLoop(w, arms, fuel - 1, r.state))
        case Exited => Run(Normal, State(w.leave(arms.header, r.state.core), r.state.rowCount), r.trace)
        case _ => r
  }

  function FiredBlock<E>(w: World<E>, arms: Arms, fuel: nat, st: State<E>): Run<E>
    decreases fuel, arms, 1
  {
    match arms
    case NoArms => Run(Normal, st, [])
    case Arm(_, body, handlers) =>
      var r := FiredCode(w, body, fuel, st);
      if r.flow.Raised? && handlers.Arm? then
        var undone := State(w.recover(st.core, r.state.core), r.state.rowCount);
        Prepend(r.trace, FiredFirst(w, handlers, fuel, undone, Raised))
      else r
  }

  // ----- that is what the instrumented program does -----

  /** Same exit and same state, row count included; the trace is that of the marks. */
  predicate Echoes<E(==)>(r: Run<E>, r': Run<E>) {
    Matches(r, r') && r'.state == r.state
  }

  lemma EchoPrepend<E>(t: seq<Event<E>>, r: Run<E>, t': seq<Event<E>>, r': Run<E>)
    requires t' == Translate(t) && Echoes(r, r')
    ensures Echoes(Prepend(t, r), Prepend(t', r'))
  {
    MatchPrepend(t, r, t', r');
  }

  lemma {:induction false} CodeEchoes<E>(w: World<E>, code: Code, fuel: nat, st: State<E>)
    ensures Echoes(FiredCode(w, code, fuel, st), ExecCode(w, Instrument(code), fuel, st))
    decreases fuel, code, 0
  {
    match code
    case Done =>
    case Do(s, rest) =>
      hide Translate, FiredStmt, ExecStmt;
      var tag, s', rest' := TagIn(s), InstrumentStmt(s), Instrument(rest);
      var start := FireBefore(w, tag, st);
      StmtEchoes(w, s, fuel, start);
      var r, r' := FiredStmt(w, s, fuel, start), ExecStmt(w, s', fuel, start);
      ExecWithSignal(w, s', tag, rest', fuel, st);
      if r.flow.Normal? {
        var next := Fired(w, tag, r).state;
        CodeEchoes(w, rest, fuel, next);
        TracesJoin(tag, r, r', FiredCode(w, rest, fuel, next), ExecCode(w, rest', fuel, next));
      } else {
        TracesEnd(tag, r, r');
      }
  }

  lemma {:induction false} StmtEchoes<E>(w: World<E>, s: Stmt, fuel: nat, st: State<E>)
    ensures Echoes(FiredStmt(w, s, fuel, st), ExecStmt(w, InstrumentStmt(s), fuel, st))
    decreases fuel, s, 0
  {
    match s
    case Simple(words, _) =>
      TranslateOne(Did(words, st.core));
    case Signal(seg) =>
      TranslateOne<E>(Notified(seg));
    case Remark(_) =>
    case Compound(form, arms, _, _) =>
      match form
      case Branch => FirstEchoes(w, arms, fuel, st, Normal);
      case Repeat => LoopEchoes(w, arms, fuel, st);
      case Block => BlockEchoes(w, arms, fuel, st);
  }

  lemma {:induction false} FirstEchoes<E>(w: World<E>, arms: Arms, fuel: nat, st: State<E>, otherwise: Flow)
    ensures Echoes(FiredFirst(w, arms, fuel, st, otherwise), ExecFirst(w, InstrumentArms(arms), fuel, st, otherwise))
    decreases fuel, arms, 0
  {
    if arms.Arm? {
      var n := w.rows(arms.header, st);
      match w.test(arms.header, st.core)
      case Holds(c) => CodeEchoes(w, arms.body, fuel, State(c, n));
      case Fails(c) => FirstEchoes(w, arms.others, fuel, State(c, n), otherwise);
      case Error(c) =>
    }
  }

  lemma NothingEchoes<E>()
    ensures Translate<E>([]) == []
  {
  }

  lemma {:induction false} LoopEchoes<E>(w: World<E>, arms: Arms, fuel: nat, st: State<E>)
    ensures Echoes(FiredLoop(w, arms, fuel, st), ExecLoop(w, InstrumentArms(arms), fuel, st))
    decreases fuel, arms, 1
  {
    hide FiredCode, ExecCode, Instrument, Translate;
    NothingEchoes<E>();
    if arms.Arm? && fuel > 0 {
      var arms', n := InstrumentArms(arms), w.rows(arms.header, st);
      match w.test(arms.header, st.core)
      case Fails(c) =>
      case Error(c) =>
      case Holds(c) =>
        CodeEchoes(w, arms.body, fuel - 1, State(c, n));
        var r, r' := FiredCode(w, arms.body, fuel - 1, State(c, n)), ExecCode(w, arms'.body, fuel - 1, State(c, n));
        if r.flow.Normal? || r.flow.Continued? {
          LoopEchoes(w, arms, fuel - 1, r.state);
          EchoPrepend(r.trace, FiredLoop(w, arms, fuel - 1, r.state), r'.trace, ExecLoop(w, arms', fuel - 1, r.state));
        }
    }
  }

  lemma {:induction false} BlockEchoes<E>(w: World<E>, arms: Arms, fuel: nat, st: State<E>)
    ensures Echoes(FiredBlock(w, arms, fuel, st), ExecBlock(w, InstrumentArms(arms), fuel, st))
    decreases fuel, arms, 1
  {
    if arms.Arm? {
      var arms' := InstrumentArms(arms);
      CodeEchoes(w, arms.body, fuel, st);
      var r, r' := FiredCode(w, arms.body, fuel, st), ExecCode(w, arms'.body, fuel, st);
      if r.flow.Raised? && arms.others.Arm? {
        var undone := State(w.recover(st.core, r.state.core), r.state.rowCount);
        FirstEchoes(w, arms.others, fuel, undone, Raised);
        EchoPrepend(r.trace, FiredFirst(w, arms.others, fuel, undone, Raised),
                    r'.trace, ExecFirst(w, arms'.others, fuel, undone, Raised));
      }
    }
  }

  // ----- no mark of any other segment -----

  lemma {:induction false} CodeFires<E(!new)>(w: World<E>, code: Code, fuel: nat, st: State<E>, segs: set<S.Segment>)
    requires CodeWithin(w, code, segs)
    ensures TraceWithin(FiredCode(w, code, fuel, st).trace, segs)
    decreases fuel, code, 0
  {
    if code.Do? {
      hide TraceWithin;
      var s, tag := code.stmt, TagIn(code.stmt);
      StmtFires(w, s, fuel, FireBefore(w, tag, st), segs);
      var q := FiredStmt(w, s, fuel, FireBefore(w, tag, st));
      var r := Fired(w, tag, q);
      WithinMark(tag, q, segs);
      if r.flow.Normal? {
        CodeFires(w, code.rest, fuel, r.state, segs);
        WithinConcat(r.trace, FiredCode(w, code.rest, fuel, r.state).trace, segs);
      }
    }
  }

  lemma {:induction false} StmtFires<E(!new)>(w: World<E>, s: Stmt, fuel: nat, st: State<E>, segs: set<S.Segment>)
    requires StmtWithin(w, s, segs)
    ensures TraceWithin(FiredStmt(w, s, fuel, st).trace, segs)
    decreases fuel, s, 0
  {
    match s
    case Simple(_, _) =>
    case Remark(_) =>
    case Compound(form, arms, _, _) =>
      match form
      case Branch => FirstFires(w, arms, fuel, st, Normal, segs);
      case Repeat => LoopFires(w, arms, fuel, st, segs);
      case Block => BlockFires(w, arms, fuel, st, segs);
  }

  lemma {:induction false} FirstFires<E(!new)>(w: World<E>, arms: Arms, fuel: nat, st: State<E>, otherwise: Flow,
                                               segs: set<S.Segment>)
    requires ArmsWithin(w, arms, segs)
    ensures TraceWithin(FiredFirst(w, arms, fuel, st, otherwise).trace, segs)
    decreases fuel, arms, 0
  {
    if arms.Arm? {
      var n := w.rows(arms.header, st);
      match w.test(arms.header, st.core)
      case Holds(c) => CodeFires(w, arms.body, fuel, State(c, n), segs);
      case Fails(c) => FirstFires(w, arms.others, fuel, State(c, n), otherwise, segs);
      case Error(c) =>
    }
  }

  lemma {:induction false} LoopFires<E(!new)>(w: World<E>, arms: Arms, fuel: nat, st: State<E>, segs: set<S.Segment>)
    requires ArmsWithin(w, arms, segs)
    ensures TraceWithin(FiredLoop(w, arms, fuel, st).trace, segs)
    decreases fuel, arms, 1
  {
    if arms.Arm? && fuel > 0 {
      var n := w.rows(arms.header, st);
      match w.test(arms.header, st.core)
      case Fails(c) =>
      case Error(c) =>
      case Holds(c) =>
        CodeFires(w, arms.body, fuel - 1, State(c, n), segs);
        var r := FiredCode(w, arms.body, fuel - 1, State(c, n));
        if r.flow.Normal? || r.flow.Continued? {
          LoopFires(w, arms, fuel - 1, r.state, segs);
          WithinConcat(r.trace, FiredLoop(w, arms, fuel - 1, r.state).trace, segs);
        }
    }
  }

  lemma {:induction false} BlockFires<E(!new)>(w: World<E>, arms: Arms, fuel: nat, st: State<E>, segs: set<S.Segment>)
    requires ArmsWithin(w, arms, segs)
    ensures TraceWithin(FiredBlock(w, arms, fuel, st).trace, segs)
    decreases fuel, arms, 1
  {
    if arms.Arm? {
      CodeFires(w, arms.body, fuel, st, segs);
      var r := FiredCode(w, arms.body, fuel, st);
      if r.flow.Raised? && arms.others.Arm? {
        var undone := State(w.recover(st.core, r.state.core), r.state.rowCount);
        FirstFires(w, arms.others, fuel, undone, Raised, segs);
        WithinConcat(r.trace, FiredFirst(w, arms.others, fuel, undone, Raised).trace, segs);
      }
    }
  }

  // ----- signals are counted exactly -----

  /** How often the terminal of a segment was reached, or the statement that ends it completed. */
  ghost function TimesCompleted<E>(marked: seq<Event<E>>, seg: S.Segment): nat {
    multiset(marked)[Started(SignalBefore(seg))] + multiset(marked)[Completed(SignalAfter(seg))]
  }

  lemma NoSignalWithin<E>(trace: seq<Event<E>>, segs: set<S.Segment>, seg: S.Segment)
    requires TraceWithin(trace, segs)
    ensures multiset(trace)[Notified(seg)] == 0
    ensures seg !in segs ==> TimesCompleted(trace, seg) == 0
  {
    forall k | 0 <= k < |trace| ensures EventWithin(trace[k], segs) {
    }
    assert Notified(seg) !in trace;
    assert seg !in segs ==> Started(SignalBefore(seg)) !in trace && Completed(SignalAfter(seg)) !in trace;
  }

  /** A run of instrumented code sends the signal of a segment exactly as often as it reaches the segment's terminal or
      completes the statement that ends it - for every program, on every server. */
  lemma CodeSignalCount<E(!new)>(w: World<E>, code: Code, i: nat, o: Open, fuel: nat, st: State<E>, seg: S.Segment)
    requires Source(code)
    ensures var a := Annotate(code, i, o);
            multiset(ExecCode(w, Instrument(a), fuel, st).trace)[Notified(seg)]
            == TimesCompleted(FiredCode(w, a, fuel, st).trace, seg)
  {
    hide Annotate, TraceWithin, TimesCompleted;
    var a := Annotate(code, i, o);
    var segs := set s | s in SegmentsOf(a);
    AnnotatedWithin(w, code, i, o, segs);
    CodeFires(w, a, fuel, st, segs);
    CodeEchoes(w, a, fuel, st);
    SignalsAre(FiredCode(w, a, fuel, st).trace, segs, seg);
  }

  lemma SignalsAre<E>(marked: seq<Event<E>>, segs: set<S.Segment>, seg: S.Segment)
    requires TraceWithin(marked, segs)
    ensures multiset(Translate(marked))[Notified(seg)] == TimesCompleted(marked, seg)
  {
    NoSignalWithin(marked, segs, seg);
    SignalsSent(marked, seg);
  }
}
