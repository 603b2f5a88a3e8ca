/** What a structured PL/pgSQL program does, and what its instrumented form does. */
module Meaning {
  import opened Basics
  import opened Segmentation
  import opened Plpgsql
  import opened Splicing

  /** Variables, tables, results and errors are in `env`; FOUND is kept apart. */
  datatype Core<E> = Core(env: E, found: bool)

  /** `rowCount` is what GET DIAGNOSTICS .. = ROW_COUNT reads. */
  datatype State<E> = State(core: Core<E>, rowCount: nat)

  datatype Flow = Normal | Returned | Raised | Exited | Continued | OutOfFuel

  datatype Step<E> = Step(flow: Flow, state: State<E>)

  datatype Verdict<E> = Holds(core: Core<E>) | Fails(core: Core<E>) | Error(core: Core<E>)

  /** PL/pgSQL runs a signal as EXECUTE; it used to be PERFORM. */
  datatype Carrier = ByExecute | ByPerform

  /** The server. Statements see the whole state; conditions, loop headers and handlers cannot read the row
      count, though evaluating them may change it (`rows`). `leave` is the end of a loop, which sets FOUND
      for some; `recover` rolls the tables back from a raised state to the state at the block's BEGIN. */
  datatype World<!E> = World(
    run: (seq<Lexeme>, State<E>) -> Step<E>,
    test: (seq<Lexeme>, Core<E>) -> Verdict<E>,
    rows: (seq<Lexeme>, State<E>) -> nat,
    leave: (seq<Lexeme>, Core<E>) -> Core<E>,
    recover: (Core<E>, Core<E>) -> Core<E>,
    carrier: Carrier)

  /** A statement ran; a tracked statement started or completed; a signal was sent. */
  datatype Event<E> = Did(words: seq<Lexeme>, before: Core<E>) | Started(tag: Tag) | Completed(tag: Tag)
                    | Notified(seg: Segment)

  datatype Run<E> = Run(flow: Flow, state: State<E>, trace: seq<Event<E>>)

  // ----- execution -----

  /** The state after a signal: EXECUTE leaves FOUND alone, PERFORM sets it; both process one row. */
  function Fire<E>(w: World<E>, st: State<E>): State<E> {
    State(if w.carrier.ByExecute? then st.core else st.core.(found := true), 1)
  }

  function Prepend<E>(trace: seq<Event<E>>, r: Run<E>): Run<E> {
    r.(trace := trace + r.trace)
  }

  /** A statement with a signal tied to it leaves marks in the trace: when it starts and when it completes. */
  function Mark<E>(tag: Tag, r: Run<E>): Run<E> {
    if tag.Untracked? then r
    else r.(trace := [Started(tag)] + r.trace + (if r.flow.Normal? then [Completed(tag)] else []))
  }

  function ExecCode<E>(w: World<E>, code: Code, fuel: nat, st: State<E>): Run<E>
    decreases fuel, code, 0
  {
    match code
    case Done => Run(Normal, st, [])
    case Do(s, rest) =>
      var r := Mark(TagIn(s), ExecStmt(w, s, fuel, st));
      if r.flow.Normal? then Prepend(r.trace, ExecCode(w, rest, fuel, r.state)) else r
  }

  function ExecStmt<E>(w: World<E>, s: Stmt, fuel: nat, st: State<E>): Run<E>
    decreases fuel, s, 0
  {
    match s
    case Simple(words, _) =>
      var step := w.run(words, st);
      Run(step.flow, step.state, [Did(words, st.core)])
    case Compound(form, arms, _, _) =>
      (match form
       case Branch => ExecFirst(w, arms, fuel, st, Normal)
       case Repeat => ExecLoop(w, arms, fuel, st)
       case Block => ExecBlock(w, arms, fuel, st))
    case Remark(_) => Run(Normal, st, [])
    case Signal(seg) => Run(Normal, Fire(w, st), [Notified(seg)])
  }

  /** The body of the first arm whose header holds; `otherwise` if none does. */
  function ExecFirst<E>(w: World<E>, arms: Arms, fuel: nat, st: State<E>, otherwise: Flow): Run<E>
    decreases fuel, arms, 0
  {
    match arms
    case NoArms => Run(otherwise, st, [])
    case Arm(header, body, others) =>
      var n := w.rows(header, st);
      match w.test(header, st.core)
      case Holds(c) => ExecCode(w, body, fuel, State(c, n))
      case Fails(c) => ExecFirst(w, others, fuel, State(c, n), otherwise)
      case Error(c) => Run(Raised, State(c, n), [])
  }

  /** One unit of fuel per round. */
  function ExecLoop<E>(w: World<E>, arms: Arms, fuel: nat, st: State<E>): Run<E>
    decreases fuel, arms, 1
  {
    if arms.NoArms? then Run(Normal, st, [])
    else if fuel == 0 then Run(OutOfFuel, st, [])
    else
      var n := w.rows(arms.header, st);
      match w.test(arms.header, st.core)
      case Fails(c) => Run(Normal, State(w.leave(arms.header, c), n), [])
      case Error(c) => Run(Raised, State(c, n), [])
      case Holds(c) =>
        var r := ExecCode(w, arms.body, fuel - 1, State(c, n));
        match r.flow
        case Normal => Prepend(r.trace, ExecLoop(w, arms, fuel - 1, r.state))
        case Continued => Prepend(r.trace, ExecLoop(w, arms, fuel - 1, r.state))
        case Exited => Run(Normal, State(w.leave(arms.header, r.state.core), r.state.rowCount), r.trace)
        case _ => r
  }

  /** A block with handlers undoes what a raise in its statements had done and runs the handler that matches. */
  function ExecBlock<E>(w: World<E>, arms: Arms, fuel: nat, st: State<E>): Run<E>
    decreases fuel, arms, 1
  {
    match arms
    case NoArms => Run(Normal, st, [])
    case Arm(_, body, handlers) =>
      var r := ExecCode(w, body, fuel, st);
      if r.flow.Raised? && handlers.Arm? then
        var undone := State(w.recover(st.core, r.state.core), r.state.rowCount);
        Prepend(r.trace, ExecFirst(w, handlers, fuel, undone, Raised))
      else r
  }

  // ----- traces -----

  /** What instrumentation makes of one event: a mark becomes the signal it stands for, or nothing. */
  function Signals<E>(e: Event<E>): seq<Event<E>> {
    match e
    case Started(SignalBefore(seg)) => [Notified(seg)]
    case Completed(SignalAfter(seg)) => [Notified(seg)]
    case Started(_) => []
    case Completed(_) => []
    case _ => [e]
  }

  function Translate<E>(trace: seq<Event<E>>): seq<Event<E>> {
    if trace == [] then [] else Signals(trace[0]) + Translate(trace[1..])
  }

  /** The statements that ran, without marks and signals. */
  function Actions<E>(trace: seq<Event<E>>): seq<Event<E>> {
    if trace == [] then [] else (if trace[0].Did? then [trace[0]] else []) + Actions(trace[1..])
  }

  lemma {:induction false} TranslateConcat<E>(a: seq<Event<E>>, b: seq<Event<E>>)
    ensures Translate(a + b) == Translate(a) + Translate(b)
  {
    if a == [] {
      assert a + b == b;
    } else {
      TranslateConcat(a[1..], b);
      assert (a + b)[1..] == a[1..] + b;
      Concat3(Signals(a[0]), Translate(a[1..]), Translate(b));
    }
  }

  lemma TranslateOne<E>(e: Event<E>)
    ensures Translate([e]) == Signals(e)
  {
    assert Translate([e][1..]) == [];
  }

  lemma {:induction false} ActionsConcat<E>(a: seq<Event<E>>, b: seq<Event<E>>)
    ensures Actions(a + b) == Actions(a) + Actions(b)
  {
    if a == [] {
      assert a + b == b;
    } else {
      ActionsConcat(a[1..], b);
      assert (a + b)[1..] == a[1..] + b;
      Concat3(if a[0].Did? then [a[0]] else [], Actions(a[1..]), Actions(b));
    }
  }

  // ----- simulation -----

  /** `r'` is `r` with marks turned into signals; the row count may differ. */
  predicate Matches<E(==)>(r: Run<E>, r': Run<E>) {
    r'.flow == r.flow && r'.state.core == r.state.core && r'.trace == Translate(r.trace)
  }

  lemma MatchPrepend<E>(t: seq<Event<E>>, r: Run<E>, t': seq<Event<E>>, r': Run<E>)
    requires t' == Translate(t) && Matches(r, r')
    ensures Matches(Prepend(t, r), Prepend(t', r'))
  {
    TranslateConcat(t, r.trace);
  }

  lemma TranslateMark<E>(tag: Tag, r: Run<E>)
    ensures Translate(Mark(tag, r).trace)
            == match tag
               case Untracked => Translate(r.trace)
               case SignalBefore(seg) => [Notified(seg)] + Translate(r.trace)
               case SignalAfter(seg) => Translate(r.trace) + (if r.flow.Normal? then [Notified(seg)] else [])
  {
    if !tag.Untracked? {
      var last: seq<Event<E>> := if r.flow.Normal? then [Completed(tag)] else [];
      TranslateConcat([Started(tag)], r.trace);
      TranslateConcat([Started(tag)] + r.trace, last);
      TranslateOne<E>(Started(tag));
      TranslateOne<E>(Completed(tag));
    }
  }

  /** Running the instrumented statement with its signal, and then `rest'`. */
  lemma ExecWithSignal<E>(w: World<E>, s: Stmt, tag: Tag, rest: Code, fuel: nat, st: State<E>)
    requires TagIn(s) == Untracked
    ensures var r := ExecStmt(w, s, fuel, if tag.SignalBefore? then Fire(w, st) else st);
            var before: seq<Event<E>> := if tag.SignalBefore? then [Notified(tag.seg)] else [];
            ExecCode(w, WithSignal(s, tag, rest), fuel, st)
            == if !r.flow.Normal? then Prepend(before, r)
               else if tag.SignalAfter? then
                 Prepend(r.trace + [Notified(tag.seg)], ExecCode(w, rest, fuel, Fire(w, r.state)))
               else Prepend(before + r.trace, ExecCode(w, rest, fuel, r.state))
  {
    var r := ExecStmt(w, s, fuel, if tag.SignalBefore? then Fire(w, st) else st);
    match tag
    case Untracked =>
      assert [] + r.trace == r.trace;
    case SignalBefore(seg) =>
      if r.flow.Normal? {
        Concat3([Notified(seg)], r.trace, ExecCode(w, rest, fuel, r.state).trace);
      }
    case SignalAfter(seg) =>
      assert [] + r.trace == r.trace;
      if r.flow.Normal? {
        var next := ExecCode(w, rest, fuel, Fire(w, r.state));
        assert ExecCode(w, Do(Signal(seg), rest), fuel, r.state) == Prepend([Notified(seg)], next);
        Concat3(r.trace, [Notified(seg)], next.trace);
      }
  }

  /** The traces of a statement with its signal, when the rest follows. */
  lemma TracesJoin<E>(tag: Tag, r: Run<E>, r': Run<E>, q: Run<E>, q': Run<E>)
    requires Matches(r, r') && r.flow.Normal? && Matches(q, q')
    ensures var before: seq<Event<E>> := if tag.SignalBefore? then [Notified(tag.seg)] else [];
            var all := if tag.SignalAfter? then Prepend(r'.trace + [Notified(tag.seg)], q')
                       else Prepend(before + r'.trace, q');
            Matches(Prepend(Mark(tag, r).trace, q), all)
  {
    hide Translate;
    var before: seq<Event<E>> := if tag.SignalBefore? then [Notified(tag.seg)] else [];
    TranslateMark(tag, r);
    var here := if tag.SignalAfter? then r'.trace + [Notified(tag.seg)] else before + r'.trace;
    assert tag.Untracked? ==> here == r'.trace;
    MatchPrepend(Mark(tag, r).trace, q, here, q');
  }

  lemma TracesEnd<E>(tag: Tag, r: Run<E>, r': Run<E>)
    requires Matches(r, r') && !r.flow.Normal?
    ensures var before: seq<Event<E>> := if tag.SignalBefore? then [Notified(tag.seg)] else [];
            Matches(Mark(tag, r), Prepend(before, r'))
  {
    hide Translate;
    TranslateMark(tag, r);
    assert [] + r'.trace == r'.trace && r'.trace + [] == r'.trace;
  }

  // ----- marks change nothing -----

  predicate Unmarked<E(==)>(r: Run<E>, marked: Run<E>) {
    r.flow == marked.flow && r.state == marked.state && r.trace == Actions(marked.trace)
  }

  lemma UnmarkedPrepend<E>(t: seq<Event<E>>, r: Run<E>, t': seq<Event<E>>, r': Run<E>)
    requires t == Actions(t') && Unmarked(r, r')
    ensures Unmarked(Prepend(t, r), Prepend(t', r'))
  {
    ActionsConcat(t', r'.trace);
  }

  lemma ActionsOfMark<E>(tag: Tag, r: Run<E>)
    ensures Actions(Mark(tag, r).trace) == Actions(r.trace)
  {
    if !tag.Untracked? {
      var last: seq<Event<E>> := if r.flow.Normal? then [Completed(tag)] else [];
      ActionsConcat([Started(tag)], r.trace);
      ActionsConcat([Started(tag)] + r.trace, last);
      NoAction<E>(Started(tag));
      NoAction<E>(Completed(tag));
    }
  }

  lemma NoAction<E>(e: Event<E>)
    ensures Actions([e]) == if e.Did? then [e] else []
  {
    assert Actions([e][1..]) == [];
  }

  lemma {:induction false} PlainCode<E>(w: World<E>, code: Code, i: nat, o: Open, fuel: nat, st: State<E>)
    requires Source(code)
    ensures Unmarked(ExecCode(w, code, fuel, st), ExecCode(w, Annotate(code, i, o), fuel, st))
    decreases fuel, code, 0
  {
    match code
    case Done =>
    case Do(s, rest) =>
      var s', j, o' := AnnotateStmt(s, i, o), i + |FlattenStmt(Plainly, s)|, AfterStmt(o, s);
      PlainStmt(w, s, i, o, fuel, st);
      var r, r' := ExecStmt(w, s, fuel, st), ExecStmt(w, s', fuel, st);
      ActionsOfMark(TagIn(s'), r');
      if r.flow.Normal? {
        PlainCode(w, rest, j, o', fuel, r.state);
        UnmarkedPrepend(r.trace, ExecCode(w, rest, fuel, r.state),
                        Mark(TagIn(s'), r').trace, ExecCode(w, Annotate(rest, j, o'), fuel, r.state));
      }
  }

  lemma {:induction false} PlainStmt<E>(w: World<E>, s: Stmt, i: nat, o: Open, fuel: nat, st: State<E>)
    requires SourceStmt(s)
    ensures Unmarked(ExecStmt(w, s, fuel, st), ExecStmt(w, AnnotateStmt(s, i, o), fuel, st))
    decreases fuel, s, 0
  {
    match s
    case Simple(words, _) =>
      NoAction(Did(words, st.core));
    case Remark(_) =>
    case Compound(form, arms, _, _) =>
      match form
      case Branch => PlainFirst(w, arms, i, o, fuel, st, Normal);
      case Repeat => PlainLoop(w, arms, i, o, fuel, st);
      case Block => PlainBlock(w, arms, i, o, fuel, st);
  }

  lemma {:induction false} PlainFirst<E>(w: World<E>, arms: Arms, i: nat, o: Open, fuel: nat, st: State<E>,
                                         otherwise: Flow)
    requires SourceArms(arms)
    ensures Unmarked(ExecFirst(w, arms, fuel, st, otherwise),
                     ExecFirst(w, AnnotateArms(arms, i, o), fuel, st, otherwise))
    decreases fuel, arms, 0
  {
    match arms
    case NoArms =>
    case Arm(header, body, others) =>
      var n, j, o' := w.rows(header, st), i + |header|, Read(o, i, header);
      match w.test(header, st.core)
      case Holds(c) => PlainCode(w, body, j, o', fuel, State(c, n));
      case Fails(c) =>
        PlainFirst(w, others, j + LengthOf(body), AfterCode(o', body), fuel, State(c, n), otherwise);
      case Error(c) =>
  }

  lemma {:induction false} PlainLoop<E>(w: World<E>, arms: Arms, i: nat, o: Open, fuel: nat, st: State<E>)
    requires SourceArms(arms)
    ensures Unmarked(ExecLoop(w, arms, fuel, st), ExecLoop(w, AnnotateArms(arms, i, o), fuel, st))
    decreases fuel, arms, 1
  {
    if arms.Arm? && fuel > 0 {
      var n := w.rows(arms.header, st);
      match w.test(arms.header, st.core)
      case Fails(c) =>
      case Error(c) =>
      case Holds(c) =>
        var arms' := AnnotateArms(arms, i, o);
        PlainCode(w, arms.body, i + |arms.header|, Read(o, i, arms.header), fuel - 1, State(c, n));
        var r, r' := ExecCode(w, arms.body, fuel - 1, State(c, n)), ExecCode(w, arms'.body, fuel - 1, State(c, n));
        if r.flow.Normal? || r.flow.Continued? {
          PlainLoop(w, arms, i, o, fuel - 1, r.state);
          UnmarkedPrepend(r.trace, ExecLoop(w, arms, fuel - 1, r.state),
                         r'.trace, ExecLoop(w, arms', fuel - 1, r.state));
        }
    }
  }

  lemma {:induction false} PlainBlock<E>(w: World<E>, arms: Arms, i: nat, o: Open, fuel: nat, st: State<E>)
    requires SourceArms(arms)
    ensures Unmarked(ExecBlock(w, arms, fuel, st), ExecBlock(w, AnnotateArms(arms, i, o), fuel, st))
    decreases fuel, arms, 1
  {
    match arms
    case NoArms =>
    case Arm(header, body, handlers) =>
      var j, o' := i + |header|, Read(o, i, header);
      var k, o'' := j + LengthOf(body), AfterCode(o', body);
      PlainCode(w, body, j, o', fuel, st);
      var r, r' := ExecCode(w, body, fuel, st), ExecCode(w, Annotate(body, j, o'), fuel, st);
      if r.flow.Raised? && handlers.Arm? {
        var u := State(w.recover(st.core, r.state.core), r.state.rowCount);
        PlainFirst(w, handlers, k, o'', fuel, u, Raised);
        UnmarkedPrepend(r.trace, ExecFirst(w, handlers, fuel, u, Raised),
                       r'.trace, ExecFirst(w, AnnotateArms(handlers, k, o''), fuel, u, Raised));
      }
  }

  // ----- main results -----

  /** Same way out, same variables, tables, result and FOUND, and the same statements run in the same
      states; the signals sent are those of the marks. */
  predicate Faithful<E(==)>(plain: Run<E>, marked: Run<E>, instrumented: Run<E>) {
    && instrumented.flow == plain.flow && instrumented.state.core == plain.state.core
    && Actions(instrumented.trace) == plain.trace
    && instrumented.trace == Translate(marked.trace)
  }

  ghost predicate Preserved<E>(w: World<E>, code: Code, i: nat, o: Open, fuel: nat, st: State<E>)
    requires Source(code)
  {
    var a := Annotate(code, i, o);
    Faithful(ExecCode(w, code, fuel, st), ExecCode(w, a, fuel, st), ExecCode(w, Instrument(a), fuel, st))
  }

  lemma {:induction false} ActionsOfTranslate<E>(trace: seq<Event<E>>)
    ensures Actions(Translate(trace)) == Actions(trace)
  {
    if trace != [] {
      var e := trace[0];
      ActionsOfTranslate(trace[1..]);
      ActionsConcat(Signals(e), Translate(trace[1..]));
      NoAction(e);
      forall seg ensures Actions([Event<E>.Notified(seg)]) == [] { NoAction<E>(Notified(seg)); }
    }
  }

  lemma MatchesUnmarked<E>(plain: Run<E>, marked: Run<E>, instrumented: Run<E>)
    requires Unmarked(plain, marked) && Matches(marked, instrumented)
    ensures Faithful(plain, marked, instrumented)
  {
    ActionsOfTranslate(marked.trace);
  }

  /** Signals are counted exactly: one for each start of the terminal a segment ends in, otherwise one for
      each normal completion of the statement whose `;` ends the segment. */
  lemma {:induction false} SignalsSent<E>(trace: seq<Event<E>>, seg: Segment)
    ensures multiset(Translate(trace))[Notified(seg)]
            == multiset(trace)[Started(SignalBefore(seg))] + multiset(trace)[Completed(SignalAfter(seg))]
               + multiset(trace)[Notified(seg)]
  {
    if trace != [] {
      var e, rest := trace[0], trace[1..];
      SignalsSent(rest, seg);
      assert trace == [e] + rest;
      assert multiset(Translate(trace)) == multiset(Signals(e)) + multiset(Translate(rest));
      assert multiset(trace) == multiset([e]) + multiset(rest);
      SignalOf(e, seg);
    }
  }

  lemma SignalOf<E>(e: Event<E>, seg: Segment)
    ensures multiset(Signals(e))[Notified(seg)]
            == multiset([e])[Started(SignalBefore(seg))] + multiset([e])[Completed(SignalAfter(seg))]
               + multiset([e])[Notified(seg)]
  {
  }

  // ----- no signal of any other segment -----

  /** EXIT, CONTINUE and the like: statements behind which nothing is reached. */
  ghost predicate Endless<E(!new)>(w: World<E>, words: seq<Lexeme>) {
    forall st :: !w.run(words, st).flow.Normal?
  }

  /** No signal statements; and all tags name segments of `segs`, but for those of statements that never complete. */
  ghost predicate CodeWithin<E(!new)>(w: World<E>, code: Code, segs: set<Segment>) {
    match code
    case Done => true
    case Do(s, rest) => StmtWithin(w, s, segs) && CodeWithin(w, rest, segs)
  }

  ghost predicate StmtWithin<E(!new)>(w: World<E>, s: Stmt, segs: set<Segment>) {
    match s
    case Simple(words, tag) => TagWithin(tag, segs) || (tag.SignalAfter? && Endless(w, words))
    case Compound(_, arms, _, tag) => ArmsWithin(w, arms, segs) && TagWithin(tag, segs)
    case Remark(_) => true
    case Signal(_) => false
  }

  ghost predicate ArmsWithin<E(!new)>(w: World<E>, arms: Arms, segs: set<Segment>) {
    match arms
    case NoArms => true
    case Arm(_, body, others) => CodeWithin(w, body, segs) && ArmsWithin(w, others, segs)
  }

  predicate TagWithin(tag: Tag, segs: set<Segment>) {
    tag.Untracked? || tag.seg in segs
  }

  /** The event stands for no signal, or for one of `segs`. */
  predicate EventWithin<E>(e: Event<E>, segs: set<Segment>) {
    match e
    case Did(_, _) => true
    case Started(tag) => tag.SignalBefore? ==> tag.seg in segs
    case Completed(tag) => tag.SignalAfter? ==> tag.seg in segs
    case Notified(_) => false
  }

  predicate TraceWithin<E>(trace: seq<Event<E>>, segs: set<Segment>) {
    forall k :: 0 <= k < |trace| ==> EventWithin(trace[k], segs)
  }

  lemma WithinConcat<E>(a: seq<Event<E>>, b: seq<Event<E>>, segs: set<Segment>)
    requires TraceWithin(a, segs) && TraceWithin(b, segs)
    ensures TraceWithin(a + b, segs)
  {
  }

  lemma WithinMark<E>(tag: Tag, r: Run<E>, segs: set<Segment>)
    requires TagWithin(tag, segs) || (tag.SignalAfter? && !r.flow.Normal?)
    requires TraceWithin(r.trace, segs)
    ensures TraceWithin(Mark(tag, r).trace, segs)
  {
  }

  lemma {:induction false} CodeTrace<E(!new)>(w: World<E>, code: Code, fuel: nat, st: State<E>, segs: set<Segment>)
    requires CodeWithin(w, code, segs)
    ensures TraceWithin(ExecCode(w, code, fuel, st).trace, segs)
    decreases fuel, code, 0
  {
    match code
    case Done =>
    case Do(s, rest) =>
      hide TraceWithin;
      StmtTrace(w, s, fuel, st, segs);
      var r := ExecStmt(w, s, fuel, st);
      WithinMark(TagIn(s), r, segs);
      if r.flow.Normal? {
        CodeTrace(w, rest, fuel, r.state, segs);
        WithinConcat(Mark(TagIn(s), r).trace, ExecCode(w, rest, fuel, r.state).trace, segs);
      }
  }

  lemma {:induction false} StmtTrace<E(!new)>(w: World<E>, s: Stmt, fuel: nat, st: State<E>, segs: set<Segment>)
    requires StmtWithin(w, s, segs)
    ensures TraceWithin(ExecStmt(w, s, fuel, st).trace, segs)
    decreases fuel, s, 0
  {
    match s
    case Simple(words, _) =>
    case Remark(_) =>
    case Compound(form, arms, _, _) =>
      match form
      case Branch => FirstTrace(w, arms, fuel, st, Normal, segs);
      case Repeat => LoopTrace(w, arms, fuel, st, segs);
      case Block => BlockTrace(w, arms, fuel, st, segs);
  }

  lemma {:induction false} FirstTrace<E(!new)>(w: World<E>, arms: Arms, fuel: nat, st: State<E>, otherwise: Flow,
                                         segs: set<Segment>)
    requires ArmsWithin(w, arms, segs)
    ensures TraceWithin(ExecFirst(w, arms, fuel, st, otherwise).trace, segs)
    decreases fuel, arms, 0
  {
    if arms.Arm? {
      var n := w.rows(arms.header, st);
      match w.test(arms.header, st.core)
      case Holds(c) => CodeTrace(w, arms.body, fuel, State(c, n), segs);
      case Fails(c) => FirstTrace(w, arms.others, fuel, State(c, n), otherwise, segs);
      case Error(c) =>
    }
  }

  lemma {:induction false} LoopTrace<E(!new)>(w: World<E>, arms: Arms, fuel: nat, st: State<E>, segs: set<Segment>)
    requires ArmsWithin(w, arms, segs)
    ensures TraceWithin(ExecLoop(w, arms, fuel, st).trace, segs)
    decreases fuel, arms, 1
  {
    if arms.Arm? && fuel > 0 {
      match w.test(arms.header, st.core)
      case Fails(c) =>
      case Error(c) =>
      case Holds(c) =>
        var start := State(c, w.rows(arms.header, st));
        CodeTrace(w, arms.body, fuel - 1, start, segs);
        var r := ExecCode(w, arms.body, fuel - 1, start);
        if r.flow.Normal? || r.flow.Continued? {
          LoopTrace(w, arms, fuel - 1, r.state, segs);
          WithinConcat(r.trace, ExecLoop(w, arms, fuel - 1, r.state).trace, segs);
        }
    }
  }

  lemma {:induction false} BlockTrace<E(!new)>(w: World<E>, arms: Arms, fuel: nat, st: State<E>, segs: set<Segment>)
    requires ArmsWithin(w, arms, segs)
    ensures TraceWithin(ExecBlock(w, arms, fuel, st).trace, segs)
    decreases fuel, arms, 1
  {
    if arms.Arm? {
      CodeTrace(w, arms.body, fuel, st, segs);
      var r := ExecCode(w, arms.body, fuel, st);
      if r.flow.Raised? && arms.others.Arm? {
        var undone := State(w.recover(st.core, r.state.core), r.state.rowCount);
        FirstTrace(w, arms.others, fuel, undone, Raised, segs);
        WithinConcat(r.trace, ExecFirst(w, arms.others, fuel, undone, Raised).trace, segs);
      }
    }
  }

  lemma {:induction false} AnnotatedWithin<E(!new)>(w: World<E>, code: Code, i: nat, o: Open, segs: set<Segment>)
    requires Source(code) && forall seg :: seg in SegmentsOf(Annotate(code, i, o)) ==> seg in segs
    ensures CodeWithin(w, Annotate(code, i, o), segs)
    decreases code
  {
    match code
    case Done =>
    case Do(s, rest) =>
      var m, o' := i + |FlattenStmt(Plainly, s)|, AfterStmt(o, s);
      var a, b := SegmentsOfStmt(AnnotateStmt(s, i, o)), SegmentsOf(Annotate(rest, m, o'));
      assert SegmentsOf(Annotate(code, i, o)) == a + b;
      InConcat(a, b, segs);
      AnnotatedStmtWithin(w, s, i, o, segs);
      AnnotatedWithin(w, rest, m, o', segs);
  }

  lemma InConcat(a: seq<Segment>, b: seq<Segment>, segs: set<Segment>)
    requires forall seg :: seg in a + b ==> seg in segs
    ensures (forall seg :: seg in a ==> seg in segs) && (forall seg :: seg in b ==> seg in segs)
  {
    forall seg | seg in a || seg in b ensures seg in segs { assert seg in a + b; }
  }

  lemma {:induction false} AnnotatedStmtWithin<E(!new)>(w: World<E>, s: Stmt, i: nat, o: Open, segs: set<Segment>)
    requires SourceStmt(s) && forall seg :: seg in SegmentsOfStmt(AnnotateStmt(s, i, o)) ==> seg in segs
    ensures StmtWithin(w, AnnotateStmt(s, i, o), segs)
    decreases s
  {
    var tag := TagIn(AnnotateStmt(s, i, o));
    match s
    case Simple(words, _) =>
      assert SegmentsOfStmt(AnnotateStmt(s, i, o)) == SegmentOf(tag);
      assert !tag.Untracked? ==> SegmentOf(tag)[0] == tag.seg;
    case Compound(_, arms, closer, _) =>
      var a := SegmentsOfArms(AnnotateArms(arms, i, o));
      assert SegmentsOfStmt(AnnotateStmt(s, i, o)) == a + SegmentOf(tag);
      InConcat(a, SegmentOf(tag), segs);
      assert !tag.Untracked? ==> SegmentOf(tag)[0] == tag.seg;
      AnnotatedArmsWithin(w, arms, i, o, segs);
    case Remark(_) =>
  }

  lemma {:induction false} AnnotatedArmsWithin<E(!new)>(w: World<E>, arms: Arms, i: nat, o: Open, segs: set<Segment>)
    requires SourceArms(arms) && forall seg :: seg in SegmentsOfArms(AnnotateArms(arms, i, o)) ==> seg in segs
    ensures ArmsWithin(w, AnnotateArms(arms, i, o), segs)
    decreases arms
  {
    match arms
    case NoArms =>
    case Arm(header, body, others) =>
      var j, o' := i + |header|, Read(o, i, header);
      var k, o'' := j + LengthOf(body), AfterCode(o', body);
      var a, b := SegmentsOf(Annotate(body, j, o')), SegmentsOfArms(AnnotateArms(others, k, o''));
      assert SegmentsOfArms(AnnotateArms(arms, i, o)) == a + b;
      InConcat(a, b, segs);
      AnnotatedWithin(w, body, j, o', segs);
      AnnotatedArmsWithin(w, others, k, o'', segs);
  }

  lemma {:induction false} TranslatedWithin<E>(trace: seq<Event<E>>, segs: set<Segment>, seg: Segment)
    requires TraceWithin(trace, segs) && Notified(seg) in Translate(trace)
    ensures seg in segs
    decreases |trace|
  {
    if Notified(seg) in Signals(trace[0]) {
      assert EventWithin(trace[0], segs);
    } else {
      TranslatedWithin(trace[1..], segs, seg);
    }
  }

  // ----- two programs that do not keep their meaning -----

  function Two(first: seq<Lexeme>, second: seq<Lexeme>): (code: Code)
    ensures Source(code) <==> SimpleWords(first) && SimpleWords(second)
  {
    Do(Simple(first, Untracked), One(second, Untracked))
  }

  function One(words: seq<Lexeme>, tag: Tag): (code: Code)
    ensures Source(code) <==> SimpleWords(words) && tag == Untracked
  {
    Do(Simple(words, tag), Done)
  }

  lemma RunOne<E>(w: World<E>, words: seq<Lexeme>, st: State<E>)
    ensures var r, step := ExecCode(w, One(words, Untracked), 0, st), w.run(words, st);
            r.flow == step.flow && r.state == step.state
  {
    var stmt := Simple(words, Untracked);
    var r := ExecStmt(w, stmt, 0, st);
    assert Mark(TagIn(stmt), r) == r;
    assert ExecCode(w, One(words, Untracked), 0, st)
           == if r.flow.Normal? then Prepend(r.trace, ExecCode(w, Done, 0, r.state)) else r;
  }

  lemma AnnotateTwo(first: seq<Lexeme>, second: seq<Lexeme>)
    requires SimpleWords(first) && SimpleWords(second)
    ensures var i := |first| + 1;
            Annotate(Two(first, second), 0, Fresh)
            == Do(Simple(first, TagOf(Fresh, 0, first, TerminalWords(first))),
                  One(second, TagOf(Fresh, i, second, TerminalWords(second))))
  {
    var i := |first| + 1;
    assert |FlattenStmt(Plainly, Simple(first, Untracked))| == i;
    assert Annotate(One(second, Untracked), i, Fresh) == One(second, TagOf(Fresh, i, second, TerminalWords(second)));
  }

  /** A statement without comments, RETURN and RAISE has its signal behind it. */
  lemma OrdinaryWords(words: seq<Lexeme>, i: nat)
    requires words != [] && forall k :: 0 <= k < |words| ==> words[k].kind.Other?
    ensures SimpleWords(words) && TagOf(Fresh, i, words, TerminalWords(words)) == SignalAfter(Segment(i, i + |words|))
  {
    assert First(words) == 0 by { assert !words[0].kind.Comment?; }
  }

  const UPDATE: seq<Lexeme> := [Lexeme(Other, "UPDATE"), Lexeme(Other, "t"), Lexeme(Other, "SET"), Lexeme(Other, "x")]
  const GET: seq<Lexeme> := [Lexeme(Other, "GET"), Lexeme(Other, "DIAGNOSTICS"), Lexeme(Other, "n")]

  /** UPDATE changes five rows; GET DIAGNOSTICS stores the row count in the only variable. */
  function Counting(): World<int> {
    World((words, st: State<int>) =>
            Step(Normal, if words == GET then State(st.core.(env := st.rowCount), st.rowCount) else State(st.core, 5)),
          (header, c) => Holds(c), (header, st) => 0, (header, c) => c, (before, c) => c, ByExecute)
  }

  /** `UPDATE ..; GET DIAGNOSTICS n = ROW_COUNT;` stores 5, and 1 when instrumented. */
  lemma RowCountOverwritten()
    ensures var code := Two(UPDATE, GET);
            var st := State(Core(0, false), 0);
            && Source(code)
            && ExecCode(Counting(), code, 0, st).state.core.env == 5
            && ExecCode(Counting(), Instrument(Annotate(code, 0, Fresh)), 0, st).state.core.env == 1
  {
    var w, st := Counting(), State(Core(0, false), 0);
    var update, get := Simple(UPDATE, Untracked), Simple(GET, Untracked);
    var first, second := SignalAfter(Segment(0, 4)), SignalAfter(Segment(5, 8));
    assert UPDATE != GET;
    OrdinaryWords(UPDATE, 0);
    OrdinaryWords(GET, 5);
    hide TagOf, TerminalWords, SimpleWords, Annotate;
    AnnotateTwo(UPDATE, GET);
    RunOne(w, GET, State(Core(0, false), 5));
    var rest := WithSignal(get, second, Done);
    assert Instrument(One(GET, second)) == rest;
    ExecWithSignal(w, get, second, Done, 0, State(Core(0, false), 1));
    ExecWithSignal(w, update, first, rest, 0, st);
  }

  const QUERY: seq<Lexeme> := [Lexeme(Other, "PERFORM"), Lexeme(Other, "q")]
  const READ: seq<Lexeme> := [Lexeme(Other, "n"), Lexeme(Other, ":="), Lexeme(Other, "FOUND")]

  /** The query finds nothing; the assignment stores FOUND. */
  function Observing(carrier: Carrier): World<int> {
    World((words, st: State<int>) =>
            Step(Normal, if words == READ then State(st.core.(env := if st.core.found then 1 else 0), st.rowCount)
                         else State(st.core.(found := false), 0)),
          (header, c) => Holds(c), (header, st) => 0, (header, c) => c, (before, c) => c, carrier)
  }

  /** `PERFORM ..; n := FOUND;` stores false; instrumented, it does so with EXECUTE and not with PERFORM. */
  lemma FoundOverwritten(carrier: Carrier)
    ensures var w, code, st := Observing(carrier), Two(QUERY, READ), State(Core(0, true), 0);
            && Source(code)
            && ExecCode(w, code, 0, st).state.core.env == 0
            && ExecCode(w, Instrument(Annotate(code, 0, Fresh)), 0, st).state.core.env
               == if carrier.ByExecute? then 0 else 1
  {
    var w, st := Observing(carrier), State(Core(0, true), 0);
    var query, read := Simple(QUERY, Untracked), Simple(READ, Untracked);
    var first, second := SignalAfter(Segment(0, 2)), SignalAfter(Segment(3, 6));
    assert QUERY != READ;
    OrdinaryWords(QUERY, 0);
    OrdinaryWords(READ, 3);
    hide TagOf, TerminalWords, SimpleWords, Annotate;
    AnnotateTwo(QUERY, READ);
    var after := State(Core(0, false), 0);
    RunOne(w, READ, after);
    var rest := WithSignal(read, second, Done);
    assert Instrument(One(READ, second)) == rest;
    ExecWithSignal(w, read, second, Done, 0, Fire(w, after));
    ExecWithSignal(w, query, first, rest, 0, st);
  }
}
