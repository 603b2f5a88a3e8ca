/** Which programs keep their meaning. A signal overwrites the row count, so a program changes exactly if a
    statement that reads the row count can be reached behind a signal, before anything else has overwritten it; that
    is decided on the annotated text. */
module Staleness {
  import opened Basics
  import opened Plpgsql
  import opened Meaning

  type Reader = seq<Lexeme> -> bool

  /** How statements and headers use the row count, by their words: which read it, and which set it whatever it was. */
  datatype Uses = Uses(sees: Reader, sets: Reader)

  /** Without regard to the row count: same exit, same variables, tables, result and FOUND. */
  ghost predicate BlindWords<E(!new)>(w: World<E>, words: seq<Lexeme>) {
    forall c: Core<E>, n: nat, m: nat ::
      var a, b := w.run(words, State(c, n)), w.run(words, State(c, m));
      a.flow == b.flow && a.state.core == b.state.core
  }

  /** Completed, a statement leaves a row count of its own; so does a header whose condition raises nothing. */
  ghost predicate Overwrites<E(!new)>(w: World<E>, words: seq<Lexeme>) {
    && (forall c: Core<E>, n: nat, m: nat ::
          var a, b := w.run(words, State(c, n)), w.run(words, State(c, m));
          a.flow.Normal? && b.flow.Normal? && a.state.core == b.state.core ==> a.state.rowCount == b.state.rowCount)
    && (forall c: Core<E>, n: nat, m: nat ::
          !w.test(words, c).Error? ==> w.rows(words, State(c, n)) == w.rows(words, State(c, m)))
  }

  /** A server on which no statement but those that `sees` names depends on the row count, and those that `sets` names
      overwrite it. */
  ghost predicate Respects<E(!new)>(w: World<E>, u: Uses) {
    && w.carrier.ByExecute?
    && (forall words :: !u.sees(words) ==> BlindWords(w, words))
    && (forall words :: u.sets(words) ==> Overwrites(w, words))
  }

  // ----- what may happen, read off the annotated text -----

  /** An exit, behind a signal if `dirty`; or a statement that reads the row count behind a signal. */
  datatype Goal = Ends(flow: Flow, dirty: bool) | Reads

  /** Going straight to an exit from a place that is behind a signal if `d`. */
  predicate Passes(flow: Flow, d: bool, g: Goal) {
    g.Ends? && g.flow == flow && (g.dirty ==> d)
  }

  predicate Normally(g: Goal) {
    g.Ends? && g.flow.Normal?
  }

  /** A terminal runs behind its own signal. */
  predicate DirtAt(s: Stmt, d: bool) {
    d || TagIn(s).SignalBefore?
  }

  /** What the statement itself has to do if its signal is sent afterwards. */
  function GoalIn(s: Stmt, g: Goal): Goal {
    if TagIn(s).SignalAfter? && Normally(g) then Ends(Normal, false) else g
  }

  /** Some run may reach the goal from the start of the code, which is behind a signal if `d`. */
  predicate May(u: Uses, code: Code, d: bool, g: Goal)
    decreases code, 0
  {
    match code
    case Done => Passes(Normal, d, g)
    case Do(s, rest) =>
      || (!Normally(g) && MayTagged(u, s, d, g))
      || (MayTagged(u, s, d, Ends(Normal, false))
          && May(u, rest, MayTagged(u, s, d, Ends(Normal, true)), g))
  }

  predicate MayTagged(u: Uses, s: Stmt, d: bool, g: Goal)
    decreases s, 1
  {
    MayStmt(u, s, DirtAt(s, d), GoalIn(s, g))
  }

  predicate MayStmt(u: Uses, s: Stmt, d: bool, g: Goal)
    decreases s, 0
  {
    match s
    case Simple(words, _) =>
      (match g
       case Ends(flow, dirty) => !flow.OutOfFuel? && (dirty ==> d && !(flow.Normal? && u.sets(words)))
       case Reads => d && u.sees(words))
    case Compound(form, arms, _, _) =>
      (match form
       case Branch => MayFirst(u, arms, d, g, Normal)
       case Repeat => MayLoop(u, arms, d, g)
       case Block => MayBlock(u, arms, d, g))
    case Remark(_) => Passes(Normal, d, g)
    case Signal(_) => Normally(g)
  }

  /** Behind a header that was evaluated. */
  predicate DirtBehind(u: Uses, header: seq<Lexeme>, d: bool) {
    d && !u.sets(header)
  }

  predicate MayFirst(u: Uses, arms: Arms, d: bool, g: Goal, otherwise: Flow)
    decreases arms, 0
  {
    match arms
    case NoArms => Passes(otherwise, d, g)
    case Arm(header, body, others) =>
      var d' := DirtBehind(u, header, d);
      Passes(Raised, d, g) || May(u, body, d', g) || MayFirst(u, others, d', g, otherwise)
  }

  /** Some round of the loop may begin behind a signal. */
  predicate LoopDirt(u: Uses, body: Code, d: bool)
    decreases body, 1
  {
    d || May(u, body, d, Ends(Normal, true)) || May(u, body, d, Ends(Continued, true))
  }

  predicate MayLoop(u: Uses, arms: Arms, d: bool, g: Goal)
    decreases arms, 1
  {
    if arms.NoArms? then Passes(Normal, d, g) else MayRound(u, arms, LoopDirt(u, arms.body, d), g)
  }

  /** What the body has to do for the loop to reach the goal: EXIT leaves the loop normally. */
  function GoalOfRound(g: Goal): Goal {
    if Normally(g) then Ends(Exited, g.dirty) else g
  }

  /** In a round that begins with the loop's header: it fails, or raises, or the body does the rest. */
  predicate MayRound(u: Uses, arms: Arms, d: bool, g: Goal)
    requires arms.Arm?
    decreases arms, 0
  {
    var d' := DirtBehind(u, arms.header, d);
    || Passes(Normal, d', g) || Passes(Raised, d, g)
    || ((g.Ends? ==> g.flow.Normal? || g.flow.Returned? || g.flow.Raised?) && May(u, arms.body, d', GoalOfRound(g)))
  }

  predicate MayBlock(u: Uses, arms: Arms, d: bool, g: Goal)
    decreases arms, 1
  {
    match arms
    case NoArms => Passes(Normal, d, g)
    case Arm(_, body, handlers) =>
      if handlers.NoArms? then May(u, body, d, g)
      else
        || ((g.Ends? ==> !g.flow.Raised?) && May(u, body, d, g))
        || (May(u, body, d, Ends(Raised, false))
            && MayFirst(u, handlers, May(u, body, d, Ends(Raised, true)), g, Raised))
  }

  /** A statement that reads the row count can be reached behind a signal. */
  predicate Stale(u: Uses, code: Code, i: nat, o: Open)
    requires Source(code)
  {
    May(u, Annotate(code, i, o), false, Reads)
  }

  // ----- programs that are not stale keep their meaning -----

  /** Equal states but for the row count, which may differ behind a signal only. */
  predicate Near<E(==)>(d: bool, st: State<E>, st': State<E>) {
    st.core == st'.core && (d || st.rowCount == st'.rowCount)
  }

  /** The exit is one that `may` allows, and so is any difference in the row count. */
  predicate Foreseen<E(==)>(may: Goal -> bool, r: Run<E>, r': Run<E>) {
    || r.flow.OutOfFuel?
    || (may(Ends(r.flow, false)) && (r.state.rowCount != r'.state.rowCount ==> may(Ends(r.flow, true))))
  }

  lemma {:induction false} SimCode<E(!new)>(w: World<E>, u: Uses, code: Code, d: bool, fuel: nat,
                                            st: State<E>, st': State<E>)
    requires Respects(w, u) && Near(d, st, st') && !May(u, code, d, Reads)
    ensures var r, r' := ExecCode(w, code, fuel, st), ExecCode(w, Instrument(code), fuel, st');
            Matches(r, r') && Foreseen(g => May(u, code, d, g), r, r')
    decreases fuel, code, 0
  {
    match code
    case Done =>
    case Do(s, rest) =>
      hide Respects, MayStmt, Foreseen;
      var tag, s', rest', d' := TagIn(s), InstrumentStmt(s), Instrument(rest), MayTagged(u, s, d, Ends(Normal, true));
      SimTagged(w, u, s, d, fuel, st, st');
      var start := if tag.SignalBefore? then Fire(w, st') else st';
      var r, r' := ExecStmt(w, s, fuel, st), ExecStmt(w, s', fuel, start);
      ExecWithSignal(w, s', tag, rest', fuel, st');
      if r.flow.Normal? {
        var next := if tag.SignalAfter? then Fire(w, r'.state) else r'.state;
        SimCode(w, u, rest, d', fuel, r.state, next);
        var q, q' := ExecCode(w, rest, fuel, r.state), ExecCode(w, rest', fuel, next);
        TracesJoin(tag, r, r', q, q');
        assert Foreseen(g => May(u, code, d, g), q, q') by { Later(u, s, rest, d, q, q'); }
      } else {
        TracesEnd(tag, r, r');
        Abrupt(u, s, rest, d, r, r');
      }
  }

  /** Any exit of the rest is one of the whole. */
  lemma Later<E>(u: Uses, s: Stmt, rest: Code, d: bool, q: Run<E>, q': Run<E>)
    requires MayTagged(u, s, d, Ends(Normal, false))
    requires var d' := MayTagged(u, s, d, Ends(Normal, true)); Foreseen(g => May(u, rest, d', g), q, q')
    ensures Foreseen(g => May(u, Do(s, rest), d, g), q, q')
  {
    hide MayTagged;
  }

  lemma Abrupt<E>(u: Uses, s: Stmt, rest: Code, d: bool, r: Run<E>, r': Run<E>)
    requires !r.flow.Normal? && Foreseen(g => MayTagged(u, s, d, g), r, r')
    ensures Foreseen(g => May(u, Do(s, rest), d, g), r, r')
  {
    hide MayTagged;
  }

  /** One statement with its signal. */
  lemma {:induction false} SimTagged<E(!new)>(w: World<E>, u: Uses, s: Stmt, d: bool, fuel: nat,
                                              st: State<E>, st': State<E>)
    requires Respects(w, u) && Near(d, st, st') && !MayTagged(u, s, d, Reads)
    ensures var tag := TagIn(s);
            var r := ExecStmt(w, s, fuel, st);
            var r' := ExecStmt(w, InstrumentStmt(s), fuel, if tag.SignalBefore? then Fire(w, st') else st');
            && Matches(r, r') && (!r.flow.Normal? ==> Foreseen(g => MayTagged(u, s, d, g), r, r'))
            && (r.flow.Normal? ==>
                  && MayTagged(u, s, d, Ends(Normal, false))
                  && Near(MayTagged(u, s, d, Ends(Normal, true)), r.state,
                          if tag.SignalAfter? then Fire(w, r'.state) else r'.state))
    decreases fuel, s, 1
  {
    hide MayStmt, ExecStmt, BlindWords;
    SimStmt(w, u, s, DirtAt(s, d), fuel, st, if TagIn(s).SignalBefore? then Fire(w, st') else st');
  }

  lemma {:induction false} SimStmt<E(!new)>(w: World<E>, u: Uses, s: Stmt, d: bool, fuel: nat,
                                            st: State<E>, st': State<E>)
    requires Respects(w, u) && Near(d, st, st') && !MayStmt(u, s, d, Reads)
    ensures var r, r' := ExecStmt(w, s, fuel, st), ExecStmt(w, InstrumentStmt(s), fuel, st');
            Matches(r, r') && Foreseen(g => MayStmt(u, s, d, g), r, r')
    decreases fuel, s, 0
  {
    match s
    case Simple(words, _) =>
      SimWords(w, u, words, d, st, st');
      TranslateOne(Did(words, st.core));
    case Signal(seg) =>
      TranslateOne<E>(Notified(seg));
    case Remark(_) =>
    case Compound(form, arms, _, _) =>
      match form
      case Branch => SimFirst(w, u, arms, d, fuel, st, st', Normal);
      case Repeat => SimLoop(w, u, arms, d, fuel, st, st');
      case Block => SimBlock(w, u, arms, d, fuel, st, st');
  }

  /** A statement that does not read the row count, or finds it unchanged. */
  lemma SimWords<E(!new)>(w: World<E>, u: Uses, words: seq<Lexeme>, d: bool, st: State<E>, st': State<E>)
    requires Respects(w, u) && Near(d, st, st') && !(d && u.sees(words))
    ensures var a, b := w.run(words, st), w.run(words, st');
            a.flow == b.flow && Near(d && !(a.flow.Normal? && u.sets(words)), a.state, b.state)
  {
    if d {
      assert BlindWords(w, words);
      assert u.sets(words) ==> Overwrites(w, words);
      assert st == State(st.core, st.rowCount) && st' == State(st.core, st'.rowCount);
    } else {
      assert st == st';
    }
  }

  lemma {:induction false} SimFirst<E(!new)>(w: World<E>, u: Uses, arms: Arms, d: bool, fuel: nat,
                                             st: State<E>, st': State<E>, otherwise: Flow)
    requires Respects(w, u) && Near(d, st, st') && !MayFirst(u, arms, d, Reads, otherwise)
    ensures var r, r' := ExecFirst(w, arms, fuel, st, otherwise),
                         ExecFirst(w, InstrumentArms(arms), fuel, st', otherwise);
            Matches(r, r') && Foreseen(g => MayFirst(u, arms, d, g, otherwise), r, r')
    decreases fuel, arms, 0
  {
    match arms
    case NoArms =>
    case Arm(header, body, others) =>
      var n, n', d' := w.rows(header, st), w.rows(header, st'), DirtBehind(u, header, d);
      SimHeader(w, u, header, d, st, st');
      match w.test(header, st.core)
      case Holds(c) => SimCode(w, u, body, d', fuel, State(c, n), State(c, n'));
      case Fails(c) => SimFirst(w, u, others, d', fuel, State(c, n), State(c, n'), otherwise);
      case Error(c) =>
  }

  lemma SimHeader<E(!new)>(w: World<E>, u: Uses, header: seq<Lexeme>, d: bool, st: State<E>, st': State<E>)
    requires Respects(w, u) && Near(d, st, st')
    ensures (if w.test(header, st.core).Error? then d else DirtBehind(u, header, d))
            || w.rows(header, st) == w.rows(header, st')
  {
    if d {
      assert u.sets(header) ==> Overwrites(w, header);
      assert st == State(st.core, st.rowCount) && st' == State(st.core, st'.rowCount);
    } else {
      assert st == st';
    }
  }

  lemma {:induction false} SimLoop<E(!new)>(w: World<E>, u: Uses, arms: Arms, d: bool, fuel: nat,
                                            st: State<E>, st': State<E>)
    requires Respects(w, u) && Near(d, st, st') && !MayLoop(u, arms, d, Reads)
    ensures var r, r' := ExecLoop(w, arms, fuel, st), ExecLoop(w, InstrumentArms(arms), fuel, st');
            Matches(r, r') && Foreseen(g => MayLoop(u, arms, d, g), r, r')
    decreases fuel, arms, 2
  {
    if arms.Arm? {
      SimRounds(w, u, arms, LoopDirt(u, arms.body, d), fuel, st, st');
    }
  }

  /** Every round, with a bound on the difference that no round exceeds. */
  lemma {:induction false} SimRounds<E(!new)>(w: World<E>, u: Uses, arms: Arms, d: bool, fuel: nat,
                                              st: State<E>, st': State<E>)
    requires Respects(w, u) && Near(d, st, st') && arms.Arm? && !MayRound(u, arms, d, Reads)
    requires LoopDirt(u, arms.body, d) == d
    ensures var r, r' := ExecLoop(w, arms, fuel, st), ExecLoop(w, InstrumentArms(arms), fuel, st');
            Matches(r, r') && Foreseen(g => MayRound(u, arms, d, g), r, r')
    decreases fuel, arms, 1
  {
    if fuel > 0 {
      hide Respects, Translate, May, MayRound, LoopDirt, Foreseen, ExecCode, DirtBehind;
      var header, body, arms' := arms.header, arms.body, InstrumentArms(arms);
      var n, n', d' := w.rows(header, st), w.rows(header, st'), DirtBehind(u, header, d);
      SimHeader(w, u, header, d, st, st');
      match w.test(header, st.core)
      case Fails(c) => Straight(u, arms, d, ExecLoop(w, arms, fuel, st), ExecLoop(w, arms', fuel, st'));
      case Error(c) => Straight(u, arms, d, ExecLoop(w, arms, fuel, st), ExecLoop(w, arms', fuel, st'));
      case Holds(c) =>
        assert !May(u, body, d', Reads) by { NoReadInRound(u, arms, d); }
        SimCode(w, u, body, d', fuel - 1, State(c, n), State(c, n'));
        var r, r' := ExecCode(w, body, fuel - 1, State(c, n)), ExecCode(w, arms'.body, fuel - 1, State(c, n'));
        if r.flow.Normal? || r.flow.Continued? {
          NextRound(u, arms, d, r, r');
          SimRounds(w, u, arms, d, fuel - 1, r.state, r'.state);
          MatchPrepend(r.trace, ExecLoop(w, arms, fuel - 1, r.state),
                       r'.trace, ExecLoop(w, arms', fuel - 1, r'.state));
        } else {
          LastRound(u, arms, d, r, r', ExecLoop(w, arms, fuel, st), ExecLoop(w, arms', fuel, st'));
        }
    } else {
      assert ExecLoop(w, arms, fuel, st).flow.OutOfFuel?;
    }
  }

  lemma NoReadInRound(u: Uses, arms: Arms, d: bool)
    requires arms.Arm? && !MayRound(u, arms, d, Reads)
    ensures !May(u, arms.body, DirtBehind(u, arms.header, d), Reads)
  {
  }

  /** The header ends the loop. */
  lemma Straight<E>(u: Uses, arms: Arms, d: bool, q: Run<E>, q': Run<E>)
    requires arms.Arm? && (q.flow.Normal? || q.flow.Raised?)
    requires (if q.flow.Raised? then d else DirtBehind(u, arms.header, d)) || q.state.rowCount == q'.state.rowCount
    ensures Foreseen(g => MayRound(u, arms, d, g), q, q')
  {
    hide May, DirtBehind;
  }

  lemma NextRound<E>(u: Uses, arms: Arms, d: bool, r: Run<E>, r': Run<E>)
    requires arms.Arm? && LoopDirt(u, arms.body, d) == d && Matches(r, r')
    requires var d' := DirtBehind(u, arms.header, d); Foreseen(g => May(u, arms.body, d', g), r, r')
    requires r.flow.Normal? || r.flow.Continued?
    ensures Near(d, r.state, r'.state)
  {
    hide May;
  }

  /** The body ends the loop. */
  lemma LastRound<E>(u: Uses, arms: Arms, d: bool, r: Run<E>, r': Run<E>, q: Run<E>, q': Run<E>)
    requires arms.Arm? && !r.flow.Normal? && !r.flow.Continued?
    requires var d' := DirtBehind(u, arms.header, d); Foreseen(g => May(u, arms.body, d', g), r, r')
    requires q.flow == (if r.flow.Exited? then Normal else r.flow)
    requires q.state.rowCount == r.state.rowCount && q'.state.rowCount == r'.state.rowCount
    ensures Foreseen(g => MayRound(u, arms, d, g), q, q')
  {
    hide May, DirtBehind;
  }

  lemma {:induction false} SimBlock<E(!new)>(w: World<E>, u: Uses, arms: Arms, d: bool, fuel: nat,
                                             st: State<E>, st': State<E>)
    requires Respects(w, u) && Near(d, st, st') && !MayBlock(u, arms, d, Reads)
    ensures var r, r' := ExecBlock(w, arms, fuel, st), ExecBlock(w, InstrumentArms(arms), fuel, st');
            Matches(r, r') && Foreseen(g => MayBlock(u, arms, d, g), r, r')
    decreases fuel, arms, 1
  {
    if arms.Arm? {
      hide Respects, Translate;
      var body, handlers, arms' := arms.body, arms.others, InstrumentArms(arms);
      SimCode(w, u, body, d, fuel, st, st');
      var r, r' := ExecCode(w, body, fuel, st), ExecCode(w, arms'.body, fuel, st');
      if r.flow.Raised? && handlers.Arm? {
        var v := State(w.recover(st.core, r.state.core), r.state.rowCount);
        var v' := State(w.recover(st.core, r.state.core), r'.state.rowCount);
        SimFirst(w, u, handlers, May(u, body, d, Ends(Raised, true)), fuel, v, v', Raised);
        MatchPrepend(r.trace, ExecFirst(w, handlers, fuel, v, Raised),
                     r'.trace, ExecFirst(w, arms'.others, fuel, v', Raised));
      }
    }
  }

  // ----- main results, this way round -----

  predicate BodyStale(u: Uses, b: Body)
    requires SourceBody(b)
  {
    MayBlock(u, Annotated(b), false, Reads)
  }

  ghost predicate BodyPreserved<E>(w: World<E>, b: Body, fuel: nat, st: State<E>)
    requires SourceBody(b)
  {
    Faithful(ExecBlock(w, Inside(b), fuel, st), ExecBlock(w, Annotated(b), fuel, st),
             ExecBlock(w, Inside(InstrumentedBody(b)), fuel, st))
  }

  /** Instrumented code goes the same way as the original, from every state, on every server. */
  lemma MeaningPreserved<E(!new)>(w: World<E>, u: Uses, code: Code, i: nat, o: Open, fuel: nat, st: State<E>)
    requires Source(code) && Respects(w, u) && !Stale(u, code, i, o)
    ensures Preserved(w, code, i, o, fuel, st)
  {
    hide Respects, Annotate, Matches, Unmarked, Faithful;
    var a := Annotate(code, i, o);
    SimCode(w, u, a, false, fuel, st, st);
    PlainCode(w, code, i, o, fuel, st);
    MatchesUnmarked(ExecCode(w, code, fuel, st), ExecCode(w, a, fuel, st), ExecCode(w, Instrument(a), fuel, st));
  }

  lemma BodyMeaningPreserved<E(!new)>(w: World<E>, u: Uses, b: Body, fuel: nat, st: State<E>)
    requires SourceBody(b) && Respects(w, u) && !BodyStale(u, b)
    ensures BodyPreserved(w, b, fuel, st)
  {
    hide Respects, Matches, Unmarked, Faithful, AnnotateArms, InstrumentArms;
    var a, a' := Annotated(b), InstrumentArms(Annotated(b));
    assert Inside(InstrumentedBody(b)) == a' by { InsideBody(b); }
    SimBlock(w, u, a, false, fuel, st, st);
    PlainBlock(w, Inside(b), |b.preamble| + 1, Fresh, fuel, st);
    MatchesUnmarked(ExecBlock(w, Inside(b), fuel, st), ExecBlock(w, a, fuel, st), ExecBlock(w, a', fuel, st));
  }

}

/** The converse: a path to a statement that reads the row count behind a signal is taken by some server, and that
    server tells the original from the instrumented program. */
module Scripts {
  import opened Basics
  import opened Plpgsql
  import opened Meaning
  import opened Splicing
  import opened Staleness

  /** The exits of the statements and the outcomes of the conditions to come, and the row counts read so far. */
  datatype Script = Script(todo: seq<Flow>, log: seq<nat>)

  const HOLDS := Normal
  const FAILS := Exited
  const RAISES := Raised

  function Next(c: Core<Script>, read: seq<nat>): Core<Script> {
    c.(env := Script(if c.env.todo == [] then [] else c.env.todo[1..], c.env.log + read))
  }

  function Head(c: Core<Script>, otherwise: Flow): Flow {
    if c.env.todo == [] then otherwise else c.env.todo[0]
  }

  function Outcome(c: Core<Script>): Verdict<Script> {
    match Head(c, FAILS)
    case Normal => Holds(Next(c, []))
    case Raised => Error(Next(c, []))
    case _ => Fails(Next(c, []))
  }

  function RunWords(u: Uses, words: seq<Lexeme>, st: State<Script>): Step<Script> {
    var flow := Head(st.core, Normal);
    Step(flow, State(Next(st.core, if u.sees(words) then [st.rowCount] else []),
                     if flow.Normal? && u.sets(words) then 2 else st.rowCount))
  }

  function RowsOf(u: Uses, header: seq<Lexeme>, st: State<Script>): nat {
    if u.sets(header) && !Outcome(st.core).Error? then 2 else st.rowCount
  }

  /** A server that does as the script says and logs the row count where a statement reads it; where one sets it, it
      becomes 2. */
  function Scripted(u: Uses): World<Script> {
    World((words, st) => RunWords(u, words, st), (header, c) => Outcome(c), (header, st) => RowsOf(u, header, st),
          (header, c) => c, (before, c) => c, ByExecute)
  }

  lemma ScriptedRespects(u: Uses)
    ensures Respects(Scripted(u), u)
  {
    hide Head, Next, BlindWords, Overwrites, Outcome;
    forall words | !u.sees(words) ensures BlindWords(Scripted(u), words) {
      ScriptedBlind(u, words);
    }
    forall words | u.sets(words) ensures Overwrites(Scripted(u), words) {
      ScriptedOverwrites(u, words);
    }
  }

  lemma ScriptedOverwrites(u: Uses, words: seq<Lexeme>)
    requires u.sets(words)
    ensures Overwrites(Scripted(u), words)
  {
    hide Head, Next, Outcome;
  }

  lemma ScriptedBlind(u: Uses, words: seq<Lexeme>)
    requires !u.sees(words)
    ensures BlindWords(Scripted(u), words)
  {
    hide Head, Next;
  }

  // ----- what every statement keeps -----

  ghost predicate Kept<E(!new)>(w: World<E>, inv: State<E> -> bool, signals: bool) {
    && (forall words, st :: inv(st) ==> inv(w.run(words, st).state))
    && (forall header, st :: inv(st) ==> inv(State(w.test(header, st.core).core, w.rows(header, st))))
    && (forall header, st :: inv(st) ==> inv(State(w.leave(header, st.core), st.rowCount)))
    && (forall before, st :: inv(st) ==> inv(State(w.recover(before, st.core), st.rowCount)))
    && (signals ==> forall st :: inv(st) ==> inv(Fire(w, st)))
  }

  lemma {:induction false} KeptByCode<E(!new)>(w: World<E>, inv: State<E> -> bool, signals: bool, code: Code, fuel: nat,
                                               st: State<E>)
    requires Kept(w, inv, signals) && inv(st) && (signals || Source(code))
    ensures inv(ExecCode(w, code, fuel, st).state)
    decreases fuel, code, 0
  {
    if code.Do? {
      hide Kept;
      KeptByStmt(w, inv, signals, code.stmt, fuel, st);
      var r := ExecStmt(w, code.stmt, fuel, st);
      if r.flow.Normal? {
        KeptByCode(w, inv, signals, code.rest, fuel, r.state);
      }
    }
  }

  lemma {:induction false} KeptByStmt<E(!new)>(w: World<E>, inv: State<E> -> bool, signals: bool, s: Stmt, fuel: nat,
                                               st: State<E>)
    requires Kept(w, inv, signals) && inv(st) && (signals || SourceStmt(s))
    ensures inv(ExecStmt(w, s, fuel, st).state)
    decreases fuel, s, 0
  {
    match s
    case Simple(_, _) =>
    case Remark(_) =>
    case Signal(_) =>
    case Compound(form, arms, _, _) =>
      match form
      case Branch => KeptByFirst(w, inv, signals, arms, fuel, st, Normal);
      case Repeat => KeptByLoop(w, inv, signals, arms, fuel, st);
      case Block => KeptByBlock(w, inv, signals, arms, fuel, st);
  }

  lemma {:induction false} KeptByFirst<E(!new)>(w: World<E>, inv: State<E> -> bool, signals: bool, arms: Arms,
                                                fuel: nat, st: State<E>, otherwise: Flow)
    requires Kept(w, inv, signals) && inv(st) && (signals || SourceArms(arms))
    ensures inv(ExecFirst(w, arms, fuel, st, otherwise).state)
    decreases fuel, arms, 0
  {
    if arms.Arm? {
      var next := State(w.test(arms.header, st.core).core, w.rows(arms.header, st));
      assert inv(next);
      hide Kept;
      match w.test(arms.header, st.core)
      case Holds(c) => KeptByCode(w, inv, signals, arms.body, fuel, next);
      case Fails(c) => KeptByFirst(w, inv, signals, arms.others, fuel, next, otherwise);
      case Error(c) =>
    }
  }

  lemma {:induction false} KeptByLoop<E(!new)>(w: World<E>, inv: State<E> -> bool, signals: bool, arms: Arms, fuel: nat,
                                               st: State<E>)
    requires Kept(w, inv, signals) && inv(st) && (signals || SourceArms(arms))
    ensures inv(ExecLoop(w, arms, fuel, st).state)
    decreases fuel, arms, 1
  {
    if arms.Arm? && fuel > 0 {
      var next := State(w.test(arms.header, st.core).core, w.rows(arms.header, st));
      assert inv(next);
      match w.test(arms.header, st.core)
      case Fails(c) => assert inv(State(w.leave(arms.header, next.core), next.rowCount));
      case Error(c) =>
      case Holds(c) =>
        KeptByCode(w, inv, signals, arms.body, fuel - 1, next);
        var r := ExecCode(w, arms.body, fuel - 1, next);
        assert inv(State(w.leave(arms.header, r.state.core), r.state.rowCount));
        if r.flow.Normal? || r.flow.Continued? {
          KeptByLoop(w, inv, signals, arms, fuel - 1, r.state);
        }
    }
  }

  lemma {:induction false} KeptByBlock<E(!new)>(w: World<E>, inv: State<E> -> bool, signals: bool, arms: Arms,
                                                fuel: nat, st: State<E>)
    requires Kept(w, inv, signals) && inv(st) && (signals || SourceArms(arms))
    ensures inv(ExecBlock(w, arms, fuel, st).state)
    decreases fuel, arms, 1
  {
    if arms.Arm? {
      KeptByCode(w, inv, signals, arms.body, fuel, st);
      var r := ExecCode(w, arms.body, fuel, st);
      var undone := State(w.recover(st.core, r.state.core), r.state.rowCount);
      assert inv(undone);
      if r.flow.Raised? && arms.others.Arm? {
        KeptByFirst(w, inv, signals, arms.others, fuel, undone, Raised);
      }
    }
  }

  /** A row count of 1 was read. */
  predicate SawOne(st: State<Script>) {
    1 in st.core.env.log
  }

  lemma SawOneKept(u: Uses)
    ensures Kept(Scripted(u), SawOne, true)
  {
    hide Outcome, Head;
    forall header, st: State<Script>
      ensures SawOne(State(Scripted(u).test(header, st.core).core, Scripted(u).rows(header, st))) == SawOne(st)
    {
      OutcomeCore(st.core);
    }
  }

  lemma OutcomeCore(c: Core<Script>)
    ensures Outcome(c).core == Next(c, []) && Next(c, []).env.log == c.env.log
  {
  }

  /** The row count is 2 and no other was read. */
  predicate SawTwos(st: State<Script>) {
    st.rowCount == 2 && forall k :: 0 <= k < |st.core.env.log| ==> st.core.env.log[k] == 2
  }

  lemma SawTwosKept(u: Uses)
    ensures Kept(Scripted(u), SawTwos, false)
  {
    hide Outcome, Head;
    forall header, st: State<Script>
      ensures SawTwos(st) ==>
                SawTwos(State(Scripted(u).test(header, st.core).core, Scripted(u).rows(header, st)))
    {
      OutcomeCore(st.core);
    }
  }

  // ----- the script that reaches a goal -----

  function ScriptOf(u: Uses, code: Code, d: bool, g: Goal): seq<Flow>
    requires May(u, code, d, g)
    decreases code, 0
  {
    match code
    case Done => []
    case Do(s, rest) =>
      if !Normally(g) && MayTagged(u, s, d, g) then ScriptOfTagged(u, s, d, g)
      else
        var d' := MayTagged(u, s, d, Ends(Normal, true));
        ScriptOfTagged(u, s, d, Ends(Normal, d')) + ScriptOf(u, rest, d', g)
  }

  function ScriptOfTagged(u: Uses, s: Stmt, d: bool, g: Goal): seq<Flow>
    requires MayTagged(u, s, d, g)
    decreases s, 1
  {
    ScriptOfStmt(u, s, DirtAt(s, d), GoalIn(s, g))
  }

  function ScriptOfStmt(u: Uses, s: Stmt, d: bool, g: Goal): seq<Flow>
    requires MayStmt(u, s, d, g)
    decreases s, 0
  {
    match s
    case Simple(_, _) => [if g.Ends? then g.flow else Normal]
    case Compound(form, arms, _, _) =>
      (match form
       case Branch => ScriptOfFirst(u, arms, d, g, Normal)
       case Repeat => ScriptOfLoop(u, arms, d, g)
       case Block => ScriptOfBlock(u, arms, d, g))
    case _ => []
  }

  function ScriptOfFirst(u: Uses, arms: Arms, d: bool, g: Goal, otherwise: Flow): seq<Flow>
    requires MayFirst(u, arms, d, g, otherwise)
    decreases arms, 0
  {
    match arms
    case NoArms => []
    case Arm(header, body, others) =>
      var d' := DirtBehind(u, header, d);
      if Passes(Raised, d, g) then [RAISES]
      else if May(u, body, d', g) then [HOLDS] + ScriptOf(u, body, d', g)
      else [FAILS] + ScriptOfFirst(u, others, d', g, otherwise)
  }

  /** The way out of a round that sends a signal. */
  function DirtyRound(u: Uses, body: Code, d: bool): (g: Goal)
    requires LoopDirt(u, body, d) && !d
    ensures May(u, body, d, g) && g.Ends? && g.dirty && (g.flow.Normal? || g.flow.Continued?)
  {
    if May(u, body, d, Ends(Normal, true)) then Ends(Normal, true) else Ends(Continued, true)
  }

  /** A first round to send a signal, if that is needed, and a second one to reach the goal. */
  function ScriptOfLoop(u: Uses, arms: Arms, d: bool, g: Goal): seq<Flow>
    requires MayLoop(u, arms, d, g)
    decreases arms, 1
  {
    if arms.NoArms? then []
    else
      var d' := LoopDirt(u, arms.body, d);
      var first := if d' && !d then [HOLDS] + ScriptOf(u, arms.body, d, DirtyRound(u, arms.body, d)) else [];
      first + ScriptOfRound(u, arms, d', g)
  }

  function ScriptOfRound(u: Uses, arms: Arms, d: bool, g: Goal): seq<Flow>
    requires arms.Arm? && MayRound(u, arms, d, g)
    decreases arms, 0
  {
    var d' := DirtBehind(u, arms.header, d);
    if Passes(Normal, d', g) then [FAILS]
    else if Passes(Raised, d, g) then [RAISES]
    else [HOLDS] + ScriptOf(u, arms.body, d', GoalOfRound(g))
  }

  function ScriptOfBlock(u: Uses, arms: Arms, d: bool, g: Goal): seq<Flow>
    requires MayBlock(u, arms, d, g)
    decreases arms, 1
  {
    match arms
    case NoArms => []
    case Arm(_, body, handlers) =>
      if handlers.NoArms? || ((g.Ends? ==> !g.flow.Raised?) && May(u, body, d, g)) then ScriptOf(u, body, d, g)
      else
        var d' := May(u, body, d, Ends(Raised, true));
        ScriptOf(u, body, d, Ends(Raised, d')) + ScriptOfFirst(u, handlers, d', g, Raised)
  }

  /** Enough rounds for the script. */
  function Need(code: Code): nat {
    match code
    case Done => 0
    case Do(s, rest) => (if s.Compound? then NeedArms(s.arms) + 2 else 0) + Need(rest)
  }

  function NeedArms(arms: Arms): nat {
    match arms
    case NoArms => 0
    case Arm(_, body, others) => Need(body) + NeedArms(others)
  }

  // ----- the script reaches it -----

  predicate Reached(g: Goal, flow: Flow, st: State<Script>, more: seq<Flow>) {
    match g
    case Ends(f, dirty) => flow == f && st.core.env.todo == more && (dirty ==> st.rowCount == 1)
    case Reads => SawOne(st)
  }

  predicate Set(st: State<Script>, script: seq<Flow>, more: seq<Flow>, d: bool) {
    st.core.env.todo == script + more && (d ==> st.rowCount == 1)
  }

  /** What was seen is not forgotten. */
  lemma StillSeen(u: Uses, code: Code, fuel: nat, st: State<Script>)
    requires SawOne(st)
    ensures SawOne(ExecCode(Scripted(u), code, fuel, st).state)
  {
    SawOneKept(u);
    KeptByCode(Scripted(u), SawOne, true, code, fuel, st);
  }

  /** The state behind a statement and the signal that follows it. */
  function Behind(w: World<Script>, tag: Tag, r: Run<Script>): State<Script> {
    if tag.SignalAfter? && r.flow.Normal? then Fire(w, r.state) else r.state
  }

  lemma {:induction false} RealCode(u: Uses, code: Code, d: bool, g: Goal, fuel: nat, st: State<Script>,
                                    more: seq<Flow>)
    requires May(u, code, d, g) && Need(code) <= fuel && Set(st, ScriptOf(u, code, d, g), more, d)
    ensures var r := ExecCode(Scripted(u), Instrument(code), fuel, st); Reached(g, r.flow, r.state, more)
    decreases code, 0
  {
    match code
    case Done =>
      assert [] + more == more;
    case Do(s, rest) =>
      var w, tag, s', rest' := Scripted(u), TagIn(s), InstrumentStmt(s), Instrument(rest);
      assert Need(rest) <= fuel && (s.Compound? ==> NeedArms(s.arms) + 2 <= fuel);
      hide MayTagged, ScriptOfTagged, Need, SawOne, Scripted;
      ExecWithSignal(w, s', tag, rest', fuel, st);
      var r := ExecStmt(w, s', fuel, if tag.SignalBefore? then Fire(w, st) else st);
      if !Normally(g) && MayTagged(u, s, d, g) {
        RealTagged(u, s, d, g, fuel, st, more);
        if r.flow.Normal? { StillSeen(u, rest', fuel, Behind(w, tag, r)); }
      } else {
        var d' := MayTagged(u, s, d, Ends(Normal, true));
        var a, b := ScriptOfTagged(u, s, d, Ends(Normal, d')), ScriptOf(u, rest, d', g);
        Concat3(a, b, more);
        RealTagged(u, s, d, Ends(Normal, d'), fuel, st, b + more);
        RealCode(u, rest, d', g, fuel, Behind(w, tag, r), more);
      }
  }

  lemma {:induction false} RealTagged(u: Uses, s: Stmt, d: bool, g: Goal, fuel: nat, st: State<Script>, more: seq<Flow>)
    requires MayTagged(u, s, d, g) && (s.Compound? ==> NeedArms(s.arms) + 2 <= fuel)
    requires Set(st, ScriptOfTagged(u, s, d, g), more, d)
    ensures var w, tag := Scripted(u), TagIn(s);
            var r := ExecStmt(w, InstrumentStmt(s), fuel, if tag.SignalBefore? then Fire(w, st) else st);
            Reached(g, r.flow, Behind(w, tag, r), more)
    decreases s, 1
  {
    hide MayStmt, ScriptOfStmt, ExecStmt, InstrumentStmt;
    var w, tag := Scripted(u), TagIn(s);
    RealStmt(u, s, DirtAt(s, d), GoalIn(s, g), fuel, if tag.SignalBefore? then Fire(w, st) else st, more);
  }

  lemma {:induction false} RealStmt(u: Uses, s: Stmt, d: bool, g: Goal, fuel: nat, st: State<Script>, more: seq<Flow>)
    requires MayStmt(u, s, d, g) && (s.Compound? ==> NeedArms(s.arms) + 2 <= fuel)
    requires Set(st, ScriptOfStmt(u, s, d, g), more, d)
    ensures var r := ExecStmt(Scripted(u), InstrumentStmt(s), fuel, st); Reached(g, r.flow, r.state, more)
    decreases s, 0
  {
    match s
    case Simple(words, _) =>
      assert st.core.env.todo[1..] == more;
    case Remark(_) =>
      assert [] + more == more;
    case Signal(_) =>
      assert [] + more == more;
    case Compound(form, arms, _, _) =>
      match form
      case Branch => RealFirst(u, arms, d, g, Normal, fuel, st, more);
      case Repeat => RealLoop(u, arms, d, g, fuel, st, more);
      case Block => RealBlock(u, arms, d, g, fuel, st, more);
  }

  /** The next outcome in the script. */
  lemma PopOutcome(u: Uses, header: seq<Lexeme>, st: State<Script>, flow: Flow, script: seq<Flow>, more: seq<Flow>,
                   d: bool)
    requires Set(st, [flow] + script, more, d)
    ensures var next := State(Next(st.core, []), RowsOf(u, header, st));
            && Set(next, script, more, if flow.Raised? then d else DirtBehind(u, header, d))
            && Outcome(st.core) == match flow
                                   case Normal => Holds(next.core)
                                   case Raised => Error(next.core)
                                   case _ => Fails(next.core)
  {
    assert st.core.env.todo[1..] == script + more;
  }

  lemma {:induction false} RealFirst(u: Uses, arms: Arms, d: bool, g: Goal, otherwise: Flow, fuel: nat,
                                     st: State<Script>, more: seq<Flow>)
    requires MayFirst(u, arms, d, g, otherwise) && NeedArms(arms) <= fuel
    requires Set(st, ScriptOfFirst(u, arms, d, g, otherwise), more, d)
    ensures var r := ExecFirst(Scripted(u), InstrumentArms(arms), fuel, st, otherwise);
            Reached(g, r.flow, r.state, more)
    decreases arms, 0
  {
    match arms
    case NoArms =>
      assert [] + more == more;
    case Arm(header, body, others) =>
      hide Outcome, Next, SawOne, May, ScriptOf, RowsOf, DirtBehind;
      var next, d' := State(Next(st.core, []), RowsOf(u, header, st)), DirtBehind(u, header, d);
      if Passes(Raised, d, g) {
        assert [RAISES] + [] == [RAISES] && [] + more == more;
        PopOutcome(u, header, st, RAISES, [], more, d);
      } else if May(u, body, d', g) {
        PopOutcome(u, header, st, HOLDS, ScriptOf(u, body, d', g), more, d);
        RealCode(u, body, d', g, fuel, next, more);
      } else {
        PopOutcome(u, header, st, FAILS, ScriptOfFirst(u, others, d', g, otherwise), more, d);
        RealFirst(u, others, d', g, otherwise, fuel, next, more);
      }
  }

  lemma {:induction false} RealLoop(u: Uses, arms: Arms, d: bool, g: Goal, fuel: nat, st: State<Script>,
                                    more: seq<Flow>)
    requires MayLoop(u, arms, d, g) && NeedArms(arms) + 2 <= fuel && Set(st, ScriptOfLoop(u, arms, d, g), more, d)
    ensures var r := ExecLoop(Scripted(u), InstrumentArms(arms), fuel, st); Reached(g, r.flow, r.state, more)
    decreases arms, 2
  {
    if arms.NoArms? {
      assert [] + more == more;
    } else {
      hide SawOne, May, ScriptOf, MayRound, ScriptOfRound, Next, Outcome, RowsOf;
      var w, body, d' := Scripted(u), arms.body, LoopDirt(u, arms.body, d);
      var last := ScriptOfRound(u, arms, d', g);
      if d' && !d {
        var dirty := DirtyRound(u, body, d);
        var first := ScriptOf(u, body, d, dirty);
        Concat3(first, last, more);
        Concat4([HOLDS], first, last, more);
        PopOutcome(u, arms.header, st, HOLDS, first, last + more, d);
        var next := State(Next(st.core, []), RowsOf(u, arms.header, st));
        RealCode(u, body, d, dirty, fuel - 1, next, last + more);
        var r := ExecCode(w, Instrument(body), fuel - 1, next);
        RealRound(u, arms, d', g, fuel - 1, r.state, more);
      } else {
        assert [] + last == last;
        RealRound(u, arms, d', g, fuel, st, more);
      }
    }
  }

  lemma {:induction false} RealRound(u: Uses, arms: Arms, d: bool, g: Goal, fuel: nat, st: State<Script>,
                                     more: seq<Flow>)
    requires arms.Arm? && MayRound(u, arms, d, g) && NeedArms(arms) + 1 <= fuel
    requires Set(st, ScriptOfRound(u, arms, d, g), more, d)
    ensures var r := ExecLoop(Scripted(u), InstrumentArms(arms), fuel, st); Reached(g, r.flow, r.state, more)
    decreases arms, 1
  {
    hide May, ScriptOf, Next, Outcome, SawOne, RowsOf, DirtBehind;
    var w, header, body := Scripted(u), arms.header, arms.body;
    var next, d' := State(Next(st.core, []), RowsOf(u, header, st)), DirtBehind(u, header, d);
    if Passes(Normal, d', g) {
      assert [FAILS] + [] == [FAILS] && [] + more == more;
      PopOutcome(u, header, st, FAILS, [], more, d);
    } else if Passes(Raised, d, g) {
      assert [RAISES] + [] == [RAISES] && [] + more == more;
      PopOutcome(u, header, st, RAISES, [], more, d);
    } else {
      PopOutcome(u, header, st, HOLDS, ScriptOf(u, body, d', GoalOfRound(g)), more, d);
      RealCode(u, body, d', GoalOfRound(g), fuel - 1, next, more);
      var r := ExecCode(w, Instrument(body), fuel - 1, next);
      if g.Reads? && (r.flow.Normal? || r.flow.Continued?) {
        StillSeenLoop(u, InstrumentArms(arms), fuel - 1, r.state);
      }
      if g.Reads? && r.flow.Exited? {
        SameLog(r.state);
      }
    }
  }

  lemma SameLog(st: State<Script>)
    requires SawOne(st)
    ensures SawOne(State(st.core, st.rowCount))
  {
  }

  lemma StillSeenLoop(u: Uses, arms: Arms, fuel: nat, st: State<Script>)
    requires SawOne(st)
    ensures SawOne(ExecLoop(Scripted(u), arms, fuel, st).state)
  {
    SawOneKept(u);
    KeptByLoop(Scripted(u), SawOne, true, arms, fuel, st);
  }

  lemma StillSeenFirst(u: Uses, arms: Arms, fuel: nat, st: State<Script>)
    requires SawOne(st)
    ensures SawOne(ExecFirst(Scripted(u), arms, fuel, st, Raised).state)
  {
    SawOneKept(u);
    KeptByFirst(Scripted(u), SawOne, true, arms, fuel, st, Raised);
  }

  lemma {:induction false} RealBlock(u: Uses, arms: Arms, d: bool, g: Goal, fuel: nat, st: State<Script>,
                                     more: seq<Flow>)
    requires MayBlock(u, arms, d, g) && NeedArms(arms) <= fuel && Set(st, ScriptOfBlock(u, arms, d, g), more, d)
    ensures var r := ExecBlock(Scripted(u), InstrumentArms(arms), fuel, st); Reached(g, r.flow, r.state, more)
    decreases arms, 1
  {
    match arms
    case NoArms =>
      assert [] + more == more;
    case Arm(_, body, handlers) =>
      hide May, ScriptOf, MayFirst, ScriptOfFirst, SawOne;
      var w := Scripted(u);
      var r := ExecCode(w, Instrument(body), fuel, st);
      if handlers.NoArms? || ((g.Ends? ==> !g.flow.Raised?) && May(u, body, d, g)) {
        RealCode(u, body, d, g, fuel, st, more);
        if g.Reads? && r.flow.Raised? {
          SameLog(r.state);
          StillSeenFirst(u, InstrumentArms(handlers), fuel, State(r.state.core, r.state.rowCount));
        }
      } else {
        var d' := May(u, body, d, Ends(Raised, true));
        var a, b := ScriptOf(u, body, d, Ends(Raised, d')), ScriptOfFirst(u, handlers, d', g, Raised);
        Concat3(a, b, more);
        RealCode(u, body, d, Ends(Raised, d'), fuel, st, b + more);
        RealFirst(u, handlers, d', g, Raised, fuel, r.state, more);
      }
  }

  // ----- main results -----

  /** The state of the scripted run: two rows were processed before, no signal was sent. */
  function Begin(script: seq<Flow>): State<Script> {
    State(Core(Script(script, []), false), 2)
  }

  lemma SeenOrNot(a: State<Script>, b: State<Script>)
    requires SawTwos(a) && SawOne(b)
    ensures a.core != b.core
  {
  }

  /** A stale program is changed by the server that follows the script. */
  lemma StaleChanges(u: Uses, code: Code, i: nat, o: Open)
    requires Source(code) && Stale(u, code, i, o)
    ensures var a := Annotate(code, i, o);
            !Preserved(Scripted(u), code, i, o, Need(a), Begin(ScriptOf(u, a, false, Reads)))
  {
    hide Annotate, May, ScriptOf, Need, Scripted, ExecCode;
    var w, a := Scripted(u), Annotate(code, i, o);
    var script, fuel := ScriptOf(u, a, false, Reads), Need(a);
    var st := Begin(script);
    assert script + [] == script;
    RealCode(u, a, false, Reads, fuel, st, []);
    SawTwosKept(u);
    KeptByCode(w, SawTwos, false, code, fuel, st);
    SeenOrNot(ExecCode(w, code, fuel, st).state, ExecCode(w, Instrument(a), fuel, st).state);
  }

  /** A program keeps its meaning on every server, from every state, if and only if no statement that reads the row
      count can be reached behind a signal. */
  lemma PreservedIff(u: Uses, code: Code, i: nat, o: Open)
    requires Source(code)
    ensures !Stale(u, code, i, o)
            <==> forall w: World<Script>, fuel: nat, st: State<Script> ::
                   Respects(w, u) ==> Preserved(w, code, i, o, fuel, st)
  {
    hide Respects, Preserved, Stale, Scripted;
    if Stale(u, code, i, o) {
      ScriptedRespects(u);
      StaleChanges(u, code, i, o);
    } else {
      forall w: World<Script>, fuel: nat, st: State<Script> | Respects(w, u)
        ensures Preserved(w, code, i, o, fuel, st)
      {
        MeaningPreserved(w, u, code, i, o, fuel, st);
      }
    }
  }

  lemma StaleBodyChanges(u: Uses, b: Body)
    requires SourceBody(b) && BodyStale(u, b)
    ensures var a := Annotated(b);
            !BodyPreserved(Scripted(u), b, NeedArms(a), Begin(ScriptOfBlock(u, a, false, Reads)))
  {
    hide AnnotateArms, InstrumentArms, MayBlock, ScriptOfBlock, NeedArms, Scripted, ExecBlock;
    var w, a := Scripted(u), Annotated(b);
    var script, fuel := ScriptOfBlock(u, a, false, Reads), NeedArms(a);
    var st := Begin(script);
    assert script + [] == script;
    RealBlock(u, a, false, Reads, fuel, st, []);
    SawTwosKept(u);
    KeptByBlock(w, SawTwos, false, Inside(b), fuel, st);
    InsideBody(b);
    SeenOrNot(ExecBlock(w, Inside(b), fuel, st).state, ExecBlock(w, InstrumentArms(a), fuel, st).state);
  }

  /** The same for a whole function body with its exception handlers. */
  lemma BodyPreservedIff(u: Uses, b: Body)
    requires SourceBody(b)
    ensures !BodyStale(u, b)
            <==> forall w: World<Script>, fuel: nat, st: State<Script> ::
                   Respects(w, u) ==> BodyPreserved(w, b, fuel, st)
  {
    hide Respects, BodyPreserved, BodyStale, Scripted;
    if BodyStale(u, b) {
      ScriptedRespects(u);
      StaleBodyChanges(u, b);
    } else {
      forall w: World<Script>, fuel: nat, st: State<Script> | Respects(w, u)
        ensures BodyPreserved(w, b, fuel, st)
      {
        BodyMeaningPreserved(w, u, b, fuel, st);
      }
    }
  }
}
