/** A structured fragment of PL/pgSQL, its tokens, and the instrumentation of
    internal/instrument/instrumenter.go read as a transformation of statements. */
module Plpgsql {
  import opened Basics
  import opened Segmentation

  /** A token without its position. */
  datatype Lexeme = Lexeme(kind: Kind, text: string)

  /** Which signal, if any, the instrumenter ties to a statement. */
  datatype Tag = Untracked | SignalBefore(seg: Segment) | SignalAfter(seg: Segment)

  /** IF/ELSIF/ELSE, WHILE/FOR/LOOP, and BEGIN/EXCEPTION. */
  datatype Form = Branch | Repeat | Block

  datatype Code = Done | Do(stmt: Stmt, rest: Code)

  datatype Stmt =
    | Simple(words: seq<Lexeme>, tag: Tag)
    | Compound(form: Form, arms: Arms, closer: seq<Lexeme>, tag: Tag)
    | Remark(comments: seq<Lexeme>)
    | Signal(seg: Segment)

  /** `IF c THEN ..`, `ELSE ..`, `WHILE c LOOP ..`, `BEGIN ..`, `EXCEPTION WHEN c THEN ..`: a header and a body. */
  datatype Arms = NoArms | Arm(header: seq<Lexeme>, body: Code, others: Arms)

  const SEMI := Lexeme(Semicolon, ";")

  // ----- tokens -----

  type Render = Segment -> seq<Lexeme>

  function Flatten(render: Render, code: Code): seq<Lexeme> {
    match code
    case Done => []
    case Do(s, rest) => FlattenStmt(render, s) + Flatten(render, rest)
  }

  function FlattenStmt(render: Render, s: Stmt): seq<Lexeme> {
    match s
    case Simple(words, _) => words + [SEMI]
    case Compound(_, arms, closer, _) => FlattenArms(render, arms) + (closer + [SEMI])
    case Remark(comments) => comments
    case Signal(seg) => render(seg)
  }

  function FlattenArms(render: Render, arms: Arms): seq<Lexeme> {
    match arms
    case NoArms => []
    case Arm(header, body, others) => header + (Flatten(render, body) + FlattenArms(render, others))
  }

  // ----- the fragment -----

  function KindsOf(toks: seq<Lexeme>): (ks: seq<Kind>)
    ensures |ks| == |toks| && forall k :: 0 <= k < |ks| ==> ks[k] == toks[k].kind
  {
    seq(|toks|, k requires 0 <= k < |toks| => toks[k].kind)
  }

  /** Index of the first token that is no comment, or the length. */
  function First(words: seq<Lexeme>): (k: nat)
    ensures k <= |words| && (k < |words| ==> !words[k].kind.Comment?)
    ensures forall j :: 0 <= j < k ==> words[j].kind.Comment?
  {
    NextSignificant(KindsOf(words), 0, |words|)
  }

  /** Neither a separator nor the head of a terminal; comments are fine. */
  predicate Plain(k: Kind) {
    !k.Semicolon? && !k.KReturn? && !k.KRaise?
  }

  predicate AllPlain(words: seq<Lexeme>) {
    forall k :: 0 <= k < |words| ==> Plain(words[k].kind)
  }

  predicate AllComments(words: seq<Lexeme>) {
    forall k :: 0 <= k < |words| ==> words[k].kind.Comment?
  }

  /** The words that end a statement: not comments only, and at most the first is RETURN or RAISE. */
  predicate EndWords(words: seq<Lexeme>) {
    && First(words) < |words| && !words[0].kind.Semicolon?
    && forall k :: 1 <= k < |words| ==> Plain(words[k].kind)
  }

  /** RETURN and RAISE appear as the head of a statement only. Comments may stand anywhere behind the head; those
      in front of it are a remark of their own. */
  predicate SimpleWords(words: seq<Lexeme>) {
    EndWords(words) && !words[0].kind.Comment?
  }

  predicate CloserWords(words: seq<Lexeme>) {
    AllPlain(words) && First(words) < |words|
  }

  predicate Source(code: Code) {
    match code
    case Done => true
    case Do(s, rest) => SourceStmt(s) && Source(rest)
  }

  predicate SourceStmt(s: Stmt) {
    match s
    case Simple(words, tag) => SimpleWords(words) && tag == Untracked
    case Compound(_, arms, closer, tag) =>
      SourceArms(arms) && CloserWords(closer) && tag == Untracked
    case Remark(comments) => AllComments(comments)
    case Signal(_) => false
  }

  predicate SourceArms(arms: Arms) {
    match arms
    case NoArms => true
    case Arm(header, body, others) => AllPlain(header) && Source(body) && SourceArms(others)
  }

  /** RETURN, RAISE EXCEPTION, RAISE 'text', bare RAISE; comments between RAISE and its level are passed over. */
  predicate TerminalWords(words: seq<Lexeme>) {
    0 < |words| && TerminalAt(KindsOf(words), 0, |words|)
  }

  // ----- which statement carries which signal -----

  /** The segment being read: none yet, or one that began with a token of the given kind. */
  datatype Open = Fresh | Opened(first: nat, kind: Kind)

  /** The segment after reading `words` at index `i`; a segment begins with its first token that is no comment. */
  function Read(o: Open, i: nat, words: seq<Lexeme>): Open {
    if o.Opened? || First(words) == |words| then o else Opened(i + First(words), words[First(words)].kind)
  }

  /** The signal of the segment that ends with `words` at index `i`; `terminal` if they are a terminal. */
  function TagOf(o: Open, i: nat, words: seq<Lexeme>, terminal: bool): Tag
    requires First(words) < |words|
  {
    var start := Read(o, i, words);
    var seg := Segment(start.first, i + |words|);
    if Structural(start.kind) then Untracked else if terminal then SignalBefore(seg) else SignalAfter(seg)
  }

  function Plainly(seg: Segment): seq<Lexeme> {
    []
  }

  function LengthOf(code: Code): nat {
    |Flatten(Plainly, code)|
  }

  function LengthOfArms(arms: Arms): nat {
    |FlattenArms(Plainly, arms)|
  }

  /** A remark is no statement: the segment stays as it is. */
  function AfterStmt(o: Open, s: Stmt): Open {
    if s.Remark? then o else Fresh
  }

  function AfterCode(o: Open, code: Code): Open
    decreases code
  {
    if code.Done? then o else AfterCode(AfterStmt(o, code.stmt), code.rest)
  }

  predicate OnlyRemarks(code: Code) {
    code.Done? || (code.stmt.Remark? && OnlyRemarks(code.rest))
  }

  lemma {:induction false} AfterCodeIs(o: Open, code: Code)
    ensures AfterCode(o, code) == if OnlyRemarks(code) then o else Fresh
    decreases code
  {
    if code.Do? {
      AfterCodeIs(AfterStmt(o, code.stmt), code.rest);
    }
  }

  function AfterArms(o: Open, i: nat, arms: Arms): Open
    decreases arms
  {
    match arms
    case NoArms => o
    case Arm(header, body, others) =>
      AfterArms(AfterCode(Read(o, i, header), body), i + |header| + LengthOf(body), others)
  }

  /** Ties every segment of the code at token index `i` to the statement whose `;` ends it. */
  function Annotate(code: Code, i: nat, o: Open): Code
    requires Source(code)
  {
    match code
    case Done => Done
    case Do(s, rest) => Do(AnnotateStmt(s, i, o), Annotate(rest, i + |FlattenStmt(Plainly, s)|, AfterStmt(o, s)))
  }

  function AnnotateStmt(s: Stmt, i: nat, o: Open): Stmt
    requires SourceStmt(s)
  {
    match s
    case Simple(words, _) => Simple(words, TagOf(o, i, words, TerminalWords(words)))
    case Compound(form, arms, closer, _) =>
      Compound(form, AnnotateArms(arms, i, o), closer,
               TagOf(AfterArms(o, i, arms), i + LengthOfArms(arms), closer, false))
    case Remark(_) => s
  }

  function AnnotateArms(arms: Arms, i: nat, o: Open): Arms
    requires SourceArms(arms)
  {
    match arms
    case NoArms => NoArms
    case Arm(header, body, others) =>
      var j, o' := i + |header|, Read(o, i, header);
      Arm(header, Annotate(body, j, o'), AnnotateArms(others, j + LengthOf(body), AfterCode(o', body)))
  }

  // ----- instrumentation of statements -----

  /** A terminal's signal goes in front of it, any other behind the statement. */
  function WithSignal(s: Stmt, tag: Tag, rest: Code): Code {
    match tag
    case Untracked => Do(s, rest)
    case SignalBefore(seg) => Do(Signal(seg), Do(s, rest))
    case SignalAfter(seg) => Do(s, Do(Signal(seg), rest))
  }

  function TagIn(s: Stmt): Tag {
    if s.Signal? || s.Remark? then Untracked else s.tag
  }

  function Instrument(code: Code): Code {
    match code
    case Done => Done
    case Do(s, rest) => WithSignal(InstrumentStmt(s), TagIn(s), Instrument(rest))
  }

  function InstrumentStmt(s: Stmt): Stmt {
    match s
    case Simple(words, _) => Simple(words, Untracked)
    case Compound(form, arms, closer, _) => Compound(form, InstrumentArms(arms), closer, Untracked)
    case _ => s
  }

  function InstrumentArms(arms: Arms): Arms {
    match arms
    case NoArms => NoArms
    case Arm(header, body, others) => Arm(header, Instrument(body), InstrumentArms(others))
  }

  // ----- no two statements share a signal -----

  function SegmentOf(tag: Tag): seq<Segment> {
    if tag.Untracked? then [] else [tag.seg]
  }

  /** The segments tied to the statements of a piece of code, in the order of the text. */
  function SegmentsOf(code: Code): seq<Segment> {
    match code
    case Done => []
    case Do(s, rest) => SegmentsOfStmt(s) + SegmentsOf(rest)
  }

  function SegmentsOfStmt(s: Stmt): seq<Segment> {
    match s
    case Simple(_, tag) => SegmentOf(tag)
    case Compound(_, arms, _, tag) => SegmentsOfArms(arms) + SegmentOf(tag)
    case _ => []
  }

  function SegmentsOfArms(arms: Arms): seq<Segment> {
    match arms
    case NoArms => []
    case Arm(_, body, others) => SegmentsOf(body) + SegmentsOfArms(others)
  }

  /** Segments that end one behind the other, the first behind `lo` and the last before `hi`. */
  predicate Ascending(segs: seq<Segment>, lo: nat, hi: nat): (ok: bool)
    ensures ok ==> lo <= hi
    decreases |segs|
  {
    if segs == [] then lo <= hi
    else lo < segs[0].end && Ascending(segs[1..], segs[0].end, hi)
  }

  lemma {:induction false} AscendingEnds(segs: seq<Segment>, lo: nat, hi: nat)
    requires Ascending(segs, lo, hi)
    ensures forall k :: 0 <= k < |segs| ==> lo < segs[k].end <= hi
    ensures forall j, k :: 0 <= j < k < |segs| ==> segs[j].end < segs[k].end
    decreases |segs|
  {
    if segs != [] {
      var rest := segs[1..];
      AscendingEnds(rest, segs[0].end, hi);
      assert forall k :: 1 <= k < |segs| ==> segs[k] == rest[k - 1];
    }
  }

  lemma {:induction false} AscendingConcat(a: seq<Segment>, b: seq<Segment>, lo: nat, m: nat, hi: nat)
    requires Ascending(a, lo, m) && Ascending(b, m, hi)
    ensures Ascending(a + b, lo, hi)
    decreases |a|
  {
    if a == [] {
      assert a + b == b;
      AscendingWider(b, lo, m, hi);
    } else {
      AscendingConcat(a[1..], b, a[0].end, m, hi);
      assert (a + b)[1..] == a[1..] + b;
    }
  }

  lemma AscendingWider(s: seq<Segment>, lo: nat, m: nat, hi: nat)
    requires lo <= m && Ascending(s, m, hi)
    ensures Ascending(s, lo, hi)
  {
  }

  lemma SegmentOfTag(o: Open, i: nat, words: seq<Lexeme>, terminal: bool)
    requires First(words) < |words|
    ensures Ascending(SegmentOf(TagOf(o, i, words, terminal)), i, i + |words| + 1)
  {
    var segs := SegmentOf(TagOf(o, i, words, terminal));
    if segs != [] {
      assert segs[1..] == [] && segs[0].end == i + |words|;
    }
  }

  /** The segments tied to the statements of annotated code end at different tokens. */
  lemma {:induction false} OwnSegments(code: Code, i: nat, o: Open)
    requires Source(code)
    ensures Ascending(SegmentsOf(Annotate(code, i, o)), i, i + LengthOf(code))
    decreases code
  {
    match code
    case Done =>
    case Do(s, rest) =>
      var m, o' := i + |FlattenStmt(Plainly, s)|, AfterStmt(o, s);
      OwnSegmentsStmt(s, i, o);
      OwnSegments(rest, m, o');
      AscendingConcat(SegmentsOfStmt(AnnotateStmt(s, i, o)), SegmentsOf(Annotate(rest, m, o')),
                      i, m, i + LengthOf(code));
  }

  /** No two statements share a segment. */
  lemma DistinctSegments(code: Code, i: nat, o: Open)
    requires Source(code)
    ensures var segs := SegmentsOf(Annotate(code, i, o));
            forall j, k :: 0 <= j < k < |segs| ==> segs[j].end < segs[k].end
  {
    OwnSegments(code, i, o);
    AscendingEnds(SegmentsOf(Annotate(code, i, o)), i, i + LengthOf(code));
  }

  lemma {:induction false} OwnSegmentsStmt(s: Stmt, i: nat, o: Open)
    requires SourceStmt(s)
    ensures Ascending(SegmentsOfStmt(AnnotateStmt(s, i, o)), i, i + |FlattenStmt(Plainly, s)|)
    decreases s
  {
    match s
    case Simple(words, _) =>
      SegmentOfTag(o, i, words, TerminalWords(words));
    case Compound(_, arms, closer, _) =>
      var m, o' := i + LengthOfArms(arms), AfterArms(o, i, arms);
      OwnSegmentsArms(arms, i, o);
      SegmentOfTag(o', m, closer, false);
      AscendingConcat(SegmentsOfArms(AnnotateArms(arms, i, o)), SegmentOf(TagOf(o', m, closer, false)),
                      i, m, m + |closer| + 1);
    case Remark(_) =>
  }

  lemma {:induction false} OwnSegmentsArms(arms: Arms, i: nat, o: Open)
    requires SourceArms(arms)
    ensures Ascending(SegmentsOfArms(AnnotateArms(arms, i, o)), i, i + LengthOfArms(arms))
    decreases arms
  {
    match arms
    case NoArms =>
    case Arm(header, body, others) =>
      var a, oa := i + |header|, Read(o, i, header);
      var b, ob := a + LengthOf(body), AfterCode(oa, body);
      var inner := SegmentsOf(Annotate(body, a, oa));
      OwnSegments(body, a, oa);
      OwnSegmentsArms(others, b, ob);
      AscendingWider(inner, i, a, b);
      AscendingConcat(inner, SegmentsOfArms(AnnotateArms(others, b, ob)), i, b, i + LengthOfArms(arms));
  }

  // ----- whole function bodies -----

  /** `[DECLARE ..] BEGIN statements [EXCEPTION handlers] END [;]`, the outer block of a function. Comments behind
      the `;` are the trailer; without `;` they belong to the closer. */
  datatype Body = Body(preamble: seq<Lexeme>, opener: Lexeme, main: Code, handlers: Arms, closer: seq<Lexeme>,
                       semicolon: bool, trailer: seq<Lexeme>)

  predicate SourceBody(b: Body) {
    && (forall k :: 0 <= k < |b.preamble| ==> !b.preamble[k].kind.KBegin?)
    && b.opener.kind.KBegin? && Source(b.main) && SourceArms(b.handlers)
    && CloserWords(b.closer) && b.closer[First(b.closer)].kind.KEnd?
    && AllComments(b.trailer) && (b.trailer != [] ==> b.semicolon)
  }

  /** The statements and handlers; the instrumenter starts reading behind BEGIN. */
  function Inside(b: Body): Arms {
    Arm([], b.main, b.handlers)
  }

  /** The outer END and its `;`. */
  function Last(b: Body): seq<Lexeme> {
    b.closer + (if b.semicolon then [SEMI] else [])
  }

  /** The tokens of a body, with `closing` behind its outer END. */
  function FlattenWith(render: Render, b: Body, closing: seq<Lexeme>): seq<Lexeme> {
    b.preamble + [b.opener] + (FlattenArms(render, Inside(b)) + (Last(b) + closing + b.trailer))
  }

  function FlattenBody(render: Render, b: Body): seq<Lexeme> {
    FlattenWith(render, b, [])
  }

  function InstrumentedBody(b: Body): Body
    requires SourceBody(b)
  {
    var inside := InstrumentArms(AnnotateArms(Inside(b), |b.preamble| + 1, Fresh));
    b.(main := inside.body, handlers := inside.others)
  }

  /** The arms of a function body, tied to their signals. */
  function Annotated(b: Body): Arms
    requires SourceBody(b)
  {
    AnnotateArms(Inside(b), |b.preamble| + 1, Fresh)
  }

  lemma InsideBody(b: Body)
    requires SourceBody(b)
    ensures Inside(InstrumentedBody(b)) == InstrumentArms(Annotated(b))
  {
    hide Source, SourceArms, First;
  }

  /** The signal tied to the outer END, if the segment that END closes does not open with a keyword that
      is structure only: the outer block then ends in a handler without statements that is not the first. */
  function ClosingTag(b: Body): Tag
    requires SourceBody(b)
  {
    var i := |b.preamble| + 1;
    TagOf(AfterArms(Fresh, i, Inside(b)), i + LengthOfArms(Inside(b)), b.closer, false)
  }
}
