/** Inserting chunks into a sequence, and taking them out again. Used for source text (bytes) and for
    its token list, so that both are rewritten by one definition. */
module Splicing {

  /** Insertions from left to right; `at` is a position in the original sequence. */
  datatype Edits<T> = NoEdits | Insert(at: nat, chunk: seq<T>, rest: Edits<T>)

  /** Insertion points in order, none before `from`, none past the end `n`. */
  predicate InOrder<T>(from: nat, edits: Edits<T>, n: nat): (ok: bool)
    ensures ok ==> from <= n
    decreases edits
  {
    match edits
    case NoEdits => from <= n
    case Insert(at, _, rest) => from <= at && InOrder(at, rest, n)
  }

  /** `s[from..]` with every chunk put in front of the element at its insertion point. */
  function Splice<T>(s: seq<T>, from: nat, edits: Edits<T>): seq<T>
    requires InOrder(from, edits, |s|)
    decreases edits
  {
    match edits
    case NoEdits => s[from..]
    case Insert(at, chunk, rest) =>
      s[from..at] + chunk + Splice(s, at, rest)
  }

  /** Walks a spliced sequence and drops each chunk where it was put. */
  function Erase<T>(t: seq<T>, from: nat, edits: Edits<T>): seq<T>
    decreases edits
  {
    match edits
    case NoEdits => t
    case Insert(at, chunk, rest) =>
      var gap := if at >= from then at - from else 0;
      if gap + |chunk| > |t| then t
      else t[..gap] + Erase(t[gap + |chunk|..], at, rest)
  }

  /** Deleting the inserted chunks gives the original back. */
  lemma {:induction false} EraseSplice<T>(s: seq<T>, from: nat, edits: Edits<T>)
    requires InOrder(from, edits, |s|)
    ensures from <= |s| && Erase(Splice(s, from, edits), from, edits) == s[from..]
    decreases edits
  {
    match edits
    case NoEdits =>
    case Insert(at, chunk, rest) =>
      var t, tail := Splice(s, from, edits), Splice(s, at, rest);
      assert t[..at - from] == s[from..at];
      assert t[at - from + |chunk|..] == tail;
      EraseSplice(s, at, rest);
      assert s[from..] == s[from..at] + s[at..];
  }

  lemma Concat3<T>(a: seq<T>, b: seq<T>, c: seq<T>)
    ensures a + (b + c) == a + b + c
  {
  }

  lemma Concat4<T>(a: seq<T>, b: seq<T>, c: seq<T>, d: seq<T>)
    ensures a + b + c + d == a + (b + c + d)
  {
    Concat3(a, b, c);
    Concat3(a, b + c, d);
  }

  /** Elements before the first insertion point are copied. */
  lemma SpliceCopies<T>(s: seq<T>, from: nat, to: nat, edits: Edits<T>)
    requires from <= to && InOrder(to, edits, |s|)
    ensures InOrder(from, edits, |s|) && to <= |s|
    ensures Splice(s, from, edits) == s[from..to] + Splice(s, to, edits)
  {
    match edits
    case NoEdits =>
      assert s[from..] == s[from..to] + s[to..];
    case Insert(at, chunk, rest) =>
      assert s[from..at] == s[from..to] + s[to..at];
      Concat4(s[from..to], s[to..at], chunk, Splice(s, at, rest));
  }

  function Shift<T>(edits: Edits<T>, offset: nat): Edits<T> {
    match edits
    case NoEdits => NoEdits
    case Insert(at, chunk, rest) => Insert(offset + at, chunk, Shift(rest, offset))
  }

  lemma SliceBehind<T>(h: seq<T>, s: seq<T>, a: nat, b: nat)
    requires a <= b <= |s|
    ensures (h + s)[|h| + a..|h| + b] == s[a..b]
  {
  }

  /** Splicing a part in place is splicing the whole at shifted points. */
  lemma {:induction false} SplicePartFrom<T>(h: seq<T>, part: seq<T>, t: seq<T>, from: nat, edits: Edits<T>)
    requires InOrder(from, edits, |part|)
    ensures InOrder(|h| + from, Shift(edits, |h|), |h + (part + t)|)
    ensures Splice(h + (part + t), |h| + from, Shift(edits, |h|)) == Splice(part, from, edits) + t
    decreases edits
  {
    var whole := h + (part + t);
    match edits
    case NoEdits =>
      assert whole[|h| + from..] == part[from..] + t;
    case Insert(at, chunk, rest) =>
      SplicePartFrom(h, part, t, at, rest);
      SliceBehind(h, part + t, from, at);
      assert (part + t)[from..at] == part[from..at];
      Concat3(part[from..at] + chunk, Splice(part, at, rest), t);
  }

  lemma SplicePart<T>(h: seq<T>, part: seq<T>, t: seq<T>, edits: Edits<T>)
    requires InOrder(0, edits, |part|)
    ensures InOrder(0, Shift(edits, |h|), |h + part + t|)
    ensures Splice(h + part + t, 0, Shift(edits, |h|)) == h + Splice(part, 0, edits) + t
  {
    Concat3(h, part, t);
    SplicePartFrom(h, part, t, 0, edits);
    SpliceCopies(h + (part + t), 0, |h|, Shift(edits, |h|));
    assert (h + (part + t))[0..|h|] == h;
    Concat3(h, Splice(part, 0, edits), t);
  }

  function Append<T>(a: Edits<T>, b: Edits<T>): Edits<T> {
    match a
    case NoEdits => b
    case Insert(at, chunk, rest) => Insert(at, chunk, Append(rest, b))
  }

  /** Two spliced parts side by side are one spliced whole. */
  lemma {:induction false} SpliceConcat<T>(a: seq<T>, b: seq<T>, from: nat, ea: Edits<T>, eb: Edits<T>)
    requires InOrder(from, ea, |a|) && InOrder(0, eb, |b|)
    ensures var all := Append(ea, Shift(eb, |a|));
            InOrder(from, all, |a + b|) && Splice(a + b, from, all) == Splice(a, from, ea) + Splice(b, 0, eb)
    decreases ea
  {
    match ea
    case NoEdits =>
      SplicePartFrom(a, b, [], 0, eb);
      assert a + (b + []) == a + b;
      SpliceCopies(a + b, from, |a|, Shift(eb, |a|));
      assert (a + b)[from..|a|] == a[from..];
      assert Splice(b, 0, eb) + [] == Splice(b, 0, eb);
    case Insert(at, chunk, rest) =>
      SpliceConcat(a, b, at, rest, eb);
      assert (a + b)[from..at] == a[from..at];
      Concat3(a[from..at] + chunk, Splice(a, at, rest), Splice(b, 0, eb));
  }
}
