/** The decisions of internal/instrument/instrumenter.go on token kinds alone: where segments begin and
    end, which are executable, where a terminal sits, and hence where each signal goes. Both the byte
    level (Instrumenter) and the statement level (Correspondence) rest on this module. */
module Segmentation {
  import opened Basics

  /** Token types the instrumenter tells apart; `Other` is every other one. */
  datatype Kind =
    | Comment | Semicolon
    | KBegin | KEnd | KLoop | KDeclare | KException
    | KReturn | KRaise
    | KNotice | KWarning | KInfo | KLog | KDebug
    | SConst | Other

  /** Token indices: `first` is the first token, `end` the closing `;` or the end of the list. */
  datatype Segment = Segment(first: nat, end: nat)

  datatype Placement = Before(index: nat) | After

  /** The signals to inject, from left to right. */
  datatype Plan = Empty | Mark(seg: Segment, place: Placement, rest: Plan)

  /** Leading tokens of segments that are structure only. */
  predicate Structural(k: Kind) {
    k.KBegin? || k.KEnd? || k.KLoop? || k.KDeclare? || k.KException?
  }

  predicate NonFatalLevel(k: Kind) {
    k.KNotice? || k.KWarning? || k.KInfo? || k.KLog? || k.KDebug?
  }

  /** First non-comment token in [i, end), or `end`. */
  function NextSignificant(ks: seq<Kind>, i: nat, end: nat): (j: nat)
    requires i <= end <= |ks|
    ensures i <= j <= end
    ensures forall k :: i <= k < j ==> ks[k].Comment?
    ensures j < end ==> !ks[j].Comment?
    decreases end - i
  {
    if i == end || !ks[i].Comment? then i else NextSignificant(ks, i + 1, end)
  }

  /** RETURN, or RAISE that is not followed by a message level. */
  predicate TerminalAt(ks: seq<Kind>, i: nat, end: nat)
    requires i < end <= |ks|
  {
    ks[i].KReturn? ||
    (ks[i].KRaise? && var j := NextSignificant(ks, i + 1, end); j == end || !NonFatalLevel(ks[j]))
  }

  /** The message levels that do not end a function; any other word, or none, leaves RAISE at EXCEPTION. */
  lemma {:induction false} TerminalAtIs(ks: seq<Kind>, i: nat, end: nat)
    requires i < end <= |ks|
    ensures TerminalAt(ks, i, end)
            <==> ks[i] == KReturn
                 || (ks[i] == KRaise
                     && forall j :: i < j < end && ks[j] in {KNotice, KWarning, KInfo, KLog, KDebug}
                                    ==> exists k :: i < k < j && ks[k] != Comment)
  {
    var j := NextSignificant(ks, i + 1, end);
    if ks[i].KRaise? && j < end && NonFatalLevel(ks[j]) {
      assert ks[j] in {KNotice, KWarning, KInfo, KLog, KDebug};
    }
  }

  /** `findTerminalPos` as a scan: a non-fatal RAISE is stepped over together with its level. */
  function FindTerminal(ks: seq<Kind>, i: nat, end: nat): (r: Option<nat>)
    requires i <= end <= |ks|
    ensures r.Some? ==> i <= r.value < end
    decreases end - i
  {
    if i == end then None
    else if ks[i].KReturn? then Some(i)
    else if ks[i].KRaise? then
      var j := NextSignificant(ks, i + 1, end);
      if j < end && NonFatalLevel(ks[j]) then FindTerminal(ks, j + 1, end) else Some(i)
    else FindTerminal(ks, i + 1, end)
  }

  /** The scan finds the first terminal, and finds none only when there is none. */
  lemma {:induction false} FindTerminalIsFirst(ks: seq<Kind>, i: nat, end: nat)
    requires i <= end <= |ks|
    ensures match FindTerminal(ks, i, end)
            case Some(t) => TerminalAt(ks, t, end) && forall k :: i <= k < t ==> !TerminalAt(ks, k, end)
            case None => forall k :: i <= k < end ==> !TerminalAt(ks, k, end)
    decreases end - i
  {
    if i < end && !ks[i].KReturn? {
      if ks[i].KRaise? {
        var j := NextSignificant(ks, i + 1, end);
        if j < end && NonFatalLevel(ks[j]) {
          FindTerminalIsFirst(ks, j + 1, end);
          assert forall k :: i < k <= j ==> !TerminalAt(ks, k, end);
        }
      } else {
        FindTerminalIsFirst(ks, i + 1, end);
      }
    }
  }

  predicate IsSlice(s: seq<Kind>, ks: seq<Kind>, a: nat) {
    a + |s| <= |ks| && forall k :: 0 <= k < |s| ==> s[k] == ks[a + k]
  }

  /** Scanning a slice is scanning the whole list between the same bounds. */
  lemma {:induction false} FindTerminalInSlice(s: seq<Kind>, ks: seq<Kind>, a: nat, i: nat)
    requires IsSlice(s, ks, a) && i <= |s|
    ensures FindTerminal(ks, a + i, a + |s|)
            == match FindTerminal(s, i, |s|) case None => None case Some(t) => Some(a + t)
    decreases |s| - i
  {
    hide NextSignificant;
    if i < |s| {
      KindInSlice(s, ks, a, i);
      if s[i].KRaise? {
        var j := NextSignificant(s, i + 1, |s|);
        NextSignificantInSlice(s, ks, a, i + 1);
        if j < |s| {
          KindInSlice(s, ks, a, j);
          hide IsSlice;
          FindTerminalInSlice(s, ks, a, j + 1);
        }
      } else if !s[i].KReturn? {
        hide IsSlice;
        FindTerminalInSlice(s, ks, a, i + 1);
      }
    }
  }

  lemma KindInSlice(s: seq<Kind>, ks: seq<Kind>, a: nat, i: nat)
    requires IsSlice(s, ks, a) && i < |s|
    ensures a + |s| <= |ks| && ks[a + i] == s[i]
  {
  }

  lemma {:induction false} NextSignificantInSlice(s: seq<Kind>, ks: seq<Kind>, a: nat, i: nat)
    requires IsSlice(s, ks, a) && i <= |s|
    ensures NextSignificant(ks, a + i, a + |s|) == a + NextSignificant(s, i, |s|)
    decreases |s| - i
  {
    if i < |s| && s[i].Comment? {
      NextSignificantInSlice(s, ks, a, i + 1);
    }
  }

  /** Where the signal of an executable segment goes: SQL-language functions take it in front of the
      statement, PL/pgSQL in front of a terminal and otherwise behind the statement. */
  function PlaceOf(ks: seq<Kind>, seg: Segment, sqlMode: bool): Placement
    requires seg.first < seg.end <= |ks|
  {
    if sqlMode then Before(seg.first)
    else match FindTerminal(ks, seg.first, seg.end)
         case Some(t) => Before(t)
         case None => After
  }

  /** Emits the signal of the segment [first, end) if it is executable. */
  function EmitPlan(ks: seq<Kind>, first: nat, end: nat, sqlMode: bool, rest: Plan): Plan
    requires first < end <= |ks|
  {
    if Structural(ks[first]) then rest
    else Mark(Segment(first, end), PlaceOf(ks, Segment(first, end), sqlMode), rest)
  }

  predicate Pending(ks: seq<Kind>, i: nat, pending: Option<nat>) {
    i <= |ks| && (pending.Some? ==> pending.value < i)
  }

  /** The token loop of `instrumentBody`: `pending` is the start of the segment being read, if any. */
  function PlanFrom(ks: seq<Kind>, i: nat, pending: Option<nat>, sqlMode: bool): Plan
    requires Pending(ks, i, pending)
    decreases |ks| - i
  {
    if i == |ks| then
      if pending.Some? then EmitPlan(ks, pending.value, i, sqlMode, Empty) else Empty
    else if ks[i].Comment? then PlanFrom(ks, i + 1, pending, sqlMode)
    else if ks[i].Semicolon? then
      var rest := PlanFrom(ks, i + 1, None, sqlMode);
      if pending.Some? then EmitPlan(ks, pending.value, i, sqlMode, rest) else rest
    else PlanFrom(ks, i + 1, if pending.Some? then pending else Some(i), sqlMode)
  }

  /** Index behind the first BEGIN at or after `i`, or the end. */
  function AfterBegin(ks: seq<Kind>, i: nat): (j: nat)
    requires i <= |ks|
    ensures i <= j <= |ks|
    decreases |ks| - i
  {
    if i == |ks| then i else if ks[i].KBegin? then i + 1 else AfterBegin(ks, i + 1)
  }

  lemma {:induction false} AfterBeginIs(ks: seq<Kind>, i: nat)
    requires i <= |ks|
    ensures var j := AfterBegin(ks, i);
            && (forall k :: i <= k < j - 1 ==> ks[k] != KBegin)
            && (if KBegin in ks[i..] then i < j && ks[j - 1] == KBegin else j == |ks|)
    decreases |ks| - i
  {
    if i < |ks| {
      assert ks[i..] == [ks[i]] + ks[i + 1..];
      if !ks[i].KBegin? {
        AfterBeginIs(ks, i + 1);
      }
    }
  }

  function BodyPlan(ks: seq<Kind>, skipToBegin: bool, sqlMode: bool): Plan {
    PlanFrom(ks, if skipToBegin then AfterBegin(ks, 0) else 0, None, sqlMode)
  }

  /** First position a signal or a later segment may use after a segment ending at `end`. */
  function Behind(end: nat, n: nat): nat {
    if end < n then end + 1 else n
  }

  /** Segments lie one behind the other, and each signal inside or right behind its segment. */
  predicate PlanInOrder(from: nat, plan: Plan, n: nat): (ok: bool)
    ensures ok ==> from <= n
    decreases plan
  {
    match plan
    case Empty => from <= n
    case Mark(seg, place, rest) =>
      && from <= seg.first < seg.end <= n
      && (place.Before? ==> seg.first <= place.index < seg.end)
      && PlanInOrder(Behind(seg.end, n), rest, n)
  }

  lemma {:induction false} WeakenOrder(from: nat, to: nat, plan: Plan, n: nat)
    requires from <= to && PlanInOrder(to, plan, n)
    ensures PlanInOrder(from, plan, n)
  {
  }

  lemma {:induction false} PlanFromInOrder(ks: seq<Kind>, i: nat, pending: Option<nat>, sqlMode: bool)
    requires Pending(ks, i, pending)
    ensures PlanInOrder(if pending.Some? then pending.value else i, PlanFrom(ks, i, pending, sqlMode), |ks|)
    decreases |ks| - i
  {
    var from := if pending.Some? then pending.value else i;
    if i == |ks| {
    } else if ks[i].Semicolon? {
      PlanFromInOrder(ks, i + 1, None, sqlMode);
      WeakenOrder(from, i + 1, PlanFrom(ks, i + 1, None, sqlMode), |ks|);
    } else if ks[i].Comment? {
      PlanFromInOrder(ks, i + 1, pending, sqlMode);
      if pending.None? {
        WeakenOrder(i, i + 1, PlanFrom(ks, i + 1, pending, sqlMode), |ks|);
      }
    } else {
      PlanFromInOrder(ks, i + 1, if pending.Some? then pending else Some(i), sqlMode);
    }
  }

  // ----- which segments get a signal, without reference to the loop -----

  /** Nothing but comments between `first` and the previous `;` (or the start of the scan). */
  predicate Opens(ks: seq<Kind>, from: nat, first: nat)
    requires from <= first <= |ks|
    decreases first
  {
    first == from || ks[first - 1].Semicolon? || (ks[first - 1].Comment? && Opens(ks, from, first - 1))
  }

  /** A maximal run between semicolons that starts at its first significant token. */
  predicate IsSegment(ks: seq<Kind>, from: nat, seg: Segment) {
    && from <= seg.first < seg.end <= |ks|
    && !ks[seg.first].Comment? && !ks[seg.first].Semicolon?
    && Opens(ks, from, seg.first)
    && (forall k :: seg.first <= k < seg.end ==> !ks[k].Semicolon?)
    && (seg.end < |ks| ==> ks[seg.end].Semicolon?)
  }

  predicate Marks(plan: Plan, seg: Segment, place: Placement) {
    match plan
    case Empty => false
    case Mark(s, p, rest) => (s == seg && p == place) || Marks(rest, seg, place)
  }

  /** In front of an SQL statement; in PL/pgSQL in front of the first terminal, or behind a statement without one. */
  predicate RightPlace(ks: seq<Kind>, seg: Segment, sqlMode: bool, place: Placement)
    requires seg.first < seg.end <= |ks|
  {
    if sqlMode then place == Before(seg.first)
    else match place
         case Before(t) =>
           && seg.first <= t < seg.end && TerminalAt(ks, t, seg.end)
           && forall k :: seg.first <= k < t ==> !TerminalAt(ks, k, seg.end)
         case After => forall k :: seg.first <= k < seg.end ==> !TerminalAt(ks, k, seg.end)
  }

  lemma PlaceIsRight(ks: seq<Kind>, seg: Segment, sqlMode: bool)
    requires seg.first < seg.end <= |ks|
    ensures RightPlace(ks, seg, sqlMode, PlaceOf(ks, seg, sqlMode))
  {
    FindTerminalIsFirst(ks, seg.first, seg.end);
  }

  /** Signals go to exactly the segments that do not open with BEGIN, END, LOOP, DECLARE or EXCEPTION, each at
      the place its contents call for. */
  lemma PlanMarksExactly(ks: seq<Kind>, skipToBegin: bool, sqlMode: bool, seg: Segment, place: Placement)
    ensures var from := if skipToBegin then AfterBegin(ks, 0) else 0;
            Marks(BodyPlan(ks, skipToBegin, sqlMode), seg, place)
            <==> && IsSegment(ks, from, seg)
                 && ks[seg.first] !in {KBegin, KEnd, KLoop, KDeclare, KException}
                 && RightPlace(ks, seg, sqlMode, place)
  {
    var from := if skipToBegin then AfterBegin(ks, 0) else 0;
    PlanFromMarks(ks, from, from, None, sqlMode, seg, place);
    if IsSegment(ks, from, seg) {
      hide IsSegment, Opens;
      FindTerminalIsFirst(ks, seg.first, seg.end);
    }
  }

  /** Every segment opens with a structural keyword. */
  ghost predicate NothingToSignal(ks: seq<Kind>, skipToBegin: bool) {
    var from := if skipToBegin then AfterBegin(ks, 0) else 0;
    forall seg :: IsSegment(ks, from, seg) ==> ks[seg.first] in {KBegin, KEnd, KLoop, KDeclare, KException}
  }

  /** Exactly then there is no signal. */
  lemma PlanEmptyIff(ks: seq<Kind>, skipToBegin: bool, sqlMode: bool)
    ensures BodyPlan(ks, skipToBegin, sqlMode) == Empty <==> NothingToSignal(ks, skipToBegin)
  {
    hide BodyPlan, PlaceOf, Opens, RightPlace;
    var from, plan := if skipToBegin then AfterBegin(ks, 0) else 0, BodyPlan(ks, skipToBegin, sqlMode);
    if plan.Mark? {
      PlanMarksExactly(ks, skipToBegin, sqlMode, plan.seg, plan.place);
    } else {
      forall seg | IsSegment(ks, from, seg) ensures ks[seg.first] in {KBegin, KEnd, KLoop, KDeclare, KException} {
        PlaceIsRight(ks, seg, sqlMode);
        PlanMarksExactly(ks, skipToBegin, sqlMode, seg, PlaceOf(ks, seg, sqlMode));
      }
    }
  }

  predicate Chosen(ks: seq<Kind>, from: nat, sqlMode: bool, seg: Segment, place: Placement) {
    IsSegment(ks, from, seg) && !Structural(ks[seg.first]) && place == PlaceOf(ks, seg, sqlMode)
  }

  /** State of the scan at `i`: the pending segment opens properly and has met no `;`. */
  predicate ScanState(ks: seq<Kind>, from: nat, i: nat, pending: Option<nat>) {
    && from <= i <= |ks|
    && match pending
       case None => Opens(ks, from, i)
       case Some(p) => from <= p < i && Opens(ks, from, p) && !ks[p].Comment?
                       && forall k :: p <= k < i ==> !ks[k].Semicolon?
  }

  lemma {:induction false} PlanFromMarks(ks: seq<Kind>, from: nat, i: nat, pending: Option<nat>, sqlMode: bool,
                                         seg: Segment, place: Placement)
    requires ScanState(ks, from, i, pending)
    ensures Marks(PlanFrom(ks, i, pending, sqlMode), seg, place)
            <==> Chosen(ks, from, sqlMode, seg, place) && seg.first >= (if pending.Some? then pending.value else i)
    decreases |ks| - i
  {
    if i == |ks| {
      if pending.Some? { OnlySegment(ks, from, i, pending.value, seg); }
    } else if ks[i].Semicolon? {
      PlanFromMarks(ks, from, i + 1, None, sqlMode, seg, place);
      if pending.Some? { OnlySegment(ks, from, i, pending.value, seg); }
    } else if ks[i].Comment? {
      PlanFromMarks(ks, from, i + 1, pending, sqlMode, seg, place);
    } else {
      PlanFromMarks(ks, from, i + 1, if pending.Some? then pending else Some(i), sqlMode, seg, place);
    }
  }

  /** A segment that starts in [p, i] is the one that starts at `p`. */
  lemma OnlySegment(ks: seq<Kind>, from: nat, i: nat, p: nat, seg: Segment)
    requires ScanState(ks, from, i, Some(p)) && !ks[p].Semicolon?
    requires i == |ks| || ks[i].Semicolon?
    ensures IsSegment(ks, from, Segment(p, i))
    ensures IsSegment(ks, from, seg) && p <= seg.first <= i ==> seg == Segment(p, i)
  {
    if IsSegment(ks, from, seg) && p < seg.first < i {
      NotOpenInside(ks, from, p, seg.first);
    }
  }

  lemma {:induction false} NotOpenInside(ks: seq<Kind>, from: nat, p: nat, k: nat)
    requires from <= p < k <= |ks|
    requires !ks[p].Comment? && forall m :: p <= m < k ==> !ks[m].Semicolon?
    ensures !Opens(ks, from, k)
    decreases k
  {
    if k - 1 > p {
      NotOpenInside(ks, from, p, k - 1);
    }
  }
}
