/** The body of a function is a string constant of the statement around it. What the server reads back from the
    instrumented statement depends on how that constant is written. */
module Quoting {
  import opened Basics
  import opened Decimal
  import opened Splicing
  import opened Segmentation
  import opened Tokens
  import opened Parser
  import opened SignalCodec
  import opened Instrumenter
  import opened InstrumenterTheorems

  /** `'..'`, `E'..'` and `$tag$..$tag$` (PostgreSQL documentation, section 4.1.2). */
  datatype Quotation = Single | Escaped | Dollar(delim: string)

  predicate TagChar(c: char) {
    c != '$' && c != ';' && c != '\'' && !IsSpace(c)
  }

  /** `$tag$`: the tag is an identifier without dollar signs, or empty. */
  predicate DollarDelimiter(delim: string) {
    && |delim| >= 2 && delim[0] == '$' && delim[|delim| - 1] == '$'
    && forall k :: 0 < k < |delim| - 1 ==> TagChar(delim[k])
  }

  /** `delim` stands at offset `i`. */
  predicate OccursAt(delim: string, s: string, i: nat) {
    i + |delim| <= |s| && s[i..i + |delim|] == delim
  }

  predicate Occurs(delim: string, s: string) {
    exists i :: 0 <= i <= |s| && OccursAt(delim, s, i)
  }

  function FirstAt(delim: string, s: string): (r: Option<nat>)
    ensures r.Some? ==> OccursAt(delim, s, r.value)
    ensures forall i: nat :: (r.Some? ==> i < r.value) ==> !OccursAt(delim, s, i)
    decreases |s|
  {
    if |s| < |delim| then None
    else if delim <= s then Some(0)
    else
      OccursInTail(delim, s);
      Plus(1, FirstAt(delim, s[1..]))
  }

  lemma OccursInTail(delim: string, s: string)
    requires s != ""
    ensures forall i: nat :: 0 < i ==> OccursAt(delim, s, i) == OccursAt(delim, s[1..], i - 1)
  {
    forall i: nat | 0 < i ensures OccursAt(delim, s, i) == OccursAt(delim, s[1..], i - 1) {
      if i + |delim| <= |s| {
        SliceOfSlice(s, 1, |s|, i - 1, i - 1 + |delim|);
        assert s[1..] == s[1..|s|];
      }
    }
  }

  /** How much of a text that follows an opening delimiter belongs to the constant: up to a quote that is not
      doubled, nor escaped by a backslash in the second form, or up to the first closing tag. */
  function InnerEnd(q: Quotation, s: string): (r: Option<nat>)
    ensures r.Some? ==> r.value <= |s|
    decreases |s|
  {
    if q.Dollar? then FirstAt(q.delim, s)
    else if s == "" then None
    else if s[0] == '\'' then
      if |s| > 1 && s[1] == '\'' then Plus(2, InnerEnd(q, s[2..])) else Some(0)
    else if q.Escaped? && s[0] == '\\' && |s| > 1 then Plus(2, InnerEnd(q, s[2..]))
    else Plus(1, InnerEnd(q, s[1..]))
  }

  function Plus(n: nat, r: Option<nat>): Option<nat> {
    match r
    case None => None
    case Some(k) => Some(n + k)
  }

  // ----- quotes -----

  /** Text that ends a quoted constant wherever it is put: its first quote is a lone one. */
  predicate Breaks(chunk: string, k: nat) {
    && 0 < k && k + 1 < |chunk| && chunk[k] == '\'' && chunk[k + 1] != '\''
    && forall j :: 0 <= j < k ==> chunk[j] != '\'' && chunk[j] != '\\'
  }

  lemma {:induction false} EndsInside(q: Quotation, chunk: string, z: string, k: nat, i: nat)
    requires !q.Dollar? && Breaks(chunk, k) && i <= k
    ensures InnerEnd(q, chunk[i..] + z) == Some(k - i)
    decreases k - i
  {
    var s := chunk[i..] + z;
    assert s[0] == chunk[i] && s[1] == chunk[i + 1];
    if i < k {
      assert s[1..] == chunk[i + 1..] + z;
      EndsInside(q, chunk, z, k, i + 1);
    }
  }

  /** `x` is the beginning of a constant that goes on at least to its end. */
  lemma {:induction false} BrokenBehind(q: Quotation, x: string, y: string, chunk: string, z: string, k: nat)
    requires !q.Dollar? && Breaks(chunk, k)
    requires var r := InnerEnd(q, x + y); r.Some? && |x| <= r.value
    ensures var r := InnerEnd(q, x + (chunk + z)); r.Some? && r.value < |x| + |chunk|
    decreases |x|
  {
    var s, t := x + y, x + (chunk + z);
    if x == "" {
      assert t == chunk[0..] + z;
      EndsInside(q, chunk, z, k, 0);
    } else if |x| == 1 && (x[0] == '\'' || (q.Escaped? && x[0] == '\\')) {
      assert t[1] == chunk[0] && t[2..] == chunk[1..] + z;
      EndsInside(q, chunk, z, k, 1);
    } else {
      var step := if x[0] == '\'' || (q.Escaped? && x[0] == '\\') then 2 else 1;
      assert s[0] == t[0] == x[0] && (|x| > 1 ==> s[1] == t[1] == x[1]);
      assert s[step..] == x[step..] + y && t[step..] == x[step..] + (chunk + z);
      BrokenBehind(q, x[step..], y, chunk, z, k);
    }
  }

  // ----- tags -----

  /** Text that no closing tag can begin or end in the middle of: in front of its first dollar sign there is a
      character no tag has, and its last character is none either. */
  predicate Fenced(chunk: string, a: nat) {
    && a < |chunk| && chunk[a] != '$' && !TagChar(chunk[a]) && (forall k :: 0 <= k < a ==> chunk[k] != '$')
    && chunk[|chunk| - 1] != '$' && !TagChar(chunk[|chunk| - 1])
  }

  lemma OccursAround(delim: string, x: string, chunk: string, z: string, a: nat, i: nat)
    requires DollarDelimiter(delim) && Fenced(chunk, a) && OccursAt(delim, x + (chunk + z), i)
    ensures i + |delim| <= |x| || (|x| <= i && i + |delim| <= |x| + |chunk|) || |x| + |chunk| <= i
  {
    var s, n := x + (chunk + z), |delim|;
    assert forall k :: 0 <= k < |chunk| ==> s[|x| + k] == chunk[k];
    if i < |x| < i + n {
      CharOf(delim, s, i, if |x| + a < i + n - 1 then |x| + a else i + n - 1);
    } else if |x| <= i < |x| + |chunk| < i + n {
      CharOf(delim, s, i, |x| + |chunk| - 1);
    }
  }

  lemma CharOf(delim: string, s: string, i: nat, k: nat)
    requires OccursAt(delim, s, i) && i <= k < i + |delim|
    ensures s[k] == delim[k - i]
  {
    assert s[i..i + |delim|][k - i] == s[k];
  }

  /** No closing tag before offset `m`. */
  ghost predicate Free(delim: string, s: string, m: nat) {
    forall i: nat :: i < m ==> !OccursAt(delim, s, i)
  }

  lemma OccursInside(delim: string, x: string, y: string, z: string, i: nat)
    requires i + |delim| <= |y|
    ensures OccursAt(delim, x + (y + z), |x| + i) == OccursAt(delim, y, i)
  {
    assert (x + (y + z))[|x| + i..|x| + i + |delim|] == y[i..i + |delim|];
  }

  lemma OccursBehind(delim: string, x: string, z: string, i: nat)
    ensures OccursAt(delim, x + z, |x| + i) == OccursAt(delim, z, i)
  {
    if i + |delim| <= |z| {
      assert (x + z)[|x| + i..|x| + i + |delim|] == z[i..i + |delim|];
    }
  }

  lemma OccursBefore(delim: string, x: string, y: string, z: string, i: nat)
    requires i + |delim| <= |x|
    ensures OccursAt(delim, x + y, i) == OccursAt(delim, x + z, i)
  {
    assert (x + y)[i..i + |delim|] == x[i..i + |delim|] == (x + z)[i..i + |delim|];
  }

  /** One more chunk in front of a text without closing tags. */
  lemma FreeAround(delim: string, x: string, chunk: string, z: string, y: string, a: nat, m: nat)
    requires DollarDelimiter(delim) && Fenced(chunk, a) && Free(delim, x + y, |x|)
    ensures Free(delim, x + (chunk + z), |x| + |chunk| + m) <==> !Occurs(delim, chunk) && Free(delim, z, m)
  {
    var s := x + (chunk + z);
    assert s == (x + chunk) + z;
    if !Occurs(delim, chunk) && Free(delim, z, m) {
      forall i: nat | i < |x| + |chunk| + m ensures !OccursAt(delim, s, i) {
        if OccursAt(delim, s, i) {
          OccursAround(delim, x, chunk, z, a, i);
          if i + |delim| <= |x| {
            OccursBefore(delim, x, chunk + z, y, i);
          } else if i < |x| + |chunk| {
            OccursInside(delim, x, chunk, z, i - |x|);
          } else {
            OccursBehind(delim, x + chunk, z, i - |x| - |chunk|);
          }
        }
      }
    }
    if Free(delim, s, |x| + |chunk| + m) {
      forall i: nat ensures !OccursAt(delim, chunk, i) {
        if OccursAt(delim, chunk, i) { OccursInside(delim, x, chunk, z, i); }
      }
      forall i: nat | i < m ensures !OccursAt(delim, z, i) {
        OccursBehind(delim, x + chunk, z, i);
      }
    }
  }

  // ----- all chunks of a body -----

  ghost predicate FencedText(chunk: string) {
    exists a: nat :: Fenced(chunk, a)
  }

  ghost predicate BreakText(chunk: string) {
    exists k: nat :: Breaks(chunk, k)
  }

  /** What instrumentation inserts: it breaks quotes, and tags neither begin nor end in the middle of it. */
  ghost predicate Inserted(chunks: seq<string>) {
    forall k :: 0 <= k < |chunks| ==> FencedText(chunks[k]) && BreakText(chunks[k])
  }

  predicate NoneOccurs(delim: string, texts: seq<string>) {
    forall k :: 0 <= k < |texts| ==> !Occurs(delim, texts[k])
  }

  lemma FreeTail(delim: string, x: string, y: string, m: nat)
    requires Free(delim, x + y, |x| + m)
    ensures Free(delim, y, m)
  {
    forall i: nat | i < m ensures !OccursAt(delim, y, i) { OccursBehind(delim, x, y, i); }
  }

  lemma FreeFront(delim: string, x: string, y: string, m: nat)
    requires Free(delim, x + y, |x| + m)
    ensures Free(delim, x + y, |x|)
  {
  }

  lemma Regroup(x: string, chunk: string, z: string, tail: string)
    ensures x + chunk + z + tail == x + (chunk + (z + tail))
  {
  }

  lemma {:induction false} FreeSplice(delim: string, s: string, from: nat, edits: Edits<char>, tail: string)
    requires InOrder(from, edits, |s|) && DollarDelimiter(delim) && Inserted(Chunks(edits))
    requires Free(delim, s[from..] + tail, |s| - from)
    ensures var t := Splice(s, from, edits); Free(delim, t + tail, |t|) <==> NoneOccurs(delim, Chunks(edits))
    decreases edits
  {
    match edits
    case NoEdits =>
    case Insert(at, chunk, rest) =>
      hide Fenced, Breaks, Occurs, OccursAt;
      var x, y, z := s[from..at], s[at..] + tail, Splice(s, at, rest);
      assert Chunks(edits)[0] == chunk && Chunks(edits)[1..] == Chunks(rest);
      var a: nat :| Fenced(chunk, a);
      assert s[from..] + tail == x + y;
      FreeTail(delim, x, y, |s| - at);
      hide Free, NoneOccurs;
      FreeSplice(delim, s, at, rest, tail);
      FreeFront(delim, x, y, |s| - at);
      FreeAround(delim, x, chunk, z + tail, y, a, |z|);
      Regroup(x, chunk, z, tail);
      NoneOccursCons(delim, chunk, Chunks(rest));
  }

  lemma NoneOccursCons(delim: string, chunk: string, rest: seq<string>)
    ensures NoneOccurs(delim, [chunk] + rest) <==> !Occurs(delim, chunk) && NoneOccurs(delim, rest)
  {
    var all := [chunk] + rest;
    assert all[0] == chunk;
    assert forall k :: 0 <= k < |rest| ==> all[k + 1] == rest[k];
  }

  lemma FirstIs(delim: string, s: string, m: nat)
    ensures FirstAt(delim, s) == Some(m) <==> OccursAt(delim, s, m) && Free(delim, s, m)
  {
  }

  lemma TaggedReadBack(delim: string, body: string, edits: Edits<char>, tail: string)
    requires InOrder(0, edits, |body|) && Inserted(Chunks(edits)) && DollarDelimiter(delim)
    requires FirstAt(delim, body + tail) == Some(|body|)
    ensures var t := Splice(body, 0, edits); FirstAt(delim, t + tail) == Some(|t|) <==> NoneOccurs(delim, Chunks(edits))
  {
    hide OccursAt, Occurs, Fenced, Breaks, FirstAt, NoneOccurs, DollarDelimiter, Inserted;
    var t := Splice(body, 0, edits);
    assert body[0..] == body;
    FirstIs(delim, body + tail, |body|);
    FreeSplice(delim, body, 0, edits, tail);
    FirstIs(delim, t + tail, |t|);
    OccursBehind(delim, body, tail, 0);
    OccursBehind(delim, t, tail, 0);
  }

  lemma QuotedBroken(q: Quotation, body: string, edits: Edits<char>, tail: string)
    requires InOrder(0, edits, |body|) && Inserted(Chunks(edits)) && !q.Dollar? && edits.Insert?
    requires InnerEnd(q, body + tail) == Some(|body|)
    ensures var t := Splice(body, 0, edits); InnerEnd(q, t + tail) != Some(|t|)
  {
    hide Breaks, Fenced, InnerEnd;
    var x, z := body[0..edits.at], Splice(body, edits.at, edits.rest);
    assert Chunks(edits)[0] == edits.chunk;
    var k: nat :| Breaks(edits.chunk, k);
    assert body + tail == x + (body[edits.at..] + tail);
    BrokenBehind(q, x, body[edits.at..] + tail, edits.chunk, z + tail, k);
    assert Splice(body, 0, edits) + tail == x + (edits.chunk + (z + tail));
  }

  /** A constant whose text gets insertions is read back as a whole if and only if nothing is inserted, or it is
      written with a tag that is in none of the insertions. */
  lemma ReadBackIff(q: Quotation, body: string, edits: Edits<char>, tail: string)
    requires InOrder(0, edits, |body|) && Inserted(Chunks(edits)) && (q.Dollar? ==> DollarDelimiter(q.delim))
    requires InnerEnd(q, body + tail) == Some(|body|)
    ensures var t := Splice(body, 0, edits);
            InnerEnd(q, t + tail) == Some(|t|) <==> edits.NoEdits? || (q.Dollar? && NoneOccurs(q.delim, Chunks(edits)))
  {
    hide Inserted, NoneOccurs, FirstAt;
    if q.Dollar? {
      TaggedReadBack(q.delim, body, edits, tail);
      if edits.NoEdits? { NothingOccurs(q.delim); }
    } else if edits.Insert? {
      QuotedBroken(q, body, edits, tail);
    } else {
      assert body[0..] == body;
    }
  }

  lemma NothingOccurs(delim: string)
    ensures NoneOccurs(delim, []) && Chunks(NoEdits) == []
  {
  }

  // ----- the signals -----

  /** The statement a signal is. */
  function SignalText(channel: string, id: string, sqlMode: bool): string {
    if sqlMode then SqlSignal(channel, id) else PlpgsqlSignal(channel, id)
  }

  /** Every signal is quoted by the channel's first character, which is none itself. */
  predicate Quotable(channel: string, sqlMode: bool) {
    sqlMode ==> channel != "" && channel[0] != '\''
  }

  lemma SignalShape(channel: string, id: string, sqlMode: bool)
    requires Quotable(channel, sqlMode)
    ensures var s := SignalText(channel, id, sqlMode);
            && |s| > 18 && s[|s| - 1] == ';'
            && Breaks(s, if sqlMode then 17 else 8) && Fenced(s, if sqlMode then 6 else 7)
  {
    var call := NotifyCall(channel, id);
    assert call[0] == 'S';
    if sqlMode {
      var s := SqlSignal(channel, id);
      assert forall k :: 0 <= k < |NOTIFY_OPEN| ==> s[k] == NOTIFY_OPEN[k];
      assert s[18] == channel[0];
    } else {
      var s := PlpgsqlSignal(channel, id);
      assert DoubleQuotes(call)[0] == 'S';
      LongEnough(call);
      assert forall k :: 0 <= k < |EXECUTE_OPEN| ==> s[k] == EXECUTE_OPEN[k];
      assert s[9] == DoubleQuotes(call)[0];
    }
  }

  lemma {:induction false} LongEnough(s: string)
    ensures |DoubleQuotes(s)| >= |s|
  {
    if s != "" {
      LongEnough(s[1..]);
    }
  }

  predicate AllSpaces(s: string) {
    forall k :: 0 <= k < |s| ==> IsSpace(s[k])
  }

  /** White space around a signal changes none of this. */
  lemma SignalPadded(signal: string, before: string, behind: string, k: nat, a: nat)
    requires Breaks(signal, k) && Fenced(signal, a) && AllSpaces(before) && AllSpaces(behind)
    ensures BreakText(before + signal + behind) && FencedText(before + signal + behind)
  {
    var chunk := before + signal + behind;
    assert forall j :: 0 <= j < |signal| ==> chunk[|before| + j] == signal[j];
    assert forall j :: 0 <= j < |before| ==> chunk[j] == before[j];
    assert behind != "" ==> chunk[|chunk| - 1] == behind[|behind| - 1];
    assert Breaks(chunk, |before| + k) by {
      forall j | 0 <= j < |before| + k ensures chunk[j] != '\'' && chunk[j] != '\\' {
        assert j >= |before| ==> chunk[j] == signal[j - |before|];
      }
    }
    assert Fenced(chunk, |before| + a) by {
      forall j | 0 <= j < |before| + a ensures chunk[j] != '$' {
        assert j >= |before| ==> chunk[j] == signal[j - |before|];
      }
    }
  }

  lemma OccursPadded(delim: string, signal: string, before: string, behind: string)
    requires DollarDelimiter(delim) && AllSpaces(before) && AllSpaces(behind)
    ensures Occurs(delim, before + signal + behind) <==> Occurs(delim, signal)
  {
    var chunk := before + signal + behind;
    assert chunk == before + (signal + behind);
    if Occurs(delim, signal) {
      var i :| 0 <= i <= |signal| && OccursAt(delim, signal, i);
      OccursInside(delim, before, signal, behind, i);
    }
    if Occurs(delim, chunk) {
      var i :| 0 <= i <= |chunk| && OccursAt(delim, chunk, i);
      assert forall j :: 0 <= j < |before| ==> IsSpace(chunk[j]) by {
        assert forall j :: 0 <= j < |before| ==> chunk[j] == before[j];
      }
      assert forall j :: |before| + |signal| <= j < |chunk| ==> IsSpace(chunk[j]) by {
        assert forall j :: |before| + |signal| <= j < |chunk| ==> chunk[j] == behind[j - |before| - |signal|];
      }
      CharOf(delim, chunk, i, i);
      CharOf(delim, chunk, i, i + |delim| - 1);
      OccursInside(delim, before, signal, behind, i - |before|);
    }
  }

  lemma ChunkInserted(chunk: string, channel: string, id: string, sqlMode: bool)
    requires CarriesSignal(chunk, channel, id, sqlMode) && Quotable(channel, sqlMode)
    ensures BreakText(chunk) && FencedText(chunk)
    ensures forall delim :: DollarDelimiter(delim) ==>
              (Occurs(delim, chunk) <==> Occurs(delim, SignalText(channel, id, sqlMode)))
  {
    hide Breaks, Fenced, SqlSignal, PlpgsqlSignal, Occurs, DollarDelimiter;
    var signal := SignalText(channel, id, sqlMode);
    SignalShape(channel, id, sqlMode);
    var before, behind := Padding(chunk, channel, id, sqlMode);
    SignalPadded(signal, before, behind, if sqlMode then 17 else 8, if sqlMode then 6 else 7);
    forall delim | DollarDelimiter(delim)
      ensures Occurs(delim, chunk) <==> Occurs(delim, SignalText(channel, id, sqlMode))
    {
      OccursPadded(delim, signal, before, behind);
    }
  }

  lemma Padding(chunk: string, channel: string, id: string, sqlMode: bool) returns (before: string, behind: string)
    requires CarriesSignal(chunk, channel, id, sqlMode)
    ensures AllSpaces(before) && AllSpaces(behind) && chunk == before + SignalText(channel, id, sqlMode) + behind
  {
    hide SqlSignal, PlpgsqlSignal;
    var signal := SignalText(channel, id, sqlMode);
    if sqlMode {
      var blanks := chunk[|signal| + 1..];
      before, behind := "", "\n" + blanks;
      assert chunk == (signal + "\n") + blanks;
    } else if chunk == signal + "\n" {
      before, behind := "", "\n";
      assert chunk == "" + signal + "\n";
    } else {
      before, behind := "\n", "";
      assert chunk == "\n" + signal + "";
    }
  }

  // ----- tags in signals -----

  /** A tag at the beginning is there with quotes doubled or not. */
  lemma {:induction false} StartsDoubled(delim: string, s: string)
    requires '\'' !in delim
    ensures delim <= DoubleQuotes(s) <==> delim <= s
    decreases |delim|
  {
    var t := DoubleQuotes(s);
    if delim != "" && s != "" {
      assert t[0] == s[0];
      StartsWith(delim, s);
      StartsWith(delim, t);
      if s[0] != '\'' {
        assert t[1..] == DoubleQuotes(s[1..]);
        StartsDoubled(delim[1..], s[1..]);
      } else {
        assert delim[0] != '\'';
      }
    }
  }

  lemma StartsWith(delim: string, s: string)
    requires delim != "" && s != ""
    ensures delim <= s <==> delim[0] == s[0] && delim[1..] <= s[1..]
  {
    if delim[0] == s[0] && delim[1..] <= s[1..] {
      assert delim == [delim[0]] + delim[1..] && s == [s[0]] + s[1..];
    }
    if delim <= s {
      assert forall k :: 0 <= k < |delim| ==> delim[k] == s[k];
    }
  }

  lemma OccursFirstOrLater(delim: string, s: string)
    requires delim != "" && s != ""
    ensures Occurs(delim, s) <==> delim <= s || Occurs(delim, s[1..])
  {
    OccursInTail(delim, s);
    assert OccursAt(delim, s, 0) <==> delim <= s;
    if Occurs(delim, s[1..]) {
      var i :| 0 <= i <= |s[1..]| && OccursAt(delim, s[1..], i);
      assert OccursAt(delim, s, i + 1);
    }
    if Occurs(delim, s) {
      var i :| 0 <= i <= |s| && OccursAt(delim, s, i);
      assert i > 0 ==> OccursAt(delim, s[1..], i - 1);
    }
  }

  /** Doubling quotes neither makes nor breaks a tag. */
  lemma {:induction false} OccursDoubled(delim: string, s: string)
    requires delim != "" && '\'' !in delim
    ensures Occurs(delim, DoubleQuotes(s)) <==> Occurs(delim, s)
  {
    if s != "" {
      hide Occurs;
      var t, t' := DoubleQuotes(s), DoubleQuotes(s[1..]);
      OccursDoubled(delim, s[1..]);
      OccursFirstOrLater(delim, s);
      OccursFirstOrLater(delim, t);
      StartsDoubled(delim, s);
      if s[0] == '\'' {
        assert t[1..] == "'" + t' && t[1..][1..] == t' && t[1..][0] == '\'';
        OccursFirstOrLater(delim, t[1..]);
        StartsWith(delim, t[1..]);
        StartsWith(delim, s);
        assert delim[0] != '\'';
      } else {
        assert t[1..] == t';
      }
    }
  }

  /** Nothing that holds a tag is added by text without dollar signs between, or behind. */
  lemma OccursApart(delim: string, x: string, sep: string, z: string, a: nat)
    requires DollarDelimiter(delim) && Fenced(sep, a) && '$' !in sep
    ensures Occurs(delim, x + (sep + z)) <==> Occurs(delim, x) || Occurs(delim, z)
  {
    var s := x + (sep + z);
    assert s == (x + sep) + z;
    assert forall k :: 0 <= k < |sep| ==> s[|x| + k] == sep[k];
    assert forall k :: |x| <= k < |x| + |sep| ==> s[k] != '$' by {
      assert forall k :: |x| <= k < |x| + |sep| ==> s[k] == sep[k - |x|];
    }
    if Occurs(delim, s) {
      var i :| 0 <= i <= |s| && OccursAt(delim, s, i);
      OccursAround(delim, x, sep, z, a, i);
      CharOf(delim, s, i, i);
      if i + |delim| <= |x| {
        OccursBefore(delim, x, sep + z, "", i);
        assert x + "" == x;
      } else {
        OccursBehind(delim, x + sep, z, i - |x| - |sep|);
      }
    }
    if Occurs(delim, x) {
      var i :| 0 <= i <= |x| && OccursAt(delim, x, i);
      OccursBefore(delim, x, sep + z, "", i);
      assert x + "" == x;
    }
    if Occurs(delim, z) {
      var i :| 0 <= i <= |z| && OccursAt(delim, z, i);
      OccursBehind(delim, x + sep, z, i);
    }
  }

  lemma OccursInFront(delim: string, x: string, tail: string)
    requires DollarDelimiter(delim) && '$' !in tail
    ensures Occurs(delim, x + tail) <==> Occurs(delim, x)
  {
    var s := x + tail;
    assert x + "" == x;
    assert forall k :: |x| <= k < |s| ==> s[k] != '$' by {
      assert forall k :: |x| <= k < |s| ==> s[k] == tail[k - |x|];
    }
    if Occurs(delim, s) {
      var i :| 0 <= i <= |s| && OccursAt(delim, s, i);
      CharOf(delim, s, i, i + |delim| - 1);
      OccursBefore(delim, x, tail, "", i);
    }
    if Occurs(delim, x) {
      var i :| 0 <= i <= |x| && OccursAt(delim, x, i);
      OccursBefore(delim, x, tail, "", i);
    }
  }

  lemma DelimiterChars(delim: string)
    requires DollarDelimiter(delim)
    ensures delim != "" && '\'' !in delim && !Occurs(delim, "")
  {
  }

  lemma NumeralWithoutDollar(n: int)
    ensures '$' !in IntToString(n)
  {
    NumeralHasNo(if n < 0 then -n else n, '$');
  }

  lemma OccursInID(delim: string, path: string, startPos: int, length: int)
    requires DollarDelimiter(delim)
    ensures Occurs(delim, FormatSignalID(path, startPos, length)) <==> Occurs(delim, path)
  {
    hide Occurs, IntToString;
    NumeralWithoutDollar(startPos);
    NumeralWithoutDollar(length);
    var tail := ":" + IntToString(startPos) + ":" + IntToString(length);
    OccursInFront(delim, path, tail);
    assert path + tail == FormatSignalID(path, startPos, length);
  }

  const BETWEEN := "', '"

  lemma OccursInCall(delim: string, channel: string, id: string)
    requires DollarDelimiter(delim)
    ensures Occurs(delim, NotifyCall(channel, id)) <==> Occurs(delim, channel) || Occurs(delim, id)
  {
    hide Occurs, DollarDelimiter, DoubleQuotes;
    var quoted := DoubleQuotes(id);
    DelimiterChars(delim);
    OccursDoubled(delim, id);
    OccursInFront(delim, quoted, "')");
    OccursApart(delim, channel, BETWEEN, quoted + "')", 0);
    OccursApart(delim, "", NOTIFY_OPEN, channel + (BETWEEN + (quoted + "')")), 6);
    assert "" + (NOTIFY_OPEN + (channel + (BETWEEN + (quoted + "')")))) == NotifyCall(channel, id);
  }

  /** A tag is in a signal exactly if it is in the channel's name or in the path of the file. */
  lemma OccursInSignal(delim: string, channel: string, path: string, startPos: int, length: int, sqlMode: bool)
    requires DollarDelimiter(delim)
    ensures Occurs(delim, SignalText(channel, FormatSignalID(path, startPos, length), sqlMode))
            <==> Occurs(delim, channel) || Occurs(delim, path)
  {
    hide Occurs, DollarDelimiter, DoubleQuotes, FormatSignalID, NotifyCall;
    var id := FormatSignalID(path, startPos, length);
    var call := NotifyCall(channel, id);
    OccursInID(delim, path, startPos, length);
    OccursInCall(delim, channel, id);
    if sqlMode {
      OccursInFront(delim, call, ";");
    } else {
      DelimiterChars(delim);
      OccursDoubled(delim, call);
      OccursInFront(delim, DoubleQuotes(call), "';");
      OccursApart(delim, "", EXECUTE_OPEN, DoubleQuotes(call) + "';", 7);
      assert "" + (EXECUTE_OPEN + (DoubleQuotes(call) + "';")) == PlpgsqlSignal(channel, id);
    }
  }

  // ----- statements -----

  /** The constant that begins at `start` has the text `content`. */
  predicate ReadsConstant(q: Quotation, text: string, start: nat, content: string) {
    && start <= |text| && content <= text[start..] && InnerEnd(q, text[start..]) == Some(|content|)
  }

  /** The signal statements of a body's points. */
  function SignalTexts(points: seq<CoveragePoint>, channel: string, sqlMode: bool): (texts: seq<string>)
    ensures |texts| == |points|
  {
    seq(|points|, k requires 0 <= k < |points| => SignalText(channel, points[k].signalID, sqlMode))
  }

  /** In terms of the signals put in. */
  lemma SignalsReadBack(lex: Lexer, stmt: Statement, path: string, skipToBegin: bool, sqlMode: bool, channel: string,
                     q: Quotation)
    requires LexesSegments(lex, stmt.body) && BodyFits(stmt) && BodyInPlace(stmt) && !Skipped(stmt)
    requires Quotable(channel, sqlMode) && (q.Dollar? ==> DollarDelimiter(q.delim))
    requires ReadsConstant(q, stmt.rawSQL, stmt.bodyStart, stmt.body)
    ensures var ctx := ContextOf(stmt, path, sqlMode, channel);
            var points := BodyPoints(lex, stmt, path, skipToBegin, sqlMode, channel);
            ReadsConstant(q, BodyText(lex, stmt, path, skipToBegin, sqlMode, channel), stmt.bodyStart,
                  InstrumentedText(ctx, lex(stmt.body), skipToBegin))
            <==> points == [] || (q.Dollar? && NoneOccurs(q.delim, SignalTexts(points, channel, sqlMode)))
  {
    hide LexesSegments, InnerEnd, NoneOccurs, DollarDelimiter, WellLexed, SignalTexts, ReadsConstant, Inserted,
         Chunks, TextEdits, Points, PlanFits, PlanInOrder, Quotable;
    var ctx, toks := ContextOf(stmt, path, sqlMode, channel), lex(stmt.body);
    assert WellLexed(stmt.body, toks) by { LexedBody(lex, stmt.body); }
    var plan, points := PlanOf(toks, skipToBegin, sqlMode), PointsOf(ctx, toks, skipToBegin);
    var edits, start, body := TextEdits(ctx, toks, plan), stmt.bodyStart, stmt.body;
    PlanOrdered(toks, skipToBegin, sqlMode);
    EditsInOrder(ctx, toks, plan, 0, 0);
    var tail, t := stmt.rawSQL[start + |body|..], InstrumentedText(ctx, toks, skipToBegin);
    var text := BodyText(lex, stmt, path, skipToBegin, sqlMode, channel);
    AsInserted(ctx, toks, plan);
    if points == [] {
      NoPoints(ctx, toks, plan);
      assert t == body by { assert body[0..] == body; }
    }
    CutOut(stmt.rawSQL, start, body);
    Concat3(stmt.rawSQL[..start], t, tail);
    ReadsAtStart(q, stmt.rawSQL[..start], body, tail);
    ReadsAtStart(q, stmt.rawSQL[..start], t, tail);
    ReadBackIff(q, body, edits, tail);
  }

  lemma CutOut(s: string, start: nat, part: string)
    requires start + |part| <= |s| && s[start..start + |part|] == part
    ensures s == s[..start] + (part + s[start + |part|..])
  {
    assert s == s[..start] + s[start..start + |part|] + s[start + |part|..];
  }

  lemma ReadsAtStart(q: Quotation, head: string, content: string, tail: string)
    ensures ReadsConstant(q, head + (content + tail), |head|, content)
            <==> InnerEnd(q, content + tail) == Some(|content|)
  {
    assert (head + (content + tail))[|head|..] == content + tail;
  }

  lemma {:induction false} AsInserted(ctx: Context, toks: seq<Token>, plan: Plan)
    requires WellLexed(ctx.body, toks) && PlanFits(plan, |toks|) && Quotable(ctx.channel, ctx.sqlMode)
    ensures var chunks, points := Chunks(TextEdits(ctx, toks, plan)), Points(ctx, toks, plan);
            && Inserted(chunks) && (chunks == [] <==> TextEdits(ctx, toks, plan).NoEdits?)
            && (points == [] <==> chunks == [])
            && forall delim :: DollarDelimiter(delim) ==>
                 (NoneOccurs(delim, chunks) <==> NoneOccurs(delim, SignalTexts(points, ctx.channel, ctx.sqlMode)))
  {
    hide WellLexed, Occurs, DollarDelimiter, CarriesSignal, Quotable, FencedText, BreakText, SignalText;
    var edits, points := TextEdits(ctx, toks, plan), Points(ctx, toks, plan);
    var chunks := Chunks(edits);
    EditsCarryPoints(ctx, toks, plan, 0);
    ShiftZero(edits);
    forall k | 0 <= k < |chunks|
      ensures FencedText(chunks[k]) && BreakText(chunks[k])
      ensures forall delim :: DollarDelimiter(delim) ==>
                (Occurs(delim, chunks[k]) <==> Occurs(delim, SignalTexts(points, ctx.channel, ctx.sqlMode)[k]))
    {
      ChunkInserted(chunks[k], ctx.channel, points[k].signalID, ctx.sqlMode);
    }
  }

  // ----- which bodies survive -----

  /** Every point's signal is that of the file. */
  lemma {:induction false} PointsOfPath(ctx: Context, toks: seq<Token>, plan: Plan)
    requires WellLexed(ctx.body, toks) && PlanFits(plan, |toks|)
    ensures forall p :: p in Points(ctx, toks, plan) ==> p.signalID == FormatSignalID(ctx.file, p.startPos, p.length)
    ensures Points(ctx, toks, plan) == [] <==> plan == Empty
    decreases plan
  {
    if plan.Mark? {
      hide WellLexed, FormatSignalID;
      PointsOfPath(ctx, toks, plan.rest);
    }
  }

  lemma NoneOccursIn(delim: string, channel: string, path: string, sqlMode: bool, points: seq<CoveragePoint>)
    requires DollarDelimiter(delim) && points != []
    requires forall p :: p in points ==> p.signalID == FormatSignalID(path, p.startPos, p.length)
    ensures NoneOccurs(delim, SignalTexts(points, channel, sqlMode))
            <==> !Occurs(delim, channel) && !Occurs(delim, path)
  {
    hide DollarDelimiter, FormatSignalID, SignalText, OccursAt;
    var texts := SignalTexts(points, channel, sqlMode);
    forall k | 0 <= k < |texts| ensures Occurs(delim, texts[k]) <==> Occurs(delim, channel) || Occurs(delim, path) {
      assert points[k] in points;
      OccursInSignal(delim, channel, path, points[k].startPos, points[k].length, sqlMode);
    }
    assert Occurs(delim, texts[0]) <==> Occurs(delim, channel) || Occurs(delim, path);
    if !NoneOccurs(delim, texts) {
      var k :| 0 <= k < |texts| && Occurs(delim, texts[k]);
      assert Occurs(delim, channel) || Occurs(delim, path);
    }
  }

  /** What the source text says about survival: nothing to signal, or a dollar-quoted body whose tag is in neither
      name. */
  ghost predicate Survives(lex: Lexer, stmt: Statement, path: string, skipToBegin: bool, channel: string, q: Quotation)
  {
    || NothingToSignal(Kinds(lex(stmt.body)), skipToBegin)
    || (q.Dollar? && !Occurs(q.delim, channel) && !Occurs(q.delim, path))
  }

  /** The server reads the instrumented body back from the instrumented statement if and only if no segment of the body
      opens with another word than a structural keyword, or the body is dollar-quoted and its tag occurs neither in the
      channel's name nor in the path of the file. */
  lemma BodyReadBack(lex: Lexer, stmt: Statement, path: string, skipToBegin: bool, sqlMode: bool, channel: string,
                     q: Quotation)
    requires LexesSegments(lex, stmt.body) && BodyFits(stmt) && BodyInPlace(stmt) && !Skipped(stmt)
    requires Quotable(channel, sqlMode) && (q.Dollar? ==> DollarDelimiter(q.delim))
    requires ReadsConstant(q, stmt.rawSQL, stmt.bodyStart, stmt.body)
    ensures var ctx := ContextOf(stmt, path, sqlMode, channel);
            ReadsConstant(q, BodyText(lex, stmt, path, skipToBegin, sqlMode, channel), stmt.bodyStart,
                          InstrumentedText(ctx, lex(stmt.body), skipToBegin))
            <==> Survives(lex, stmt, path, skipToBegin, channel, q)
  {
    hide LexesSegments, WellLexed, ReadsConstant, NoneOccurs, Occurs, DollarDelimiter, SignalTexts, NothingToSignal,
         InstrumentedText, BodyText, Quotable, FormatSignalID, Points;
    var ctx, toks := ContextOf(stmt, path, sqlMode, channel), lex(stmt.body);
    assert WellLexed(stmt.body, toks) by { LexedBody(lex, stmt.body); }
    var plan, points := PlanOf(toks, skipToBegin, sqlMode), BodyPoints(lex, stmt, path, skipToBegin, sqlMode, channel);
    SignalsReadBack(lex, stmt, path, skipToBegin, sqlMode, channel, q);
    assert points == Points(ctx, toks, plan);
    PointsOfPath(ctx, toks, plan);
    PlanEmptyIff(Kinds(toks), skipToBegin, sqlMode);
    assert plan == BodyPlan(Kinds(toks), skipToBegin, sqlMode);
    if q.Dollar? && points != [] {
      NoneOccursIn(q.delim, channel, path, sqlMode, points);
    }
  }
}
