/** Signal IDs (internal/instrument/location.go), position keys (internal/coverage/model.go) and the
    SQL text that carries a signal (internal/instrument/instrumenter.go). */
module SignalCodec {
  import opened Basics
  import opened Decimal

  datatype Location = Location(file: string, startPos: int, length: int)

  datatype ParseError = TooFewParts | BadStart | BadLength | NegativeStart | NegativeLength

  /** `FormatSignalID`: file:startPos:length. */
  function FormatSignalID(file: string, startPos: int, length: int): string {
    file + ":" + IntToString(startPos) + ":" + IntToString(length)
  }

  /** Index of the last occurrence of `c` in `s`, or -1. */
  function LastIndexOf(s: string, c: char): (i: int)
    ensures -1 <= i < |s|
  {
    if s == "" then -1
    else if s[|s| - 1] == c then |s| - 1
    else LastIndexOf(s[..|s| - 1], c)
  }

  predicate NoneIn(s: string, c: char, lo: int, hi: int)
    requires 0 <= lo && hi <= |s|
  {
    forall k :: lo <= k < hi ==> s[k] != c
  }

  lemma LastIndexOfIs(s: string, c: char, i: int)
    requires -1 <= i < |s| && (i >= 0 ==> s[i] == c) && NoneIn(s, c, i + 1, |s|)
    ensures LastIndexOf(s, c) == i
  {
  }

  /** What a signal ID means: everything before the last two colons is the file. */
  function SignalLocation(id: string): Result<Location, ParseError> {
    var last := LastIndexOf(id, ':');
    if last < 0 then Err(TooFewParts) else
    var second := LastIndexOf(id[..last], ':');
    if second < 0 then Err(TooFewParts) else
    NumbersOf(id[..last][..second], id[..last][second + 1..], id[last + 1..])
  }

  function NumbersOf(file: string, startText: string, lengthText: string): Result<Location, ParseError> {
    match Atoi(startText)
    case None => Err(BadStart)
    case Some(start) =>
      match Atoi(lengthText)
      case None => Err(BadLength)
      case Some(length) =>
        if start < 0 then Err(NegativeStart)
        else if length < 0 then Err(NegativeLength)
        else Ok(Location(file, start, length))
  }

  /** `ParseSignalID`: collects the last two colons with a backward scan. */
  method ParseSignalID(signalID: string) returns (r: Result<Location, ParseError>)
    ensures r == SignalLocation(signalID)
  {
    var colons: seq<int> := [];
    var i := |signalID| - 1;
    while i >= 0 && |colons| < 2
      invariant -1 <= i < |signalID|
      invariant |colons| <= 2
      invariant |colons| == 0 ==> NoneIn(signalID, ':', i + 1, |signalID|)
      invariant |colons| >= 1 ==> i < colons[0] < |signalID| && signalID[colons[0]] == ':'
                                  && NoneIn(signalID, ':', colons[0] + 1, |signalID|)
      invariant |colons| == 1 ==> NoneIn(signalID, ':', i + 1, colons[0])
      invariant |colons| == 2 ==> 0 <= colons[1] < colons[0] && signalID[colons[1]] == ':'
                                  && NoneIn(signalID, ':', colons[1] + 1, colons[0])
    {
      if signalID[i] == ':' {
        colons := colons + [i];
      }
      i := i - 1;
    }
    if |colons| < 2 {
      TooFewColons(signalID, if |colons| == 1 then colons[0] else -1);
      return Err(TooFewParts);
    }
    var lastColon, secondLastColon := colons[0], colons[1];
    var file := signalID[..secondLastColon];
    var startText, lengthText := signalID[secondLastColon + 1..lastColon], signalID[lastColon + 1..];
    SplitAtColons(signalID, secondLastColon, lastColon);
    assert SignalLocation(signalID) == NumbersOf(file, startText, lengthText);
    r := NumbersOf(file, startText, lengthText);
  }

  lemma SplitAtColons(id: string, second: int, last: int)
    requires 0 <= second < last < |id| && id[second] == id[last] == ':'
    requires NoneIn(id, ':', last + 1, |id|) && NoneIn(id, ':', second + 1, last)
    ensures SignalLocation(id) == NumbersOf(id[..second], id[second + 1..last], id[last + 1..])
  {
    LastIndexOfIs(id, ':', last);
    LastIndexOfIs(id[..last], ':', second);
    SliceOfTake(id, last, second);
  }

  lemma SliceOfTake(s: string, n: nat, i: nat)
    requires i < n <= |s|
    ensures s[..n][..i] == s[..i] && s[..n][i + 1..] == s[i + 1..n]
  {
  }

  lemma TooFewColons(id: string, only: int)
    requires -1 <= only < |id| && (only >= 0 ==> id[only] == ':')
    requires NoneIn(id, ':', only + 1, |id|) && (only >= 0 ==> NoneIn(id, ':', 0, only))
    ensures SignalLocation(id) == Err(TooFewParts)
  {
    LastIndexOfIs(id, ':', only);
    if only >= 0 {
      LastIndexOfIs(id[..only], ':', -1);
    }
  }

  lemma LastIndexOfSuffix(prefix: string, suffix: string, c: char)
    requires c !in suffix
    ensures LastIndexOf(prefix + [c] + suffix, c) == |prefix|
  {
    LastIndexOfIs(prefix + [c] + suffix, c, |prefix|);
  }

  /** Parsing a formatted ID gives the point back, whatever the file name contains. */
  lemma SignalIDRoundTrip(file: string, startPos: nat, length: nat)
    requires startPos <= MAX_INT && length <= MAX_INT
    ensures SignalLocation(FormatSignalID(file, startPos, length)) == Ok(Location(file, startPos, length))
  {
    var a, b := NatToString(startPos), NatToString(length);
    var id := FormatSignalID(file, startPos, length);
    var head := file + ":" + a;
    assert id == head + [':'] + b;
    LastIndexOfSuffix(head, b, ':');
    assert id[..|head|] == head == file + [':'] + a;
    LastIndexOfSuffix(file, a, ':');
    assert head[..|file|] == file && head[|file| + 1..] == a && id[|head| + 1..] == b;
    AtoiOfNat(startPos);
    AtoiOfNat(length);
  }

  /** Three parts: the last two are numbers that are not negative, or the first one that is not gives the error. */
  lemma PartsOfID(file: string, startText: string, lengthText: string)
    requires ':' !in startText && ':' !in lengthText
    ensures SignalLocation(file + ":" + startText + ":" + lengthText)
            == match (Atoi(startText), Atoi(lengthText))
               case (None, _) => Err(BadStart)
               case (Some(_), None) => Err(BadLength)
               case (Some(start), Some(length)) =>
                 if start < 0 then Err(NegativeStart)
                 else if length < 0 then Err(NegativeLength) else Ok(Location(file, start, length))
  {
    var id, head := file + ":" + startText + ":" + lengthText, file + ":" + startText;
    assert id == head + [':'] + lengthText && head == file + [':'] + startText;
    LastIndexOfSuffix(head, lengthText, ':');
    LastIndexOfSuffix(file, startText, ':');
    hide LastIndexOf, Atoi;
    assert id[..|head|] == head && id[|head| + 1..] == lengthText;
    assert head[..|file|] == file && head[|file| + 1..] == startText;
  }

  /** Fewer than two colons are too few. */
  lemma OnePart(id: string)
    requires forall i, j :: 0 <= i < j < |id| && id[i] == ':' ==> id[j] != ':'
    ensures SignalLocation(id) == Err(TooFewParts)
  {
    var last := LastIndexOf(id, ':');
    if last >= 0 {
      LastIndexFound(id, ':');
      LastIndexOfIs(id[..last], ':', -1);
    }
  }

  lemma {:induction false} LastIndexFound(s: string, c: char)
    requires LastIndexOf(s, c) >= 0
    ensures s[LastIndexOf(s, c)] == c
  {
    if s != "" && s[|s| - 1] != c {
      LastIndexFound(s[..|s| - 1], c);
    }
  }

  /** Two points with the same ID are the same point. */
  lemma SignalIDInjective(f1: string, s1: nat, l1: nat, f2: string, s2: nat, l2: nat)
    requires s1 <= MAX_INT && l1 <= MAX_INT && s2 <= MAX_INT && l2 <= MAX_INT
    requires FormatSignalID(f1, s1, l1) == FormatSignalID(f2, s2, l2)
    ensures f1 == f2 && s1 == s2 && l1 == l2
  {
    SignalIDRoundTrip(f1, s1, l1);
    SignalIDRoundTrip(f2, s2, l2);
  }

  // ----- position keys -----

  /** `formatPositionKey`: startPos:length. */
  function FormatPositionKey(startPos: int, length: int): string {
    IntToString(startPos) + ":" + IntToString(length)
  }

  function IndexOf(s: string, c: char): (i: int)
    ensures -1 <= i < |s|
    ensures i >= 0 ==> s[i] == c && forall k :: 0 <= k < i ==> s[k] != c
    ensures i < 0 ==> c !in s
  {
    if s == "" then -1
    else if s[0] == c then 0
    else
      var r := IndexOf(s[1..], c);
      assert c in s ==> c in s[1..];
      if r < 0 then -1 else r + 1
  }

  /** `ParsePositionKey`: cut at the first colon, both halves complete non-negative integers. */
  function ParsePositionKey(key: string): Option<(nat, nat)> {
    var i := IndexOf(key, ':');
    if i < 0 then None else
    match (Atoi(key[..i]), Atoi(key[i + 1..]))
    case (Some(start), Some(length)) => if start < 0 || length < 0 then None else Some((start, length))
    case _ => None
  }

  lemma PositionKeyRoundTrip(startPos: nat, length: nat)
    requires startPos <= MAX_INT && length <= MAX_INT
    ensures ParsePositionKey(FormatPositionKey(startPos, length)) == Some((startPos, length))
  {
    hide IndexOf, NatToString, Atoi;
    var a, b := NatToString(startPos), NatToString(length);
    NumeralHasNo(startPos, ':');
    CutAtColon(a, b);
    AtoiOfNat(startPos);
    AtoiOfNat(length);
  }

  /** A key is cut at its first colon; both parts are numbers that are not negative, or it is no key. */
  lemma PartsOfKey(a: string, b: string)
    requires ':' !in a
    ensures ParsePositionKey(a) == None
    ensures ParsePositionKey(a + ":" + b)
            == match (Atoi(a), Atoi(b))
               case (Some(start), Some(length)) => if start < 0 || length < 0 then None else Some((start, length))
               case _ => None
  {
    hide Atoi, IndexOf;
    CutAtColon(a, b);
  }

  lemma CutAtColon(a: string, b: string)
    requires ':' !in a
    ensures var key := a + ":" + b; IndexOf(key, ':') == |a| && key[..|a|] == a && key[|a| + 1..] == b
  {
    hide IndexOf;
    var key := a + ":" + b;
    assert key[|a|] == ':';
    assert forall k :: 0 <= k < |a| ==> key[k] == a[k] && key[k] != ':';
  }

  // ----- SQL string literals (PostgreSQL documentation, section 4.1.2.1) -----

  /** `strings.ReplaceAll(s, "'", "''")`. */
  function DoubleQuotes(s: string): string {
    if s == "" then ""
    else (if s[0] == '\'' then "''" else [s[0]]) + DoubleQuotes(s[1..])
  }

  datatype Literal = Literal(content: string, rest: string)

  /** How PostgreSQL reads a literal, starting after its opening quote: a doubled quote stands for one
      quote, a lone one ends the literal. */
  function ReadLiteral(s: string): Option<Literal> {
    if s == "" then None
    else if s[0] != '\'' then
      match ReadLiteral(s[1..])
      case None => None
      case Some(l) => Some(Literal([s[0]] + l.content, l.rest))
    else if |s| > 1 && s[1] == '\'' then
      match ReadLiteral(s[2..])
      case None => None
      case Some(l) => Some(Literal("'" + l.content, l.rest))
    else Some(Literal("", s[1..]))
  }

  lemma {:induction false} ReadDoubled(s: string, rest: string)
    requires rest == "" || rest[0] != '\''
    ensures ReadLiteral(DoubleQuotes(s) + "'" + rest) == Some(Literal(s, rest))
  {
    var t := DoubleQuotes(s) + "'" + rest;
    if s == "" {
      assert t[1..] == rest;
    } else {
      ReadDoubled(s[1..], rest);
      var tail := DoubleQuotes(s[1..]) + "'" + rest;
      if s[0] == '\'' {
        assert t[0] == t[1] == '\'' && t[2..] == tail;
      } else {
        assert t[0] == s[0] && t[1..] == tail;
      }
      assert [s[0]] + s[1..] == s;
    }
  }

  /** Whatever is read came from its own doubled form. */
  lemma {:induction false} ReadIsDoubled(t: string)
    requires ReadLiteral(t).Some?
    ensures var l := ReadLiteral(t).value;
            t == DoubleQuotes(l.content) + "'" + l.rest && (l.rest == "" || l.rest[0] != '\'')
  {
    var l := ReadLiteral(t).value;
    if t[0] != '\'' {
      ReadIsDoubled(t[1..]);
      assert l.content[1..] == ReadLiteral(t[1..]).value.content;
      assert t == [t[0]] + t[1..];
    } else if |t| > 1 && t[1] == '\'' {
      ReadIsDoubled(t[2..]);
      assert l.content[1..] == ReadLiteral(t[2..]).value.content;
      assert t == "''" + t[2..];
    } else {
      assert t == "'" + t[1..];
    }
  }

  function StripPrefix(prefix: string, s: string): Option<string> {
    if prefix <= s then Some(s[|prefix|..]) else None
  }

  const EXECUTE_OPEN := "EXECUTE '"
  const NOTIFY_OPEN := "SELECT pg_notify('"
  const NOTIFY_SEP := ", '"

  /** The call both signal forms carry, with the signal ID quoted once. */
  function NotifyCall(channel: string, signalID: string): string {
    NOTIFY_OPEN + channel + "', '" + DoubleQuotes(signalID) + "')"
  }

  /** `plpgsqlSignal`. */
  function PlpgsqlSignal(channel: string, signalID: string): string {
    EXECUTE_OPEN + DoubleQuotes(NotifyCall(channel, signalID)) + "';"
  }

  /** The leading statement used in SQL-language functions. */
  function SqlSignal(channel: string, signalID: string): string {
    NotifyCall(channel, signalID) + ";"
  }

  datatype Notification = Notification(channel: string, payload: string)

  /** What the server does with the query text: read both literal arguments of pg_notify. */
  function DecodeNotify(query: string): Option<Notification> {
    match StripPrefix(NOTIFY_OPEN, query)
    case None => None
    case Some(a) =>
      match ReadLiteral(a)
      case None => None
      case Some(channel) =>
        match StripPrefix(NOTIFY_SEP, channel.rest)
        case None => None
        case Some(b) =>
          match ReadLiteral(b)
          case None => None
          case Some(payload) =>
            if payload.rest == ")" then Some(Notification(channel.content, payload.content)) else None
  }

  /** What PL/pgSQL does with the injected statement: read the EXECUTE literal, then run it as a query. */
  function DecodeExecute(statement: string): Option<Notification> {
    match StripPrefix(EXECUTE_OPEN, statement)
    case None => None
    case Some(a) =>
      match ReadLiteral(a)
      case None => None
      case Some(query) => if query.rest == ";" then DecodeNotify(query.content) else None
  }

  lemma {:induction false} DoubleQuotesPlain(s: string)
    requires '\'' !in s
    ensures DoubleQuotes(s) == s
  {
    if s != "" {
      DoubleQuotesPlain(s[1..]);
      assert s == [s[0]] + s[1..];
    }
  }

  lemma ReadArguments(channel: string, signalID: string)
    requires '\'' !in channel
    ensures DecodeNotify(NotifyCall(channel, signalID)) == Some(Notification(channel, signalID))
  {
    var call := NotifyCall(channel, signalID);
    var b := DoubleQuotes(signalID) + "'" + ")";
    var a := channel + "'" + (NOTIFY_SEP + b);
    assert call[|NOTIFY_OPEN|..] == a;
    DoubleQuotesPlain(channel);
    ReadDoubled(channel, NOTIFY_SEP + b);
    assert (NOTIFY_SEP + b)[|NOTIFY_SEP|..] == b;
    ReadDoubled(signalID, ")");
  }

  /** The doubled form of a text with a quote in it is never that text followed by the closing quote. */
  lemma {:induction false} NeverSelfDoubled(text: string, extra: nat, x: string, y: string)
    requires text + "', " + x == seq(extra, i => '\'') + DoubleQuotes(text) + "'" + y
    ensures extra == 0 && '\'' !in text
    decreases |text|
  {
    var lhs := text + "', " + x;
    var rhs := seq(extra, i => '\'') + DoubleQuotes(text) + "'" + y;
    if text == "" {
      assert rhs[1] == lhs[1] == ',';
    } else if text[0] == '\'' {
      var more := seq(extra + 1, i => '\'');
      assert lhs[1..] == text[1..] + "', " + x;
      assert rhs[1..] == more + DoubleQuotes(text[1..]) + "'" + y by {
        assert seq(extra, i => '\'') + "''" == ['\''] + more;
        assert rhs == ['\''] + (more + DoubleQuotes(text[1..]) + "'" + y);
      }
      NeverSelfDoubled(text[1..], extra + 1, x, y);
    } else {
      assert rhs[0] == lhs[0] == text[0];
      assert extra == 0;
      assert rhs == DoubleQuotes(text) + "'" + y;
      assert lhs[1..] == text[1..] + "', " + x;
      assert rhs[1..] == seq(0, i => '\'') + DoubleQuotes(text[1..]) + "'" + y;
      NeverSelfDoubled(text[1..], 0, x, y);
    }
  }

  /** The injected PL/pgSQL statement notifies exactly (channel, signalID), for every signal ID, if and
      only if the channel name has no quote - the caller's identifier-safe contract. */
  lemma ExecuteRoundTrip(channel: string, signalID: string)
    ensures DecodeExecute(PlpgsqlSignal(channel, signalID)) == Some(Notification(channel, signalID))
            <==> '\'' !in channel
  {
    var call := NotifyCall(channel, signalID);
    var statement := PlpgsqlSignal(channel, signalID);
    assert statement[|EXECUTE_OPEN|..] == DoubleQuotes(call) + "'" + ";";
    ReadDoubled(call, ";");
    assert DecodeExecute(statement) == DecodeNotify(call);
    NotifyRoundTrip(channel, signalID);
  }

  /** The same for the statement injected into SQL-language functions. */
  lemma NotifyRoundTrip(channel: string, signalID: string)
    ensures DecodeNotify(NotifyCall(channel, signalID)) == Some(Notification(channel, signalID))
            <==> '\'' !in channel
  {
    if '\'' !in channel {
      ReadArguments(channel, signalID);
    } else if DecodeNotify(NotifyCall(channel, signalID)) == Some(Notification(channel, signalID)) {
      QuotedChannel(channel, signalID);
    }
  }

  lemma QuotedChannel(channel: string, signalID: string)
    requires DecodeNotify(NotifyCall(channel, signalID)) == Some(Notification(channel, signalID))
    ensures '\'' !in channel
  {
    hide ReadLiteral;
    var call := NotifyCall(channel, signalID);
    var a := call[|NOTIFY_OPEN|..];
    var x := "'" + DoubleQuotes(signalID) + "')";
    assert a == channel + "', " + x;
    ReadIsDoubled(a);
    var l := ReadLiteral(a).value;
    assert a == seq(0, i => '\'') + DoubleQuotes(channel) + "'" + l.rest;
    NeverSelfDoubled(channel, 0, x, l.rest);
  }

  /** From the injected text back to the coverage point: decode both literals, then parse the payload. */
  lemma SignalEndToEnd(channel: string, file: string, startPos: nat, length: nat)
    requires '\'' !in channel && startPos <= MAX_INT && length <= MAX_INT
    ensures var id := FormatSignalID(file, startPos, length);
            var n := DecodeExecute(PlpgsqlSignal(channel, id));
            && n == Some(Notification(channel, id))
            && SignalLocation(n.value.payload) == Ok(Location(file, startPos, length))
  {
    ExecuteRoundTrip(channel, FormatSignalID(file, startPos, length));
    SignalIDRoundTrip(file, startPos, length);
  }
}
