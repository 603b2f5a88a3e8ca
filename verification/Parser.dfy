/** internal/parser/parse.go: statements, their place in the source, and the bodies of functions. */
module Parser {
  import opened Basics
  import opened Segmentation
  import opened Tokens

  datatype StatementType = StmtUnknown | StmtFunction | StmtProcedure | StmtTrigger | StmtView | StmtDO | StmtOther

  datatype Statement = Statement(
    rawSQL: string, startPos: nat, startLine: nat, endLine: nat, stmtType: StatementType,
    language: string, body: string, bodyStart: int)

  // ----- string constants -----

  function FirstIndex(s: string, c: char): (i: int)
    ensures -1 <= i < |s|
    ensures i >= 0 ==> s[i] == c && forall k :: 0 <= k < i ==> s[k] != c
    ensures i < 0 ==> forall k :: 0 <= k < |s| ==> s[k] != c
  {
    if s == "" then -1
    else if s[0] == c then 0
    else var r := FirstIndex(s[1..], c);
         if r < 0 then -1 else r + 1
  }

  /** Length of the opening $tag$ of a dollar-quoted constant, both dollars included. */
  function DollarLen(text: string): (r: Option<nat>)
    ensures r.Some? ==> 2 <= r.value <= |text| && text[0] == '$' && text[r.value - 1] == '$'
  {
    if text != "" && text[0] == '$' then
      var e := FirstIndex(text[1..], '$');
      if e >= 0 then Some(e + 2) else None
    else None
  }

  predicate HasSuffix(s: string, suffix: string) {
    |suffix| <= |s| && s[|s| - |suffix|..] == suffix
  }

  predicate EscapeForm(text: string) {
    |text| >= 2 && (text[0] == 'E' || text[0] == 'e') && text[1] == '\''
  }

  /** `unquoteString`. */
  function UnquoteString(text: string): string {
    if text != "" && text[0] == '$' then
      match DollarLen(text)
      case Some(n) =>
        if HasSuffix(text[n..], text[..n]) then text[n..|text| - n] else text
      case None => text
    else if |text| >= 3 && EscapeForm(text) then text[2..|text| - 1]
    else if |text| >= 2 && text[0] == '\'' && text[|text| - 1] == '\'' then text[1..|text| - 1]
    else text
  }

  /** `bodyDelimiterLen`. */
  function BodyDelimiterLen(text: string): nat {
    if DollarLen(text).Some? then DollarLen(text).value
    else if EscapeForm(text) then 2
    else if text != "" && text[0] == '\'' then 1
    else 0
  }

  /** The unquoted body really is the text found behind the opening delimiter. */
  predicate InPlace(text: string) {
    var d, body := BodyDelimiterLen(text), UnquoteString(text);
    d + |body| <= |text| && text[d..d + |body|] == body
  }

  /** The constant has room for both delimiters, and ends with the closing one where that is looked at. */
  predicate Closed(text: string) {
    match DollarLen(text)
    case Some(n) => |text| >= 2 * n && HasSuffix(text, text[..n])
    case None =>
      if EscapeForm(text) then |text| >= 3
      else text != "" && text[0] == '\'' ==> |text| >= 2 && text[|text| - 1] == '\''
  }

  lemma DollarAgrees(text: string)
    requires DollarLen(text).Some?
    ensures InPlace(text) <==> Closed(text)
  {
    var n := DollarLen(text).value;
    var inner, delim := text[n..], text[..n];
    if |text| >= 2 * n {
      assert inner[|inner| - n..] == text[|text| - n..];
    }
    if !HasSuffix(inner, delim) {
      assert UnquoteString(text) == text;
    } else {
      assert UnquoteString(text) == text[n..|text| - n];
    }
  }

  /** `unquoteString` and `bodyDelimiterLen` agree on exactly the closed constants. */
  lemma DelimiterAgreesWithBody(text: string)
    ensures InPlace(text) <==> Closed(text)
  {
    if DollarLen(text).Some? {
      DollarAgrees(text);
    } else if text != "" && text[0] == '$' {
      assert UnquoteString(text) == text;
    }
  }

  /** The three spellings of a constant: the text between its delimiters, and how long the opening one is. */
  lemma UnquotedIs(tag: string, inner: string, e: char)
    requires '$' !in tag && (e == 'E' || e == 'e')
    ensures var text := "$" + tag + "$" + inner + "$" + tag + "$";
            UnquoteString(text) == inner && BodyDelimiterLen(text) == |tag| + 2
    ensures UnquoteString([e] + "'" + inner + "'") == inner && BodyDelimiterLen([e] + "'" + inner + "'") == 2
    ensures UnquoteString("'" + inner + "'") == inner && BodyDelimiterLen("'" + inner + "'") == 1
  {
    DollarUnquoted(tag, inner);
    var escaped, plain := [e] + "'" + inner + "'", "'" + inner + "'";
    assert DollarLen(escaped).None? && DollarLen(plain).None?;
    assert escaped[2..|escaped| - 1] == inner && plain[1..|plain| - 1] == inner;
  }

  lemma DollarUnquoted(tag: string, inner: string)
    requires '$' !in tag
    ensures var text := "$" + tag + "$" + inner + "$" + tag + "$";
            UnquoteString(text) == inner && BodyDelimiterLen(text) == |tag| + 2
  {
    var delim, text := "$" + tag + "$", "$" + tag + "$" + inner + "$" + tag + "$";
    assert text == delim + (inner + delim);
    FirstDollar(tag, inner + delim);
    SplitAt(delim, inner + delim);
    SplitAt(inner, delim);
    DollarParts(text, inner, delim);
  }

  lemma SplitAt(a: string, b: string)
    ensures (a + b)[..|a|] == a && (a + b)[|a|..] == b
  {
  }

  lemma FirstDollar(tag: string, behind: string)
    requires '$' !in tag
    ensures DollarLen("$" + tag + "$" + behind) == Some(|tag| + 2)
  {
    var rest := ("$" + tag + "$" + behind)[1..];
    assert rest == tag + ("$" + behind);
    assert rest[|tag|] == '$' && forall k :: 0 <= k < |tag| ==> rest[k] == tag[k];
  }

  lemma DollarParts(text: string, inner: string, delim: string)
    requires DollarLen(text) == Some(|delim|) && text == delim + (inner + delim)
    requires text[|delim|..] == inner + delim && (inner + delim)[|inner|..] == delim
    ensures UnquoteString(text) == inner && BodyDelimiterLen(text) == |delim|
  {
    var n := |delim|;
    assert text[..n] == delim && HasSuffix(text[n..], delim);
    assert text[n..|text| - n] == (inner + delim)[..|inner|] == inner;
  }

  // ----- classification -----

  function ToLower(c: char): char {
    if 'A' <= c <= 'Z' then (c as int + 32) as char else c
  }

  predicate EqualFold(a: string, b: string) {
    if a == "" || b == "" then a == b
    else ToLower(a[0]) == ToLower(b[0]) && EqualFold(a[1..], b[1..])
  }

  /** Equal, or the two cases of one letter. */
  predicate SameLetter(a: char, b: char) {
    || a == b
    || ('A' <= a <= 'Z' && b as int == a as int + 32)
    || ('A' <= b <= 'Z' && a as int == b as int + 32)
  }

  lemma {:induction false} EqualFoldIs(a: string, b: string)
    ensures EqualFold(a, b) <==> |a| == |b| && forall k :: 0 <= k < |a| ==> SameLetter(a[k], b[k])
    decreases |a|
  {
    if a != "" && b != "" {
      EqualFoldIs(a[1..], b[1..]);
      assert a == [a[0]] + a[1..] && b == [b[0]] + b[1..];
    }
  }

  predicate IsIdent(t: Token, word: string) {
    EqualFold(t.text, word)
  }

  /** The tokens begin with these words, in any case. */
  predicate OpensWith(toks: seq<Token>, words: seq<string>) {
    |words| <= |toks| && forall k :: 0 <= k < |words| ==> IsIdent(toks[k], words[k])
  }

  /** CREATE [OR [REPLACE]] and the word. */
  predicate Creates(toks: seq<Token>, what: string) {
    || OpensWith(toks, ["CREATE", what])
    || OpensWith(toks, ["CREATE", "OR", what])
    || OpensWith(toks, ["CREATE", "OR", "REPLACE", what])
  }

  function ClassifyTokens(toks: seq<Token>): StatementType {
    if toks == [] then StmtUnknown
    else if IsIdent(toks[0], "DO") then StmtDO
    else if !IsIdent(toks[0], "CREATE") then StmtOther
    else
      var i := if 1 < |toks| && IsIdent(toks[1], "OR")
               then (if 2 < |toks| && IsIdent(toks[2], "REPLACE") then 3 else 2)
               else 1;
      if i >= |toks| then StmtOther
      else if IsIdent(toks[i], "FUNCTION") then StmtFunction
      else if IsIdent(toks[i], "PROCEDURE") then StmtProcedure
      else if IsIdent(toks[i], "TRIGGER") then StmtTrigger
      else if IsIdent(toks[i], "VIEW") then StmtView
      else StmtOther
  }

  /** One token is not two different words. */
  lemma OneWord(t: Token, a: string, b: string)
    requires IsIdent(t, a) && IsIdent(t, b)
    ensures |a| == |b| && (a != "" ==> SameLetter(a[0], t.text[0]) && SameLetter(b[0], t.text[0]))
  {
    EqualFoldIs(t.text, a);
    EqualFoldIs(t.text, b);
  }

  lemma OtherWords(t: Token)
    ensures !(IsIdent(t, "DO") && IsIdent(t, "CREATE"))
    ensures !(IsIdent(t, "OR") && Kindred(t)) && !(IsIdent(t, "REPLACE") && Kindred(t))
    ensures IsIdent(t, "FUNCTION") ==> !IsIdent(t, "PROCEDURE") && !IsIdent(t, "TRIGGER") && !IsIdent(t, "VIEW")
    ensures IsIdent(t, "PROCEDURE") ==> !IsIdent(t, "TRIGGER") && !IsIdent(t, "VIEW")
    ensures !(IsIdent(t, "TRIGGER") && IsIdent(t, "VIEW"))
  {
    hide EqualFold;
    EqualFoldIs(t.text, "DO");
    EqualFoldIs(t.text, "CREATE");
    EqualFoldIs(t.text, "OR");
    EqualFoldIs(t.text, "REPLACE");
    EqualFoldIs(t.text, "FUNCTION");
    EqualFoldIs(t.text, "PROCEDURE");
    EqualFoldIs(t.text, "TRIGGER");
    EqualFoldIs(t.text, "VIEW");
    if IsIdent(t, "REPLACE") && IsIdent(t, "TRIGGER") {
      OneWord(t, "REPLACE", "TRIGGER");
    }
  }

  predicate Kindred(t: Token) {
    IsIdent(t, "FUNCTION") || IsIdent(t, "PROCEDURE") || IsIdent(t, "TRIGGER") || IsIdent(t, "VIEW")
  }

  /** The type of a statement is told by its first words. */
  lemma ClassifiedBy(toks: seq<Token>)
    ensures var t := ClassifyTokens(toks);
            && (t == StmtUnknown <==> toks == [])
            && (t == StmtDO <==> OpensWith(toks, ["DO"]))
            && (t == StmtFunction <==> Creates(toks, "FUNCTION"))
            && (t == StmtProcedure <==> Creates(toks, "PROCEDURE"))
            && (t == StmtTrigger <==> Creates(toks, "TRIGGER"))
            && (t == StmtView <==> Creates(toks, "VIEW"))
  {
    hide EqualFold, IsIdent;
    if |toks| > 0 { OtherWords(toks[0]); }
    if |toks| > 1 { OtherWords(toks[1]); }
    if |toks| > 2 { OtherWords(toks[2]); }
    if |toks| > 3 { OtherWords(toks[3]); }
    CreatesIs(toks, "FUNCTION");
    CreatesIs(toks, "PROCEDURE");
    CreatesIs(toks, "TRIGGER");
    CreatesIs(toks, "VIEW");
  }

  lemma CreatesIs(toks: seq<Token>, what: string)
    ensures Creates(toks, what)
            <==> && 1 < |toks| && IsIdent(toks[0], "CREATE")
                 && (|| IsIdent(toks[1], what)
                     || (IsIdent(toks[1], "OR") && 2 < |toks|
                         && (IsIdent(toks[2], what)
                             || (IsIdent(toks[2], "REPLACE") && 3 < |toks| && IsIdent(toks[3], what)))))
  {
    hide IsIdent;
    OpensWithIs(toks, ["CREATE", what]);
    OpensWithIs(toks, ["CREATE", "OR", what]);
    OpensWithIs(toks, ["CREATE", "OR", "REPLACE", what]);
  }

  lemma OpensWithIs(toks: seq<Token>, words: seq<string>)
    requires 2 <= |words| <= 4
    ensures OpensWith(toks, words)
            <==> && |words| <= |toks| && IsIdent(toks[0], words[0]) && IsIdent(toks[1], words[1])
                 && (2 < |words| ==> IsIdent(toks[2], words[2])) && (3 < |words| ==> IsIdent(toks[3], words[3]))
  {
    hide IsIdent;
  }

  predicate IsQuoteMark(c: char) {
    c == '\'' || c == '"'
  }

  function TrimQuoteMarks(s: string): string {
    if s != "" && IsQuoteMark(s[0]) then TrimQuoteMarks(s[1..])
    else if s != "" && IsQuoteMark(s[|s| - 1]) then TrimQuoteMarks(s[..|s| - 1])
    else s
  }

  function LanguageName(t: Token): string {
    var s := TrimQuoteMarks(t.text);
    seq(|s|, k requires 0 <= k < |s| => ToLower(s[k]))
  }

  /** The name without the quote marks around it, in lower case. */
  lemma LanguageNameIs(t: Token, from: nat, end: nat)
    requires from <= end <= |t.text|
    requires forall k :: 0 <= k < |t.text| && !(from <= k < end) ==> t.text[k] == '\'' || t.text[k] == '"'
    requires from < end ==> !IsQuoteMark(t.text[from]) && !IsQuoteMark(t.text[end - 1])
    ensures |LanguageName(t)| == end - from
    ensures forall k :: 0 <= k < end - from ==>
              var c := t.text[from + k];
              LanguageName(t)[k] as int == if 'A' <= c <= 'Z' then c as int + 32 else c as int
  {
    Trimmed(t.text, from, end);
  }

  lemma {:induction false} Trimmed(s: string, from: nat, end: nat)
    requires from <= end <= |s|
    requires forall k :: 0 <= k < |s| && !(from <= k < end) ==> IsQuoteMark(s[k])
    requires from < end ==> !IsQuoteMark(s[from]) && !IsQuoteMark(s[end - 1])
    ensures TrimQuoteMarks(s) == s[from..end]
    decreases |s|
  {
    if from > 0 {
      Trimmed(s[1..], from - 1, end - 1);
      assert IsQuoteMark(s[0]) && s[1..][from - 1..end - 1] == s[from..end];
    } else if end < |s| && IsQuoteMark(s[0]) {
      Trimmed(s[1..], 0, 0);
    } else if end < |s| {
      Trimmed(s[..|s| - 1], 0, end);
      assert IsQuoteMark(s[|s| - 1]) && s[..|s| - 1][0..end] == s[0..end];
    } else {
      assert s[0..|s|] == s;
    }
  }

  /** The first `word` at or after `i` is token `k`. */
  predicate FirstIdent(toks: seq<Token>, i: nat, word: string, k: nat) {
    && i <= k < |toks| && IsIdent(toks[k], word)
    && forall j :: i <= j < k ==> !IsIdent(toks[j], word)
  }

  /** The name behind the first LANGUAGE at or after `i`, unless that is the last token. */
  function LanguageFrom(toks: seq<Token>, i: nat): (language: string)
    ensures forall k: nat :: FirstIdent(toks, i, "LANGUAGE", k) ==>
              language == if k + 1 < |toks| then LanguageName(toks[k + 1]) else ""
    ensures (forall k :: i <= k < |toks| ==> !IsIdent(toks[k], "LANGUAGE")) ==> language == ""
    decreases |toks| - i
  {
    if i + 1 >= |toks| then ""
    else if IsIdent(toks[i], "LANGUAGE") then LanguageName(toks[i + 1])
    else
      assert forall k: nat :: FirstIdent(toks, i, "LANGUAGE", k) ==> FirstIdent(toks, i + 1, "LANGUAGE", k);
      LanguageFrom(toks, i + 1)
  }

  method ExtractLanguage(toks: seq<Token>) returns (language: string)
    ensures language == LanguageFrom(toks, 0)
    ensures forall k: nat :: FirstIdent(toks, 0, "LANGUAGE", k) ==>
              language == if k + 1 < |toks| then LanguageName(toks[k + 1]) else ""
    ensures (forall k :: 0 <= k < |toks| ==> !IsIdent(toks[k], "LANGUAGE")) ==> language == ""
  {
    for i := 0 to |toks|
      invariant LanguageFrom(toks, 0) == LanguageFrom(toks, i)
    {
      if i + 1 < |toks| && IsIdent(toks[i], "LANGUAGE") {
        return LanguageName(toks[i + 1]);
      }
    }
    language := "";
  }

  // ----- bodies -----

  /** The string constant right behind an AS, at or after `i`. */
  function BodyTokenAfterAs(toks: seq<Token>, i: nat): (r: Option<nat>)
    ensures r.Some? ==> i < r.value < |toks| && toks[r.value].kind.SConst? && IsIdent(toks[r.value - 1], "AS")
    ensures r.None? ==> forall k :: i <= k < |toks| - 1 ==> !(IsIdent(toks[k], "AS") && toks[k + 1].kind.SConst?)
    ensures r.Some? ==> forall k :: i <= k < r.value - 1 ==> !(IsIdent(toks[k], "AS") && toks[k + 1].kind.SConst?)
    decreases |toks| - i
  {
    if i + 1 >= |toks| then None
    else if IsIdent(toks[i], "AS") && toks[i + 1].kind.SConst? then Some(i + 1)
    else BodyTokenAfterAs(toks, i + 1)
  }

  /** The first string constant at or after `i`. */
  function FirstConst(toks: seq<Token>, i: nat): (r: Option<nat>)
    ensures r.Some? ==> i <= r.value < |toks| && toks[r.value].kind.SConst?
    ensures forall j :: i <= j < (if r.Some? then r.value else |toks|) ==> !toks[j].kind.SConst?
    decreases |toks| - i
  {
    if i >= |toks| then None else if toks[i].kind.SConst? then Some(i) else FirstConst(toks, i + 1)
  }

  predicate NoConst(toks: seq<Token>, i: nat, j: nat)
    requires j <= |toks|
  {
    forall k :: i <= k < j ==> !toks[k].kind.SConst?
  }

  /** No constant between the first DO and token `k`. */
  ghost predicate ConstBehind(toks: seq<Token>, i: nat, k: nat)
    requires k <= |toks|
  {
    exists d: nat :: FirstIdent(toks, i, "DO", d) && d < k && NoConst(toks, d + 1, k)
  }

  /** The first string constant behind the first DO at or after `i`. */
  function BodyTokenAfterDo(toks: seq<Token>, i: nat): (r: Option<nat>)
    ensures r.Some? ==> i < r.value < |toks| && toks[r.value].kind.SConst?
    ensures r.Some? ==> ConstBehind(toks, i, r.value)
    ensures r.None? ==> forall d: nat :: FirstIdent(toks, i, "DO", d) ==> NoConst(toks, d + 1, |toks|)
    decreases |toks| - i
  {
    if i >= |toks| then None
    else if IsIdent(toks[i], "DO") && FirstConst(toks, i + 1).Some? then
      assert FirstIdent(toks, i, "DO", i);
      FirstConst(toks, i + 1)
    else if IsIdent(toks[i], "DO") then
      NoBodyBehind(toks, i);
      var r := BodyTokenAfterDo(toks, i + 1);
      assert r.None?;
      r
    else
      var r := BodyTokenAfterDo(toks, i + 1);
      assert forall d: nat :: FirstIdent(toks, i, "DO", d) == FirstIdent(toks, i + 1, "DO", d);
      assert r.Some? ==> ConstBehind(toks, i, r.value) by {
        if r.Some? {
          assert ConstBehind(toks, i + 1, r.value);
          var d: nat :| FirstIdent(toks, i + 1, "DO", d) && d < r.value && NoConst(toks, d + 1, r.value);
          assert FirstIdent(toks, i, "DO", d);
        }
      }
      r
  }

  lemma NoBodyBehind(toks: seq<Token>, i: nat)
    requires i < |toks| && IsIdent(toks[i], "DO") && FirstConst(toks, i + 1).None?
    ensures NoConst(toks, i + 1, |toks|) && forall d: nat :: FirstIdent(toks, i, "DO", d) ==> d == i
  {
  }

  function BodyOf(toks: seq<Token>, k: Option<nat>, stmtStart: nat): (string, int)
    requires k.Some? ==> k.value < |toks|
  {
    match k
    case None => ("", 0)
    case Some(j) => (UnquoteString(toks[j].text), toks[j].pos - stmtStart + BodyDelimiterLen(toks[j].text))
  }

  method ExtractBody(toks: seq<Token>, stmtStart: nat) returns (body: string, bodyStart: int)
    ensures (body, bodyStart) == BodyOf(toks, BodyTokenAfterAs(toks, 0), stmtStart)
  {
    var i := 0;
    while i + 1 < |toks|
      invariant i <= |toks|
      invariant BodyTokenAfterAs(toks, 0) == BodyTokenAfterAs(toks, i)
    {
      if IsIdent(toks[i], "AS") {
        var next := toks[i + 1];
        if next.kind.SConst? {
          return UnquoteString(next.text), next.pos - stmtStart + BodyDelimiterLen(next.text);
        }
      }
      i := i + 1;
    }
    return "", 0;
  }

  method ExtractDOBody(toks: seq<Token>, stmtStart: nat) returns (body: string, bodyStart: int)
    ensures (body, bodyStart) == BodyOf(toks, BodyTokenAfterDo(toks, 0), stmtStart)
  {
    var i := 0;
    while i < |toks|
      invariant i <= |toks|
      invariant BodyTokenAfterDo(toks, 0) == BodyTokenAfterDo(toks, i)
    {
      if IsIdent(toks[i], "DO") {
        var j := i + 1;
        while j < |toks|
          invariant i < j <= |toks|
          invariant FirstConst(toks, i + 1) == FirstConst(toks, j)
        {
          if toks[j].kind.SConst? {
            return UnquoteString(toks[j].text), toks[j].pos - stmtStart + BodyDelimiterLen(toks[j].text);
          }
          j := j + 1;
        }
      }
      i := i + 1;
    }
    return "", 0;
  }

  // ----- splitting -----

  /** Newlines among the first `n` characters. */
  function Newlines(s: string, n: nat): nat
    requires n <= |s|
  {
    if n == 0 then 0 else Newlines(s, n - 1) + (if s[n - 1] == '\n' then 1 else 0)
  }

  lemma {:induction false} NewlinesCounted(s: string, n: nat)
    requires n <= |s|
    ensures Newlines(s, n) == |set k: nat | k < n && s[k] == '\n'|
  {
    if n > 0 {
      NewlinesCounted(s, n - 1);
      var before, upTo := set k: nat | k < n - 1 && s[k] == '\n', set k: nat | k < n && s[k] == '\n';
      assert upTo == if s[n - 1] == '\n' then before + {n - 1} else before;
    }
  }

  /** `calculateLineNumber`. */
  method CalculateLineNumber(sql: string, offset: int) returns (line: nat)
    ensures offset < 0 ==> line == 1
    ensures 0 <= offset <= |sql| ==> line == 1 + Newlines(sql, offset)
    ensures offset > |sql| ==> line == 1 + Newlines(sql, |sql|)
  {
    if offset < 0 {
      return 1;
    }
    var end := if offset > |sql| then |sql| else offset;
    line := 1;
    var i := 0;
    while i < end
      invariant 0 <= i <= end
      invariant line == 1 + Newlines(sql, i)
    {
      if sql[i] == '\n' {
        line := line + 1;
      }
      i := i + 1;
    }
  }

  function EndOf(t: Token): nat {
    t.pos + |t.text|
  }

  /** Groups of tokens as `pglex.SplitStatements` hands them over: in order and without overlap. Nothing
      is assumed about which group a `;` belongs to. */
  predicate WellGrouped(sql: string, groups: seq<seq<Token>>, n: nat, from: nat)
    requires n <= |groups|
    decreases |groups| - n
  {
    n == |groups| ||
    (groups[n] != [] && WellLexed(sql, groups[n]) && from <= groups[n][0].pos
     && WellGrouped(sql, groups, n + 1, EndOf(groups[n][|groups[n]| - 1])))
  }

  /** The tokens from `n` on, comments left out. */
  function Significant(toks: seq<Token>, n: nat := 0): seq<Token>
    decreases |toks| - n
  {
    if n >= |toks| then []
    else if toks[n].kind.Comment? then Significant(toks, n + 1)
    else [toks[n]] + Significant(toks, n + 1)
  }

  lemma {:induction false} SignificantAre(toks: seq<Token>, n: nat, j: nat)
    requires j < |Significant(toks, n)|
    ensures exists k :: n <= k < |toks| && toks[k] == Significant(toks, n)[j]
    decreases |toks| - n
  {
    if toks[n].kind.Comment? {
      SignificantAre(toks, n + 1, j);
    } else if j > 0 {
      SignificantAre(toks, n + 1, j - 1);
    }
  }

  /** Exactly the comments are left out, and the order stays: that holds of one token and for any two parts. */
  lemma SignificantOfParts(a: seq<Token>, b: seq<Token>, t: Token)
    ensures Significant([]) == [] && Significant([t]) == if t.kind == Comment then [] else [t]
    ensures Significant(a + b) == Significant(a) + Significant(b)
  {
    assert Significant([t], 1) == [];
    SignificantSplit(a, b, 0);
    SignificantFrom(b, a, 0);
  }

  lemma {:induction false} SignificantSplit(a: seq<Token>, b: seq<Token>, n: nat)
    requires n <= |a|
    ensures Significant(a + b, n) == Significant(a, n) + Significant(a + b, |a|)
    decreases |a| - n
  {
    if n < |a| {
      SignificantSplit(a, b, n + 1);
    }
  }

  lemma {:induction false} SignificantFrom(b: seq<Token>, a: seq<Token>, n: nat)
    requires n <= |b|
    ensures Significant(a + b, |a| + n) == Significant(b, n)
    decreases |b| - n
  {
    if n < |b| {
      SignificantFrom(b, a, n + 1);
    }
  }

  predicate HasBody(t: StatementType) {
    t.StmtFunction? || t.StmtProcedure? || t.StmtDO?
  }

  /** The body token of a statement whose significant tokens are `sig`. */
  function BodyToken(sig: seq<Token>): (r: Option<nat>)
    ensures r.Some? ==> r.value < |sig| && sig[r.value].kind.SConst?
  {
    var t := ClassifyTokens(sig);
    if t.StmtFunction? || t.StmtProcedure? then BodyTokenAfterAs(sig, 0)
    else if t.StmtDO? then BodyTokenAfterDo(sig, 0)
    else None
  }

  function LanguageOf(sig: seq<Token>, stmtType: StatementType): string {
    var named := LanguageFrom(sig, 0);
    if !HasBody(stmtType) then ""
    else if stmtType.StmtDO? && named == "" then "plpgsql"
    else named
  }

  lemma GroupSpan(sql: string, group: seq<Token>)
    requires group != [] && WellLexed(sql, group)
    ensures group[0].pos < EndOf(group[|group| - 1]) <= |sql|
  {
    assert TokenFits(sql, group[|group| - 1]);
    OffsetsOrdered(sql, group, 0, |group| - 1);
  }

  /** What `splitAndClassify` records for one group. */
  function StatementOf(sql: string, group: seq<Token>): Statement
    requires group != [] && WellLexed(sql, group)
  {
    GroupSpan(sql, group);
    var sig := Significant(group);
    var first, end := group[0].pos, EndOf(group[|group| - 1]);
    var stmtType := ClassifyTokens(sig);
    var (body, bodyStart) := BodyOf(sig, BodyToken(sig), first);
    Statement(sql[first..end], first, 1 + Newlines(sql, first), 1 + Newlines(sql, end), stmtType,
              LanguageOf(sig, stmtType), body, bodyStart)
  }

  /** The statements of the groups from `n` on; groups of comments only give none. */
  function StatementsFrom(sql: string, groups: seq<seq<Token>>, n: nat, from: nat): seq<Statement>
    requires n <= |groups| && WellGrouped(sql, groups, n, from)
    decreases |groups| - n
  {
    if n == |groups| then []
    else
      var rest := StatementsFrom(sql, groups, n + 1, EndOf(groups[n][|groups[n]| - 1]));
      if Significant(groups[n]) == [] then rest else [StatementOf(sql, groups[n])] + rest
  }

  method SplitAndClassify(sql: string, groups: seq<seq<Token>>) returns (statements: seq<Statement>)
    requires WellGrouped(sql, groups, 0, 0)
    ensures statements == StatementsFrom(sql, groups, 0, 0)
  {
    statements := [];
    ghost var from, all := 0, StatementsFrom(sql, groups, 0, 0);
    for n := 0 to |groups|
      invariant WellGrouped(sql, groups, n, from)
      invariant all == statements + StatementsFrom(sql, groups, n, from)
    {
      var toks := groups[n];
      ghost var next := EndOf(toks[|toks| - 1]);
      ghost var rest := StatementsFrom(sql, groups, n + 1, next);
      var sig := FilterComments(toks);
      if sig != [] {
        var stmt := ClassifyGroup(sql, toks, sig);
        assert StatementsFrom(sql, groups, n, from) == [stmt] + rest;
        ConcatAround(statements, stmt, rest);
        statements := statements + [stmt];
      } else {
        assert StatementsFrom(sql, groups, n, from) == rest;
      }
      from := next;
    }
  }

  predicate HasSignificant(toks: seq<Token>) {
    exists k :: 0 <= k < |toks| && toks[k].kind != Comment
  }

  lemma {:induction false} SomeSignificant(toks: seq<Token>, n: nat)
    ensures Significant(toks, n) != [] <==> exists k :: n <= k < |toks| && toks[k].kind != Comment
    decreases |toks| - n
  {
    if n < |toks| {
      SomeSignificant(toks, n + 1);
    }
  }

  /** Each group that is not comments only gives its statement, and there are no others. */
  lemma {:induction false} StatementsComplete(sql: string, groups: seq<seq<Token>>, n: nat, from: nat)
    requires n <= |groups| && WellGrouped(sql, groups, n, from)
    ensures forall k :: n <= k < |groups| && HasSignificant(groups[k]) ==>
              && groups[k] != [] && WellLexed(sql, groups[k])
              && StatementOf(sql, groups[k]) in StatementsFrom(sql, groups, n, from)
    ensures forall stmt :: stmt in StatementsFrom(sql, groups, n, from) ==>
              exists k :: n <= k < |groups| && groups[k] != [] && WellLexed(sql, groups[k])
                          && HasSignificant(groups[k]) && stmt == StatementOf(sql, groups[k])
    decreases |groups| - n
  {
    hide WellLexed, StatementOf;
    if n < |groups| {
      var next := EndOf(groups[n][|groups[n]| - 1]);
      var rest := StatementsFrom(sql, groups, n + 1, next);
      StatementsComplete(sql, groups, n + 1, next);
      SomeSignificant(groups[n], 0);
      assert HasSignificant(groups[n]) <==> Significant(groups[n]) != [];
      if Significant(groups[n]) != [] {
        assert StatementsFrom(sql, groups, n, from) == [StatementOf(sql, groups[n])] + rest;
      }
    }
  }

  lemma ConcatAround(a: seq<Statement>, x: Statement, b: seq<Statement>)
    ensures a + ([x] + b) == (a + [x]) + b
  {
  }

  method FilterComments(toks: seq<Token>) returns (sig: seq<Token>)
    ensures sig == Significant(toks)
  {
    sig := [];
    for k := 0 to |toks|
      invariant Significant(toks) == sig + Significant(toks, k)
    {
      if !toks[k].kind.Comment? {
        assert sig + ([toks[k]] + Significant(toks, k + 1)) == (sig + [toks[k]]) + Significant(toks, k + 1);
        sig := sig + [toks[k]];
      }
    }
  }

  method ClassifyGroup(sql: string, toks: seq<Token>, sig: seq<Token>) returns (stmt: Statement)
    requires toks != [] && WellLexed(sql, toks) && sig == Significant(toks)
    ensures stmt == StatementOf(sql, toks)
  {
    GroupSpan(sql, toks);
    var firstPos, end := toks[0].pos, EndOf(toks[|toks| - 1]);
    var startLine := CalculateLineNumber(sql, firstPos);
    var endLine := CalculateLineNumber(sql, end);
    var stmtType := ClassifyTokens(sig);
    var language, body, bodyStart := ExtractFunctionParts(sig, stmtType, firstPos);
    stmt := Statement(sql[firstPos..end], firstPos, startLine, endLine, stmtType, language, body, bodyStart);
  }

  method ExtractFunctionParts(sig: seq<Token>, stmtType: StatementType, firstPos: nat)
    returns (language: string, body: string, bodyStart: int)
    requires stmtType == ClassifyTokens(sig)
    ensures language == LanguageOf(sig, stmtType)
    ensures (body, bodyStart) == BodyOf(sig, BodyToken(sig), firstPos)
  {
    language, body, bodyStart := "", "", 0;
    if stmtType.StmtFunction? || stmtType.StmtProcedure? {
      language := ExtractLanguage(sig);
      body, bodyStart := ExtractBody(sig, firstPos);
    } else if stmtType.StmtDO? {
      language := ExtractLanguage(sig);
      if language == "" {
        language := "plpgsql";
      }
      body, bodyStart := ExtractDOBody(sig, firstPos);
    }
  }

  // ----- the fields of a statement -----

  /** The first constant behind an AS is token `k`. */
  predicate FirstBehindAs(sig: seq<Token>, k: nat) {
    && 0 < k < |sig| && sig[k].kind == SConst && IsIdent(sig[k - 1], "AS")
    && forall j :: 0 < j < k && sig[j].kind == SConst ==> !IsIdent(sig[j - 1], "AS")
  }

  /** The first constant behind the first word is token `k`. */
  predicate FirstBehindHead(sig: seq<Token>, k: nat) {
    0 < k < |sig| && sig[k].kind == SConst && forall j :: 0 < j < k ==> sig[j].kind != SConst
  }

  predicate HasConstant(stmt: Statement, t: Token) {
    && stmt.body == UnquoteString(t.text)
    && stmt.bodyStart == t.pos - stmt.startPos + BodyDelimiterLen(t.text)
  }

  predicate NoBody(stmt: Statement) {
    stmt.body == "" && stmt.bodyStart == 0
  }

  /** Where a statement is: the text from its first token to the end of its last one, comments included, and the
      lines of both ends. */
  lemma StatementPlace(sql: string, group: seq<Token>)
    requires group != [] && WellLexed(sql, group)
    ensures var stmt := StatementOf(sql, group);
            && stmt.startPos == group[0].pos < EndOf(group[|group| - 1]) <= |sql|
            && stmt.rawSQL == sql[group[0].pos..EndOf(group[|group| - 1])]
            && stmt.startLine == 1 + |set k: nat | k < stmt.startPos && sql[k] == '\n'|
            && stmt.endLine == 1 + |set k: nat | k < stmt.startPos + |stmt.rawSQL| && sql[k] == '\n'|
  {
    GroupSpan(sql, group);
    NewlinesCounted(sql, group[0].pos);
    NewlinesCounted(sql, EndOf(group[|group| - 1]));
  }

  /** What a function or procedure and a DO block are recorded with, told by the words and constants: the first
      constant behind an AS, or behind DO, is the body; the word behind LANGUAGE names the language, and for a DO
      block without one that is plpgsql. Any other statement has neither. */
  lemma StatementBody(sql: string, group: seq<Token>)
    requires group != [] && WellLexed(sql, group)
    ensures var stmt, sig := StatementOf(sql, group), Significant(group);
            if Creates(sig, "FUNCTION") || Creates(sig, "PROCEDURE") then
              && (forall k: nat :: FirstBehindAs(sig, k) ==> HasConstant(stmt, sig[k]))
              && ((forall k: nat :: !FirstBehindAs(sig, k)) ==> NoBody(stmt))
              && stmt.language == LanguageFrom(sig, 0)
            else if OpensWith(sig, ["DO"]) then
              && (forall k: nat :: FirstBehindHead(sig, k) ==> HasConstant(stmt, sig[k]))
              && ((forall k: nat :: !FirstBehindHead(sig, k)) ==> NoBody(stmt))
              && stmt.language == (if LanguageFrom(sig, 0) == "" then "plpgsql" else LanguageFrom(sig, 0))
            else NoBody(stmt) && stmt.language == ""
  {
    var sig := Significant(group);
    hide WellLexed, Significant, ClassifyTokens, UnquoteString, BodyDelimiterLen, Creates, OpensWith, LanguageFrom;
    ClassifiedBy(sig);
    if Creates(sig, "FUNCTION") || Creates(sig, "PROCEDURE") {
      BehindAs(sig);
    } else if OpensWith(sig, ["DO"]) {
      assert IsIdent(sig[0], "DO") by { FirstWordIs(sig, "DO"); }
      BehindDo(sig);
    }
  }

  lemma FirstWordIs(sig: seq<Token>, word: string)
    requires OpensWith(sig, [word])
    ensures sig != [] && IsIdent(sig[0], word)
  {
  }

  lemma BehindAs(sig: seq<Token>)
    ensures forall k: nat :: FirstBehindAs(sig, k) ==> BodyTokenAfterAs(sig, 0) == Some(k)
    ensures (forall k: nat :: !FirstBehindAs(sig, k)) ==> BodyTokenAfterAs(sig, 0).None?
  {
    hide IsIdent;
    var r := BodyTokenAfterAs(sig, 0);
    forall k: nat | FirstBehindAs(sig, k) ensures r == Some(k) {
      assert IsIdent(sig[k - 1], "AS") && sig[k - 1 + 1].kind.SConst?;
    }
    if r.Some? {
      forall j | 0 < j < r.value && sig[j].kind == SConst ensures !IsIdent(sig[j - 1], "AS") {
        assert sig[j - 1 + 1].kind.SConst?;
      }
      assert FirstBehindAs(sig, r.value);
    }
  }

  lemma BehindDo(sig: seq<Token>)
    requires sig != [] && IsIdent(sig[0], "DO")
    ensures forall k: nat :: FirstBehindHead(sig, k) ==> BodyTokenAfterDo(sig, 0) == Some(k)
    ensures (forall k: nat :: !FirstBehindHead(sig, k)) ==> BodyTokenAfterDo(sig, 0).None?
  {
    hide IsIdent;
    assert FirstIdent(sig, 0, "DO", 0);
    var r := BodyTokenAfterDo(sig, 0);
    if r.Some? {
      assert ConstBehind(sig, 0, r.value);
      assert FirstBehindHead(sig, r.value);
    }
  }

  // ----- what the instrumenter relies on -----

  /** The body is where `bodyStart` says it is. */
  predicate BodyInPlace(stmt: Statement) {
    stmt.body != "" ==>
      0 <= stmt.bodyStart && stmt.bodyStart + |stmt.body| <= |stmt.rawSQL|
      && stmt.rawSQL[stmt.bodyStart..stmt.bodyStart + |stmt.body|] == stmt.body
  }

  predicate SliceOfSource(sql: string, stmt: Statement) {
    0 < |stmt.rawSQL| && stmt.startPos + |stmt.rawSQL| <= |sql|
    && sql[stmt.startPos..stmt.startPos + |stmt.rawSQL|] == stmt.rawSQL
  }

  /** Statements are non-empty slices of the source, in order and disjoint. */
  predicate Laid(sql: string, stmts: seq<Statement>) {
    && (forall k :: 0 <= k < |stmts| ==> SliceOfSource(sql, stmts[k]))
    && (forall j, k :: 0 <= j < k < |stmts| ==> stmts[j].startPos + |stmts[j].rawSQL| <= stmts[k].startPos)
  }

  lemma StatementSpan(sql: string, group: seq<Token>)
    requires group != [] && WellLexed(sql, group)
    ensures var stmt := StatementOf(sql, group);
            stmt.startPos == group[0].pos < EndOf(group[|group| - 1]) <= |sql|
            && stmt.rawSQL == sql[group[0].pos..EndOf(group[|group| - 1])]
  {
    GroupSpan(sql, group);
  }

  predicate StartFrom(stmts: seq<Statement>, pos: nat) {
    forall k :: 0 <= k < |stmts| ==> pos <= stmts[k].startPos
  }

  lemma LaidCons(sql: string, stmt: Statement, rest: seq<Statement>, next: nat, from: nat)
    requires SliceOfSource(sql, stmt) && Laid(sql, rest) && from <= stmt.startPos
    requires stmt.startPos + |stmt.rawSQL| <= next && StartFrom(rest, next)
    ensures Laid(sql, [stmt] + rest) && StartFrom([stmt] + rest, from)
  {
  }

  lemma StartFromEarlier(stmts: seq<Statement>, pos: nat, earlier: nat)
    requires StartFrom(stmts, pos) && earlier <= pos
    ensures StartFrom(stmts, earlier)
  {
  }

  lemma {:induction false} StatementsLaid(sql: string, groups: seq<seq<Token>>, n: nat, from: nat)
    requires n <= |groups| && WellGrouped(sql, groups, n, from)
    ensures Laid(sql, StatementsFrom(sql, groups, n, from))
    ensures StartFrom(StatementsFrom(sql, groups, n, from), from)
    decreases |groups| - n
  {
    if n < |groups| {
      var next := EndOf(groups[n][|groups[n]| - 1]);
      var rest := StatementsFrom(sql, groups, n + 1, next);
      StatementsLaid(sql, groups, n + 1, next);
      StatementSpan(sql, groups[n]);
      if Significant(groups[n]) == [] {
        StartFromEarlier(rest, next, from);
      } else {
        LaidCons(sql, StatementOf(sql, groups[n]), rest, next, from);
      }
    }
  }

  lemma BodyRecorded(sql: string, group: seq<Token>, j: nat)
    requires group != [] && WellLexed(sql, group) && BodyToken(Significant(group)) == Some(j)
    ensures var stmt, t := StatementOf(sql, group), Significant(group)[j];
            && stmt.bodyStart == t.pos - group[0].pos + BodyDelimiterLen(t.text)
            && stmt.body == UnquoteString(t.text)
  {
  }

  /** A statement whose body constant is closed has its body in place. */
  lemma ClosedBodyInPlace(sql: string, group: seq<Token>)
    requires group != [] && WellLexed(sql, group)
    requires var sig := Significant(group);
             BodyToken(sig).Some? ==> Closed(sig[BodyToken(sig).value].text)
    ensures BodyInPlace(StatementOf(sql, group))
  {
    var sig := Significant(group);
    match BodyToken(sig)
    case None =>
    case Some(j) =>
      SignificantInside(sql, group, j);
      DelimiterAgreesWithBody(sig[j].text);
      BodyRecorded(sql, group, j);
      StatementSpan(sql, group);
      var d := BodyDelimiterLen(sig[j].text);
      PlacedBody(StatementOf(sql, group), sql, group[0].pos, EndOf(group[|group| - 1]), sig[j], d);
  }

  lemma SignificantInside(sql: string, group: seq<Token>, j: nat)
    requires group != [] && WellLexed(sql, group) && j < |Significant(group)|
    ensures var t := Significant(group)[j];
            TokenFits(sql, t) && group[0].pos <= t.pos && EndOf(t) <= EndOf(group[|group| - 1]) <= |sql|
  {
    var t := Significant(group)[j];
    SignificantAre(group, 0, j);
    var k :| 0 <= k < |group| && group[k] == t;
    TokenInside(sql, group, k);
  }

  lemma PlacedBody(stmt: Statement, sql: string, first: nat, end: nat, t: Token, d: nat)
    requires TokenFits(sql, t) && first <= t.pos && EndOf(t) <= end <= |sql|
    requires stmt.rawSQL == sql[first..end] && stmt.bodyStart == t.pos - first + d
    requires d + |stmt.body| <= |t.text| && t.text[d..d + |stmt.body|] == stmt.body
    ensures BodyInPlace(stmt)
  {
    PlacedSlice(sql, first, end, t, d, stmt.body);
  }

  lemma PlacedSlice(sql: string, first: nat, end: nat, t: Token, d: nat, body: string)
    requires t.pos + |t.text| <= |sql| && sql[t.pos..t.pos + |t.text|] == t.text
    requires first <= t.pos && EndOf(t) <= end <= |sql|
    requires d + |body| <= |t.text| && t.text[d..d + |body|] == body
    ensures var start := t.pos - first + d; sql[first..end][start..start + |body|] == body
  {
    var start := t.pos - first + d;
    SliceOfSlice(sql, t.pos, t.pos + |t.text|, d, d + |body|);
    SliceOfSlice(sql, first, end, start, start + |body|);
  }

  lemma TokenInside(sql: string, group: seq<Token>, k: nat)
    requires WellLexed(sql, group) && k < |group|
    ensures TokenFits(sql, group[k]) && TokenFits(sql, group[|group| - 1])
    ensures group[0].pos <= group[k].pos && EndOf(group[k]) <= EndOf(group[|group| - 1])
  {
    OffsetsOrdered(sql, group, 0, k);
    if k < |group| - 1 {
      assert group[k].pos + |group[k].text| <= group[|group| - 1].pos;
    }
  }
}
