/** Tokens of the external lexer (github.com/pashagolub/pglex) and what is taken for granted about it. */
module Tokens {
  import opened Segmentation

  datatype Token = Token(kind: Kind, pos: nat, text: string)

  /** The lexer as a function from text to its tokens, end marker left out. */
  type Lexer = string -> seq<Token>

  predicate IsSpace(c: char) {
    c == ' ' || ('\t' <= c <= '\r')
  }

  predicate TokenFits(text: string, t: Token) {
    && 0 < |t.text| && t.pos + |t.text| <= |text|
    && text[t.pos..t.pos + |t.text|] == t.text
    && !IsSpace(t.text[0])
    && (t.kind.Semicolon? ==> t.text == ";")
  }

  /** Tokens are slices of the text, in order and without overlap. */
  predicate WellLexed(text: string, toks: seq<Token>) {
    && (forall k :: 0 <= k < |toks| ==> TokenFits(text, toks[k]))
    && (forall j, k :: 0 <= j < k < |toks| ==> toks[j].pos + |toks[j].text| <= toks[k].pos)
  }

  function Kinds(toks: seq<Token>): (ks: seq<Kind>)
    ensures |ks| == |toks| && forall k :: 0 <= k < |ks| ==> ks[k] == toks[k].kind
  {
    seq(|toks|, k requires 0 <= k < |toks| => toks[k].kind)
  }

  /** Offset of token `k`, or the end of the text behind the last one. */
  function Offset(text: string, toks: seq<Token>, k: nat): nat
    requires k <= |toks|
  {
    if k < |toks| then toks[k].pos else |text|
  }

  lemma OffsetsOrdered(text: string, toks: seq<Token>, j: nat, k: nat)
    requires WellLexed(text, toks) && j <= k <= |toks|
    ensures Offset(text, toks, j) <= Offset(text, toks, k) <= |text|
    ensures j < k ==> Offset(text, toks, j) < Offset(text, toks, k)
  {
    if j < |toks| { assert TokenFits(text, toks[j]); }
    if k < |toks| { assert TokenFits(text, toks[k]); }
  }

  /** Offset behind a segment that ends at token `end`, its `;` included. */
  function OffsetBehind(text: string, toks: seq<Token>, end: nat): nat
    requires end <= |toks|
  {
    if end < |toks| then toks[end].pos + 1 else |text|
  }

  /** `t` is token `s` of a text that was cut at offset `cut`. */
  predicate Shifted(t: Token, s: Token, cut: nat) {
    t.kind == s.kind && t.text == s.text && t.pos + cut == s.pos
  }

  /** `part` is `toks[i..j]` with positions counted from token `i`. */
  predicate Cut(part: seq<Token>, toks: seq<Token>, i: nat, j: nat)
    requires i <= j <= |toks|
  {
    |part| == j - i && forall k :: 0 <= k < j - i ==> Shifted(part[k], toks[i + k], toks[i].pos)
  }

  /** Lexing the slice from token `i` to the next `;` (or the end) gives the tokens in between. */
  predicate SliceLexes(lex: Lexer, text: string, i: nat, j: nat)
    requires WellLexed(text, lex(text)) && i < j <= |lex(text)|
  {
    OffsetsOrdered(text, lex(text), i, j);
    Cut(lex(text[lex(text)[i].pos..Offset(text, lex(text), j)]), lex(text), i, j)
  }

  /** Where segments may end. */
  predicate SegmentEnd(toks: seq<Token>, j: nat) {
    j == |toks| || (j < |toks| && toks[j].kind.Semicolon?)
  }

  /** What the lexer does on one text and its segments. */
  predicate LexesSegments(lex: Lexer, text: string) {
    && WellLexed(text, lex(text))
    && forall i: nat, j: nat :: i < j <= |lex(text)| && SegmentEnd(lex(text), j) ==> SliceLexes(lex, text, i, j)
  }

  /** The contract every use of the lexer below relies on. */
  ghost predicate LexerContract(lex: Lexer) {
    forall text :: LexesSegments(lex, text)
  }

  lemma LexedBody(lex: Lexer, body: string)
    requires LexesSegments(lex, body)
    ensures WellLexed(body, lex(body))
  {
  }

  // ----- the contract can be met -----

  /** A kind for every character; only `;` is a separator. */
  type Letters = f: char -> Kind | forall c :: f(c).Semicolon? <==> c == ';'
    witness (c: char) => if c == ';' then Semicolon else Other

  /** The simplest lexers: every character that is not white space is a token. */
  function Characters(letters: Letters, text: string, from: nat, upTo: nat): (toks: seq<Token>)
    requires from <= upTo <= |text|
    decreases upTo - from
  {
    if from == upTo then []
    else
      var c := text[upTo - 1];
      Characters(letters, text, from, upTo - 1)
      + (if IsSpace(c) then [] else [Token(letters(c), upTo - 1, [c])])
  }

  /** A one-character token between two offsets. */
  predicate SingleCharacter(letters: Letters, text: string, t: Token, from: nat, upTo: nat) {
    && from <= t.pos < upTo <= |text| && t.text == [text[t.pos]] && !IsSpace(text[t.pos])
    && t.kind == letters(text[t.pos])
  }

  /** In order, hence without overlap. */
  predicate InOneRow(letters: Letters, text: string, toks: seq<Token>, from: nat, upTo: nat) {
    && (forall k :: 0 <= k < |toks| ==> SingleCharacter(letters, text, toks[k], from, upTo))
    && (forall j, k :: 0 <= j < k < |toks| ==> toks[j].pos < toks[k].pos)
  }

  lemma OneMoreCharacter(letters: Letters, text: string, init: seq<Token>, from: nat, upTo: nat)
    requires from <= upTo < |text| && InOneRow(letters, text, init, from, upTo)
    ensures InOneRow(letters, text, init, from, upTo + 1)
    ensures var c := text[upTo];
            !IsSpace(c) ==>
              InOneRow(letters, text, init + [Token(letters(c), upTo, [c])], from, upTo + 1)
  {
    forall k | 0 <= k < |init| ensures SingleCharacter(letters, text, init[k], from, upTo + 1) {
      assert SingleCharacter(letters, text, init[k], from, upTo);
    }
  }

  lemma {:induction false} CharactersFit(letters: Letters, text: string, from: nat, upTo: nat)
    requires from <= upTo <= |text|
    ensures InOneRow(letters, text, Characters(letters, text, from, upTo), from, upTo)
    decreases upTo - from
  {
    if from < upTo {
      hide InOneRow;
      CharactersFit(letters, text, from, upTo - 1);
      OneMoreCharacter(letters, text, Characters(letters, text, from, upTo - 1), from, upTo - 1);
      assert Characters(letters, text, from, upTo - 1) + [] == Characters(letters, text, from, upTo - 1);
    }
  }

  lemma {:induction false} CharactersSplit(letters: Letters, text: string, from: nat, mid: nat, upTo: nat)
    requires from <= mid <= upTo <= |text|
    ensures Characters(letters, text, from, upTo)
            == Characters(letters, text, from, mid) + Characters(letters, text, mid, upTo)
    decreases upTo - mid
  {
    if mid < upTo {
      CharactersSplit(letters, text, from, mid, upTo - 1);
    } else {
      assert Characters(letters, text, from, mid) + [] == Characters(letters, text, from, mid);
    }
  }

  predicate AllShifted(part: seq<Token>, whole: seq<Token>, cut: nat) {
    |part| == |whole| && forall k :: 0 <= k < |part| ==> Shifted(part[k], whole[k], cut)
  }

  lemma {:induction false} CharactersOfSlice(letters: Letters, text: string, from: nat, end: nat, upTo: nat)
    requires from <= upTo <= end <= |text|
    ensures AllShifted(Characters(letters, text[from..end], 0, upTo - from), Characters(letters, text, from, upTo),
                       from)
    decreases upTo - from
  {
    if from < upTo {
      CharactersOfSlice(letters, text, from, end, upTo - 1);
      assert text[from..end][upTo - 1 - from] == text[upTo - 1];
    }
  }

  /** The token at index `i` splits the tokens at its position. */
  lemma {:induction false} CharactersBefore(letters: Letters, text: string, upTo: nat, i: nat)
    requires upTo <= |text| && i < |Characters(letters, text, 0, upTo)|
    ensures var pos := Characters(letters, text, 0, upTo)[i].pos; pos < upTo && |Characters(letters, text, 0, pos)| == i
    decreases upTo
  {
    var init := Characters(letters, text, 0, upTo - 1);
    if |init| > i {
      CharactersBefore(letters, text, upTo - 1, i);
    }
  }

  function CharacterLexer(letters: Letters): Lexer {
    (text: string) => Characters(letters, text, 0, |text|)
  }

  lemma CharactersBetween(letters: Letters, text: string, i: nat, j: nat)
    requires i < j <= |Characters(letters, text, 0, |text|)|
    ensures var toks := Characters(letters, text, 0, |text|);
            var p, e := toks[i].pos, Offset(text, toks, j);
            && p <= e <= |text| && AllShifted(Characters(letters, text[p..e], 0, e - p), toks[i..j], p)
  {
    var n, toks := |text|, Characters(letters, text, 0, |text|);
    var p, e := toks[i].pos, Offset(text, toks, j);
    CharactersFit(letters, text, 0, n);
    CharactersBefore(letters, text, n, i);
    if j < |toks| { CharactersBefore(letters, text, n, j); }
    CharactersSplit(letters, text, 0, p, n);
    CharactersSplit(letters, text, p, e, n);
    CharactersSplit(letters, text, 0, e, n);
    CharactersSplit(letters, text, 0, p, e);
    var a, b, c := Characters(letters, text, 0, p), Characters(letters, text, p, e), Characters(letters, text, e, n);
    assert |a| == i && |a + b| == j;
    assert toks == a + b + c && toks[i..j] == b;
    CharactersOfSlice(letters, text, p, e, e);
  }

  lemma RowIsLexed(letters: Letters, text: string, toks: seq<Token>)
    requires InOneRow(letters, text, toks, 0, |text|)
    ensures WellLexed(text, toks)
  {
    forall k | 0 <= k < |toks| ensures TokenFits(text, toks[k]) && |toks[k].text| == 1 {
      assert SingleCharacter(letters, text, toks[k], 0, |text|);
    }
  }

  /** There are lexers that meet the contract. */
  lemma ContractCanBeMet(letters: Letters)
    ensures LexerContract(CharacterLexer(letters))
  {
    hide Characters, WellLexed, Offset, InOneRow;
    var lex := CharacterLexer(letters);
    forall text ensures LexesSegments(lex, text) {
      CharactersFit(letters, text, 0, |text|);
      RowIsLexed(letters, text, Characters(letters, text, 0, |text|));
      assert lex(text) == Characters(letters, text, 0, |text|);
      forall i: nat, j: nat | i < j <= |lex(text)| && SegmentEnd(lex(text), j) ensures SliceLexes(lex, text, i, j) {
        CharactersBetween(letters, text, i, j);
      }
    }
  }
}
