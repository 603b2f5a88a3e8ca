/** Option and Result values, and decimal numerals as Go's fmt and strconv write and read them. */
module Basics {

  datatype Option<+T> = None | Some(value: T)

  datatype Result<+T, +E> = Ok(value: T) | Err(error: E)

  lemma SliceOfSlice<T>(s: seq<T>, a: nat, b: nat, i: nat, j: nat)
    requires a <= b <= |s| && i <= j <= b - a
    ensures s[a..b][i..j] == s[a + i..a + j]
  {
    var x, y := s[a..b][i..j], s[a + i..a + j];
    assert |x| == |y| && forall k :: 0 <= k < |y| ==> x[k] == y[k];
  }
}

/** Decimal text: `%d` on one side, `strconv.Atoi` on the other. */
module Decimal {
  import opened Basics

  /** The largest value of Go's 64-bit `int`. */
  const MAX_INT: int := 0x7fff_ffff_ffff_ffff

  predicate IsDigit(c: char) {
    '0' <= c <= '9'
  }

  function DigitValue(c: char): (d: nat)
    requires IsDigit(c)
    ensures d < 10
  {
    (c as int) - ('0' as int)
  }

  predicate AllDigits(s: string) {
    forall i :: 0 <= i < |s| ==> IsDigit(s[i])
  }

  function DigitChar(d: nat): (c: char)
    requires d < 10
    ensures IsDigit(c) && DigitValue(c) == d
  {
    ('0' as int + d) as char
  }

  /** `%d` of a non-negative integer. */
  function NatToString(n: nat): (s: string)
    ensures |s| > 0 && AllDigits(s)
  {
    if n < 10 then [DigitChar(n)] else NatToString(n / 10) + [DigitChar(n % 10)]
  }

  /** `%d` of any integer. */
  function IntToString(n: int): string {
    if n < 0 then "-" + NatToString(-n) else NatToString(n)
  }

  function DigitsToNat(s: string): nat
    requires AllDigits(s)
  {
    if s == "" then 0 else 10 * DigitsToNat(s[..|s| - 1]) + DigitValue(s[|s| - 1])
  }

  /** `strconv.Atoi`: one optional sign, at least one digit, nothing else, and a value that fits 64 bits. */
  function Atoi(s: string): Option<int> {
    var signed := s != "" && (s[0] == '-' || s[0] == '+');
    var digits := if signed then s[1..] else s;
    if digits == "" || !AllDigits(digits) then None
    else
      var v: int := DigitsToNat(digits);
      if signed && s[0] == '-' then
        if v <= MAX_INT + 1 then Some(-v) else None
      else
        if v <= MAX_INT then Some(v) else None
  }

  lemma {:induction false} DigitsOfNat(n: nat)
    ensures DigitsToNat(NatToString(n)) == n
  {
    if n >= 10 {
      DigitsOfNat(n / 10);
      var s := NatToString(n);
      assert s[..|s| - 1] == NatToString(n / 10);
    }
  }

  /** Reading back a printed integer gives the integer, for every non-negative 64-bit value. */
  lemma AtoiOfNat(n: nat)
    requires n <= MAX_INT
    ensures Atoi(NatToString(n)) == Some(n)
  {
    DigitsOfNat(n);
    assert IsDigit(NatToString(n)[0]);
  }

  /** What is no numeral: not one sign at most and then digits, at least one. */
  predicate Numeral(s: string) {
    var from := if s != "" && s[0] in {'-', '+'} then 1 else 0;
    from < |s| && forall k :: from <= k < |s| ==> '0' <= s[k] <= '9'
  }

  /** Numerals are read as what they say, with a sign or without and with any number of zeros in front, if that fits
      64 bits; everything else is refused. */
  lemma AtoiIs(s: string, n: nat)
    ensures !Numeral(s) ==> Atoi(s) == None
    ensures var t := NatToString(n);
            && Atoi(t) == Atoi("+" + t) == (if n <= 0x7fff_ffff_ffff_ffff then Some(n) else None)
            && match Atoi("-" + t)
               case Some(v) => n <= 0x8000_0000_0000_0000 && v + n == 0
               case None => n > 0x8000_0000_0000_0000
    ensures s != "" && AllDigits(s) ==> Atoi("0" + s) == Atoi(s)
  {
    if !Numeral(s) { NotRead(s); }
    hide Numeral, Atoi;
    Signed(NatToString(n));
    DigitsOfNat(n);
    if s != "" && AllDigits(s) {
      LeadingZero(s);
      Signed(s);
      Signed("0" + s);
    }
  }

  /** One more digit makes ten times as much and the digit. */
  lemma OneMoreDigit(s: string, c: char)
    requires AllDigits(s) && '0' <= c <= '9'
    ensures AllDigits(s + [c]) && DigitsToNat(s + [c]) == 10 * DigitsToNat(s) + ((c as int) - ('0' as int))
    ensures DigitsToNat(s + [c]) <= MAX_INT ==> Atoi(s + [c]) == Some(DigitsToNat(s + [c]))
  {
    var t := s + [c];
    assert t[..|t| - 1] == s && t[|t| - 1] == c;
    Signed(t);
  }

  lemma NotRead(s: string)
    requires !Numeral(s)
    ensures Atoi(s) == None
  {
    var from := if s != "" && s[0] in {'-', '+'} then 1 else 0;
    if from < |s| {
      var k :| from <= k < |s| && !('0' <= s[k] <= '9');
      assert !IsDigit(s[from..][k - from]);
    }
  }

  lemma Signed(t: string)
    requires t != "" && AllDigits(t)
    ensures Atoi(t) == Atoi("+" + t) == if DigitsToNat(t) <= MAX_INT then Some(DigitsToNat(t)) else None
    ensures match Atoi("-" + t)
            case Some(v) => DigitsToNat(t) <= MAX_INT + 1 && v + DigitsToNat(t) == 0
            case None => DigitsToNat(t) > MAX_INT + 1
  {
    hide DigitsToNat;
    assert IsDigit(t[0]) && ("+" + t)[1..] == t && ("-" + t)[1..] == t;
  }

  lemma {:induction false} LeadingZero(s: string)
    requires AllDigits(s)
    ensures AllDigits("0" + s) && DigitsToNat("0" + s) == DigitsToNat(s)
    decreases |s|
  {
    var t := "0" + s;
    if s == "" {
      assert t[..0] == "";
    } else {
      LeadingZero(s[..|s| - 1]);
      assert t[..|t| - 1] == "0" + s[..|s| - 1];
    }
  }

  /** Printed numerals are free of separators. */
  lemma NumeralHasNo(n: nat, c: char)
    requires !IsDigit(c)
    ensures c !in NatToString(n)
  {
  }
}

/** Sums over sequences. */
module Sums {

  function Sum<T>(s: seq<T>, f: T -> int): int {
    if s == [] then 0 else f(s[0]) + Sum(s[1..], f)
  }

  lemma {:induction false} SumConcat<T>(a: seq<T>, b: seq<T>, f: T -> int)
    ensures Sum(a + b, f) == Sum(a, f) + Sum(b, f)
  {
    if a == [] {
      assert a + b == b;
    } else {
      SumConcat(a[1..], b, f);
      assert (a + b)[1..] == a[1..] + b;
    }
  }

  function Without<T>(t: seq<T>, k: nat): seq<T>
    requires k < |t|
  {
    t[..k] + t[k + 1..]
  }

  lemma WithoutMultiset<T>(t: seq<T>, k: nat)
    requires k < |t|
    ensures multiset(t) == multiset{t[k]} + multiset(Without(t, k))
  {
    assert t == t[..k] + ([t[k]] + t[k + 1..]);
  }

  lemma SumWithout<T>(t: seq<T>, k: nat, f: T -> int)
    requires k < |t|
    ensures Sum(t, f) == f(t[k]) + Sum(Without(t, k), f)
  {
    var head, rest := t[..k], t[k + 1..];
    assert t == head + ([t[k]] + rest);
    SumConcat(head, [t[k]] + rest, f);
    SumConcat(head, rest, f);
    assert ([t[k]] + rest)[1..] == rest;
  }

  lemma {:induction false} SumPermuted<T>(s: seq<T>, t: seq<T>, f: T -> int)
    requires multiset(s) == multiset(t)
    ensures Sum(s, f) == Sum(t, f)
    decreases |s|
  {
    if s == [] {
      assert |multiset(t)| == 0;
    } else {
      assert s[0] in multiset(t);
      var k :| 0 <= k < |t| && t[k] == s[0];
      WithoutMultiset(s, 0);
      WithoutMultiset(t, k);
      assert Without(s, 0) == s[1..];
      assert multiset(s[1..]) == multiset(s) - multiset{s[0]};
      assert multiset(Without(t, k)) == multiset(t) - multiset{s[0]};
      SumPermuted(s[1..], Without(t, k), f);
      SumWithout(t, k, f);
    }
  }

  lemma {:induction false} SumUpdate<T>(s: seq<T>, k: nat, x: T, f: T -> int)
    requires k < |s|
    ensures Sum(s[k := x], f) == Sum(s, f) - f(s[k]) + f(x)
    decreases |s|
  {
    if k == 0 {
      assert s[k := x][1..] == s[1..];
    } else {
      SumUpdate(s[1..], k - 1, x, f);
      assert s[k := x][0] == s[0] && s[k := x][1..] == s[1..][k - 1 := x];
    }
  }

  lemma SumSnoc<T>(s: seq<T>, x: T, f: T -> int)
    ensures Sum(s + [x], f) == Sum(s, f) + f(x)
  {
    SumConcat(s, [x], f);
    assert [x][1..] == [];
  }

  lemma {:induction false} SumConstant<T>(n: nat, x: T, f: T -> int)
    ensures Sum(seq(n, _ => x), f) == n * f(x)
  {
    if n > 0 {
      SumConstant(n - 1, x, f);
      assert seq(n, _ => x)[1..] == seq(n - 1, _ => x);
      assert n * f(x) == (n - 1) * f(x) + f(x);
    }
  }

  lemma {:induction false} SumZero<T>(s: seq<T>, f: T -> int)
    requires forall k :: 0 <= k < |s| ==> f(s[k]) == 0
    ensures Sum(s, f) == 0
    decreases |s|
  {
    if s != [] {
      SumZero(s[1..], f);
    }
  }

  lemma {:induction false} SumAtLeast<T>(s: seq<T>, k: nat, f: T -> int)
    requires k < |s| && forall x :: f(x) >= 0
    ensures Sum(s, f) >= f(s[k])
    decreases |s|
  {
    if k == 0 {
      SumNat(s[1..], f);
    } else {
      SumAtLeast(s[1..], k - 1, f);
    }
  }

  lemma {:induction false} SumNat<T>(s: seq<T>, f: T -> int)
    requires forall x :: f(x) >= 0
    ensures Sum(s, f) >= 0
    decreases |s|
  {
    if s != [] {
      SumNat(s[1..], f);
    }
  }

  lemma {:induction false} SumAtMost<T>(s: seq<T>, f: T -> int)
    requires forall x :: f(x) <= 1
    ensures Sum(s, f) <= |s|
    decreases |s|
  {
    if s != [] {
      SumAtMost(s[1..], f);
    }
  }
}
