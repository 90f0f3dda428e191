/**
  Decimal rendering of integers, as Python's `str(int)` writes them inside an
  f-string: an optional minus sign followed by the digits, with no leading zero.
  `ParseInt` is an independent reader used to show that rendering loses nothing.
 */
module Decimal {
  import opened Wrappers

  predicate IsDigit(c: char) {
    '0' <= c <= '9'
  }

  predicate AllDigits(s: string) {
    forall i :: 0 <= i < |s| ==> IsDigit(s[i])
  }

  function DigitValue(c: char): (d: nat)
    requires IsDigit(c)
    ensures d < 10
  {
    c as int - '0' as int
  }

  /** The character of one decimal digit. */
  function DigitChar(d: nat): (c: char)
    requires d < 10
    ensures IsDigit(c) && DigitValue(c) == d
  {
    ('0' as int + d) as char
  }

  /** The digits of `n`, most significant first; only zero itself starts with '0'. */
  function NatToString(n: nat): (s: string)
    ensures |s| >= 1 && AllDigits(s)
    ensures s[0] == '0' ==> n == 0 && s == "0"
    decreases n
  {
    if n < 10 then [DigitChar(n)] else NatToString(n / 10) + [DigitChar(n % 10)]
  }

  /** The decimal form of `i`: a '-' exactly for negative numbers, then digits only. */
  function IntToString(i: int): (s: string)
    ensures |s| >= 1
    ensures s[0] == '-' <==> i < 0
    ensures forall k :: 0 < k < |s| ==> IsDigit(s[k])
    ensures i >= 0 ==> AllDigits(s)
  {
    if i < 0 then "-" + NatToString(-i) else NatToString(i)
  }

  /** The value of a string of digits, read most significant digit first. */
  function DigitsValue(s: string): nat
    requires AllDigits(s)
    decreases |s|
  {
    if |s| == 0 then 0 else 10 * DigitsValue(s[..|s| - 1]) + DigitValue(s[|s| - 1])
  }

  /** Digits as `str` writes them: at least one, and no leading zero unless the number is zero. */
  predicate Canonical(s: string) {
    |s| > 0 && AllDigits(s) && (s[0] != '0' || s == "0")
  }

  /** Reads the digits of a natural number; a leading zero is accepted only in `0` itself. */
  function ParseNat(s: string): Option<nat> {
    if Canonical(s) then Some(DigitsValue(s)) else None
  }

  /**
    Reads an optional '-' followed by the digits of a natural number; `-0` and
    leading zeros, which `str` never writes, are rejected.
   */
  function ParseInt(s: string): Option<int> {
    if |s| > 0 && s[0] == '-' then
      match ParseNat(s[1..])
      case Some(n) => if n == 0 then None else Some(0 - n as int)
      case None => None
    else
      match ParseNat(s)
      case Some(n) => Some(n as int)
      case None => None
  }

  lemma {:induction false} NatRoundTrip(n: nat)
    ensures DigitsValue(NatToString(n)) == n
    decreases n
  {
    var s := NatToString(n);
    if n >= 10 {
      NatRoundTrip(n / 10);
      assert s[..|s| - 1] == NatToString(n / 10);
    }
  }

  /** Reading back the rendered form of any integer yields that integer. */
  lemma ParseIntRoundTrip(i: int)
    ensures ParseInt(IntToString(i)) == Some(i)
  {
    var s := IntToString(i);
    if i < 0 {
      assert s[1..] == NatToString(-i);
      NatRoundTrip(-i);
    } else {
      NatRoundTrip(i);
    }
  }

  /** A string of digits that starts with a nonzero digit has a nonzero value. */
  lemma {:induction false} LeadingDigitPositive(s: string)
    requires |s| > 0 && AllDigits(s) && s[0] != '0'
    ensures DigitsValue(s) >= 1
    decreases |s|
  {
    if |s| > 1 {
      LeadingDigitPositive(s[..|s| - 1]);
    }
  }

  /** Canonical digits are exactly what `NatToString` writes for their value. */
  lemma {:induction false} NatCanonical(s: string)
    requires Canonical(s)
    ensures s == NatToString(DigitsValue(s))
    decreases |s|
  {
    if |s| > 1 {
      var p := s[..|s| - 1];
      LeadingDigitPositive(p);
      NatCanonical(p);
      var v := DigitsValue(s);
      assert v / 10 == DigitsValue(p) && v % 10 == DigitValue(s[|s| - 1]);
      assert s == p + [s[|s| - 1]];
    }
  }

  /** The reader accepts only what `IntToString` writes: each number has one spelling. */
  lemma ParseIntCanonical(s: string, i: int)
    requires ParseInt(s) == Some(i)
    ensures s == IntToString(i)
  {
    if |s| > 0 && s[0] == '-' {
      NatCanonical(s[1..]);
      assert s == "-" + s[1..];
    } else {
      NatCanonical(s);
    }
  }

  /** A rendered integer never holds a character other than '-' and the digits. */
  lemma NoOtherCharInNumber(v: int, c: char)
    requires !IsDigit(c) && c != '-'
    ensures c !in IntToString(v)
  {
    var n := IntToString(v);
    forall k | 0 <= k < |n|
      ensures n[k] != c
    {
      assert k == 0 || IsDigit(n[k]);
    }
  }

  /** Distinct integers are rendered differently. */
  lemma IntToStringInjective(i: int, j: int)
    ensures IntToString(i) == IntToString(j) ==> i == j
  {
    ParseIntRoundTrip(i);
    ParseIntRoundTrip(j);
  }
}
