/**
 * Decimal text of integers, as Swift's string interpolation writes it, and
 * the value of a string of decimal digits.
 */
module Decimal {

  predicate IsDigit(c: char) { '0' <= c <= '9' }

  predicate AllDigits(s: string) { forall i :: 0 <= i < |s| ==> IsDigit(s[i]) }

  function DigitChar(d: nat): (c: char)
    requires d < 10
    ensures IsDigit(c)
  {
    "0123456789"[d]
  }

  function DigitValue(c: char): (d: nat)
    requires IsDigit(c)
    ensures d < 10
  {
    (c as int) - ('0' as int)
  }

  lemma DigitRoundTrip(d: nat)
    requires d < 10
    ensures DigitValue(DigitChar(d)) == d
  {
  }

  /** The value of a string of decimal digits, most significant first. */
  function DigitsValue(s: string): nat
    requires AllDigits(s)
  {
    if s == [] then 0 else DigitsValue(s[..|s| - 1]) * 10 + DigitValue(s[|s| - 1])
  }

  /** `"\(n)"`: decimal digits, no sign, no leading zero. */
  function FormatDecimal(n: nat): (s: string)
    ensures |s| > 0 && AllDigits(s)
    ensures |s| > 1 ==> s[0] != '0'
  {
    if n < 10 then [DigitChar(n)] else FormatDecimal(n / 10) + [DigitChar(n % 10)]
  }

  /** Decimal digits, with a leading minus sign or without. */
  predicate IsSignedDecimal(s: string)
  {
    |s| > 0 && if s[0] == '-' then AllDigits(s[1..]) else AllDigits(s)
  }

  /** The value of a signed decimal text. */
  function SignedValue(s: string): int
    requires IsSignedDecimal(s)
  {
    if s[0] == '-' then 0 - DigitsValue(s[1..]) as int else DigitsValue(s)
  }

  /** `"\(i)"` for a signed integer: a minus sign before the magnitude when negative. */
  function FormatSigned(i: int): (s: string)
    ensures IsSignedDecimal(s) && SignedValue(s) == i
    ensures s[0] == '-' <==> i < 0
  {
    if i < 0 then
      ValueOfFormat(-i);
      assert ("-" + FormatDecimal(-i))[1..] == FormatDecimal(-i);
      "-" + FormatDecimal(-i)
    else
      ValueOfFormat(i);
      FormatDecimal(i)
  }

  /** Distinct naturals print differently. */
  lemma FormatDecimalInjective(m: nat, n: nat)
    ensures FormatDecimal(m) == FormatDecimal(n) ==> m == n
  {
    ValueOfFormat(m);
    ValueOfFormat(n);
  }

  lemma {:induction false} ValueOfFormat(n: nat)
    ensures DigitsValue(FormatDecimal(n)) == n
  {
    var s := FormatDecimal(n);
    if n < 10 {
      DigitRoundTrip(n);
    } else {
      ValueOfFormat(n / 10);
      DigitRoundTrip(n % 10);
      assert s[..|s| - 1] == FormatDecimal(n / 10);
    }
  }

  /** Digit strings without a leading zero are exactly the decimal texts `FormatDecimal` produces. */
  ghost predicate Canonical(s: string)
  {
    |s| > 0 && AllDigits(s) && (|s| > 1 ==> s[0] != '0')
  }

  lemma {:induction false} CanonicalValuePositive(s: string)
    requires Canonical(s) && |s| > 1
    ensures DigitsValue(s) >= 10
  {
    var p := s[..|s| - 1];
    if |p| > 1 {
      assert p[0] == s[0];
      CanonicalValuePositive(p);
    } else {
      assert p == [s[0]];
    }
  }

  lemma {:induction false} FormatOfValue(s: string)
    requires Canonical(s)
    ensures FormatDecimal(DigitsValue(s)) == s
  {
    if |s| == 1 {
      assert DigitChar(DigitValue(s[0])) == s[0];
    } else {
      var p := s[..|s| - 1];
      var d := DigitValue(s[|s| - 1]);
      assert p[0] == s[0];
      if |p| > 1 {
        CanonicalValuePositive(p);
      } else {
        assert p == [s[0]];
      }
      FormatOfValue(p);
      assert DigitsValue(s) / 10 == DigitsValue(p) && DigitsValue(s) % 10 == d;
      assert DigitChar(d) == s[|s| - 1];
      assert s == p + [s[|s| - 1]];
    }
  }

}
