/** Decimal rendering of unsigned integers, as `format!("{}", n)` writes them,
    and the facts that make identifier strings unambiguous. */
module Decimal {

  predicate IsDigit(c: char) { '0' <= c <= '9' }

  predicate AllDigits(s: string) { forall i :: 0 <= i < |s| ==> IsDigit(s[i]) }

  function DigitChar(d: nat): (c: char)
    requires d < 10
    ensures IsDigit(c)
  {
    (('0' as int) + d) as char
  }

  function DigitValue(c: char): nat
    requires IsDigit(c)
  {
    (c as int) - ('0' as int)
  }

  /** The decimal digits of `n`, most significant first, without leading zeros. */
  function NatToDecimal(n: nat): (s: string)
    ensures |s| >= 1 && AllDigits(s)
  {
    if n < 10 then [DigitChar(n)] else NatToDecimal(n / 10) + [DigitChar(n % 10)]
  }

  /** The number a string of decimal digits denotes. */
  function DecimalValue(s: string): nat
    requires AllDigits(s)
  {
    if s == [] then 0 else 10 * DecimalValue(s[..|s| - 1]) + DigitValue(s[|s| - 1])
  }

  lemma {:induction false} DecimalRoundTrip(n: nat)
    ensures DecimalValue(NatToDecimal(n)) == n
  {
    var s := NatToDecimal(n);
    if n >= 10 {
      DecimalRoundTrip(n / 10);
      assert s[..|s| - 1] == NatToDecimal(n / 10);
    }
  }

  /** Distinct numbers have distinct renderings. */
  lemma NatToDecimalInjective(a: nat, b: nat)
    requires NatToDecimal(a) == NatToDecimal(b)
    ensures a == b
  {
    DecimalRoundTrip(a);
    DecimalRoundTrip(b);
  }

  /** A digit string followed by text that starts with a non-digit splits
      in one way only. */
  lemma DigitsThenNonDigit(s1: string, t1: string, s2: string, t2: string)
    requires AllDigits(s1) && AllDigits(s2)
    requires |t1| >= 1 && |t2| >= 1 && !IsDigit(t1[0]) && !IsDigit(t2[0])
    requires s1 + t1 == s2 + t2
    ensures s1 == s2 && t1 == t2
  {
    DigitsNotShorter(s1, t1, s2, t2);
    DigitsNotShorter(s2, t2, s1, t1);
    assert s1 == (s1 + t1)[..|s1|];
    assert s2 == (s2 + t2)[..|s2|];
    assert t1 == (s1 + t1)[|s1|..];
    assert t2 == (s2 + t2)[|s2|..];
  }

  lemma DigitsNotShorter(s1: string, t1: string, s2: string, t2: string)
    requires AllDigits(s2)
    requires |t1| >= 1 && !IsDigit(t1[0])
    requires s1 + t1 == s2 + t2
    ensures |s1| >= |s2|
  {
    assert (s1 + t1)[|s1|] == t1[0];
    assert !IsDigit((s2 + t2)[|s1|]);
    assert forall i :: 0 <= i < |s2| ==> IsDigit((s2 + t2)[i]);
  }

  /** Equal strings with a common prefix agree after it. */
  lemma StripPrefix(p: string, x: string, y: string)
    requires p + x == p + y
    ensures x == y
  {
    assert x == (p + x)[|p|..];
    assert y == (p + y)[|p|..];
  }

  /** Equal strings with a common suffix agree before it. */
  lemma StripSuffix(x: string, y: string, q: string)
    requires x + q == y + q
    ensures x == y
  {
    assert x == (x + q)[..|x + q| - |q|];
    assert y == (y + q)[..|y + q| - |q|];
  }
}
