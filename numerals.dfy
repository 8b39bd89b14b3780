/**
 * Decimal text for integers (what a template string prints for a whole number)
 * and the two-decimal rounding that `Number(x.toFixed(2))` performs.
 */
module Numerals {
  import opened Wrappers

  predicate IsDigit(c: char) {
    '0' <= c <= '9'
  }

  function DigitChar(d: int): (c: char)
    requires 0 <= d < 10
    ensures IsDigit(c) && c as int - '0' as int == d
  {
    (d + '0' as int) as char
  }

  function DigitValue(c: char): (d: int)
    requires IsDigit(c)
    ensures 0 <= d < 10
  {
    c as int - '0' as int
  }

  /** Decimal digits of a natural number, most significant first, without leading zeros. */
  function NatToString(n: nat): (s: string)
    ensures |s| >= 1
    ensures forall i :: 0 <= i < |s| ==> IsDigit(s[i])
    ensures |s| > 1 ==> s[0] != '0'
    decreases n
  {
    if n < 10 then [DigitChar(n)] else NatToString(n / 10) + [DigitChar(n % 10)]
  }

  /** How a template string renders a whole number: a minus sign, then the digits. */
  function IntToString(n: int): string {
    if n < 0 then "-" + NatToString(-n) else NatToString(n)
  }

  predicate AllDigits(s: string) {
    forall i :: 0 <= i < |s| ==> IsDigit(s[i])
  }

  /** The value of a string of decimal digits. */
  function DigitsValue(s: string): nat
    requires AllDigits(s)
  {
    if s == [] then 0 else DigitsValue(s[..|s| - 1]) * 10 + DigitValue(s[|s| - 1])
  }

  /** Reads back an optionally negative decimal integer; anything else is rejected. */
  function ParseInt(s: string): Option<int> {
    if |s| >= 2 && s[0] == '-' && AllDigits(s[1..]) then Some(0 - DigitsValue(s[1..]))
    else if |s| >= 1 && AllDigits(s) then Some(DigitsValue(s))
    else None
  }

  lemma {:induction false} DigitsValueOfNatToString(n: nat)
    ensures DigitsValue(NatToString(n)) == n
    decreases n
  {
    var s := NatToString(n);
    if n >= 10 {
      DigitsValueOfNatToString(n / 10);
      assert s[..|s| - 1] == NatToString(n / 10);
    }
  }

  /** Printing a number and reading it back gives the number. */
  lemma IntToStringRoundTrip(n: int)
    ensures ParseInt(IntToString(n)) == Some(n)
  {
    if n < 0 {
      var t := NatToString(-n);
      assert IntToString(n)[1..] == t;
      assert AllDigits(t);
      DigitsValueOfNatToString(-n);
      assert ParseInt(IntToString(n)) == Some(0 - DigitsValue(t));
    } else {
      DigitsValueOfNatToString(n);
    }
  }

  /** Distinct numbers print differently. */
  lemma IntToStringInjective(m: int, n: int)
    ensures IntToString(m) == IntToString(n) ==> m == n
  {
    IntToStringRoundTrip(m);
    IntToStringRoundTrip(n);
  }

  // ---- Two-decimal rounding -------------------------------------------------

  /** `x` is a whole number of hundredths. */
  predicate IsHundredths(x: real) {
    (x * 100.0).Floor as real == x * 100.0
  }

  function RoundMagnitude(x: real): (r: real)
    requires x >= 0.0
    ensures IsHundredths(r) && r >= 0.0
    ensures x - 0.005 < r <= x + 0.005
  {
    var k := (x * 100.0 + 0.5).Floor;
    assert (k as real) / 100.0 * 100.0 == k as real;
    (k as real) / 100.0
  }

  /**
   * `Number(x.toFixed(2))` on the exact value of `x`: the nearest multiple of 0.01,
   * a tie going away from zero (toFixed rounds the magnitude and keeps the sign).
   */
  function Round2(x: real): (r: real)
    ensures IsHundredths(r)
    ensures x - 0.005 <= r <= x + 0.005
  {
    if x >= 0.0 then RoundMagnitude(x)
    else
      var m := RoundMagnitude(-x);
      var k := (m * 100.0).Floor;
      assert (-m) * 100.0 == (-k) as real;
      -m
  }

  /** A whole number of hundredths is left as it is. */
  lemma Round2Exact(x: real)
    requires IsHundredths(x)
    ensures Round2(x) == x
  {
    var n := (x * 100.0).Floor;
    if x >= 0.0 {
      assert (x * 100.0 + 0.5).Floor == n;
    } else {
      assert ((-x) * 100.0).Floor == -n;
      assert ((-x) * 100.0 + 0.5).Floor == -n;
    }
  }

  /** Rounding twice gives what rounding once gives. */
  lemma Round2Idempotent(x: real)
    ensures Round2(Round2(x)) == Round2(x)
  {
    Round2Exact(Round2(x));
  }

  /** Whole numbers are whole numbers of hundredths. */
  lemma IntIsHundredths(n: int)
    ensures IsHundredths(n as real)
  {
    assert (n as real) * 100.0 == (n * 100) as real;
  }

  /**
   * Which values round to the two-decimal value `n/100`: the half-open window of
   * width 0.01 around it, closed on the side towards zero.
   */
  lemma Round2Window(x: real, n: int)
    ensures Round2(x) == (n as real) / 100.0 <==>
      if n > 0 then (n as real - 0.5) / 100.0 <= x < (n as real + 0.5) / 100.0
      else if n < 0 then (n as real - 0.5) / 100.0 < x <= (n as real + 0.5) / 100.0
      else -0.005 < x < 0.005
  {
    if x >= 0.0 {
      var k := (x * 100.0 + 0.5).Floor;
      assert Round2(x) == (k as real) / 100.0;
      assert (k as real) / 100.0 == (n as real) / 100.0 <==> k == n;
    } else {
      var k := ((-x) * 100.0 + 0.5).Floor;
      assert Round2(x) == -((k as real) / 100.0);
      assert -((k as real) / 100.0) == (n as real) / 100.0 <==> k == -n;
    }
  }
}
