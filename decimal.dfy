/**
  Decimal rendering of integers, as Python's `str(int)` (and so an f-string
  `f"{n}"`) produces it: an optional leading '-', then the digits of the
  magnitude, with no leading zeros. `ParseInt` reads such a rendering back.
*/
module Decimal {
  import opened Wrappers

  predicate IsDigit(c: char) {
    '0' <= c <= '9'
  }

  predicate IsDigitString(s: string) {
    |s| > 0 && forall i :: 0 <= i < |s| ==> IsDigit(s[i])
  }

  function DigitChar(d: nat): (c: char)
    requires d < 10
    ensures IsDigit(c)
    ensures DigitValue(c) == d
  {
    ('0' as int + d) as char
  }

  function DigitValue(c: char): (d: nat)
    requires IsDigit(c)
    ensures d < 10
  {
    c as int - '0' as int
  }

  /** The decimal digits of `n`, most significant first. */
  function NatToDecimal(n: nat): (s: string)
    ensures IsDigitString(s)
    ensures |s| > 1 ==> s[0] != '0'
    decreases n
  {
    if n < 10 then [DigitChar(n)] else NatToDecimal(n / 10) + [DigitChar(n % 10)]
  }

  /** Python's `str(i)` for an `int`, without its limit on the number of
      digits. */
  function IntToDecimal(i: int): (s: string)
    ensures |s| > 0
    ensures forall k :: 0 <= k < |s| ==> IsDigit(s[k]) || s[k] == '-'
    ensures s[0] == '-' <==> i < 0
    ensures var d := if i < 0 then s[1..] else s;
            IsDigitString(d) && (|d| > 1 ==> d[0] != '0')
  {
    if i < 0 then "-" + NatToDecimal(-i) else NatToDecimal(i)
  }

  /** The number a string of digits denotes. */
  function DigitsValue(s: string): nat
    requires forall i :: 0 <= i < |s| ==> IsDigit(s[i])
    decreases |s|
  {
    if s == [] then 0 else 10 * DigitsValue(s[..|s| - 1]) + DigitValue(s[|s| - 1])
  }

  /** Reads an optionally signed decimal integer; None when `s` is not one. */
  function ParseInt(s: string): Option<int> {
    if |s| > 0 && s[0] == '-' then
      if IsDigitString(s[1..]) then Some(-(DigitsValue(s[1..]) as int)) else None
    else if IsDigitString(s) then Some(DigitsValue(s))
    else None
  }

  lemma {:induction false} NatToDecimalRoundTrip(n: nat)
    ensures DigitsValue(NatToDecimal(n)) == n
    decreases n
  {
    var s := NatToDecimal(n);
    if n >= 10 {
      NatToDecimalRoundTrip(n / 10);
      assert s[..|s| - 1] == NatToDecimal(n / 10);
      assert s[|s| - 1] == DigitChar(n % 10);
    }
  }

  /** Reading the rendering of any integer gives that integer back. */
  lemma IntToDecimalRoundTrip(i: int)
    ensures ParseInt(IntToDecimal(i)) == Some(i)
  {
    var s := IntToDecimal(i);
    if i < 0 {
      assert s[1..] == NatToDecimal(-i);
      NatToDecimalRoundTrip(-i);
    } else {
      assert IsDigit(s[0]);
      NatToDecimalRoundTrip(i);
    }
  }

  /** Distinct integers render differently. */
  lemma IntToDecimalInjective(i: int, j: int)
    ensures IntToDecimal(i) == IntToDecimal(j) ==> i == j
  {
    IntToDecimalRoundTrip(i);
    IntToDecimalRoundTrip(j);
  }
}
