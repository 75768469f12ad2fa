/** Decimal rendering of integers, as a JavaScript template literal prints an
    integral number (`${n}`): digits without leading zeros, a '-' for negatives. */
module Decimal {

  predicate IsDigit(c: char) {
    '0' <= c <= '9'
  }

  predicate AllDigits(s: string) {
    forall k :: 0 <= k < |s| ==> IsDigit(s[k])
  }

  function DigitChar(d: nat): (c: char)
    requires d < 10
    ensures IsDigit(c) && c as int - '0' as int == d
  {
    ('0' as int + d) as char
  }

  /** The decimal digits of `n`, most significant first. */
  function NatToDecimal(n: nat): (s: string)
    ensures |s| >= 1 && AllDigits(s)
    ensures s[0] == '0' ==> n == 0 && |s| == 1
    decreases n
  {
    if n < 10 then [DigitChar(n)] else NatToDecimal(n / 10) + [DigitChar(n % 10)]
  }

  /** The number a string of decimal digits denotes. */
  function DigitsValue(s: string): nat
    requires AllDigits(s)
    decreases |s|
  {
    if s == [] then 0
    else DigitsValue(s[..|s| - 1]) * 10 + (s[|s| - 1] as int - '0' as int)
  }

  lemma {:induction false} NatToDecimalRoundTrip(n: nat)
    ensures DigitsValue(NatToDecimal(n)) == n
    decreases n
  {
    if n >= 10 {
      var s := NatToDecimal(n);
      assert s[..|s| - 1] == NatToDecimal(n / 10);
      NatToDecimalRoundTrip(n / 10);
    }
  }

  /** The text of an integral JavaScript number. */
  function IntToDecimal(c: int): (s: string)
    ensures |s| >= 1
    ensures s[0] == '-' <==> c < 0
    ensures c >= 0 ==> AllDigits(s)
    ensures c < 0 ==> |s| >= 2 && AllDigits(s[1..])
  {
    if c < 0 then "-" + NatToDecimal(-c) else NatToDecimal(c)
  }

  predicate IsIntText(s: string) {
    (|s| >= 2 && s[0] == '-' && AllDigits(s[1..])) || (|s| >= 1 && AllDigits(s))
  }

  /** Reads back an optionally negative decimal integer. */
  function IntValue(s: string): int
    requires IsIntText(s)
  {
    if s[0] == '-' then -(DigitsValue(s[1..]) as int) else DigitsValue(s)
  }

  lemma IntToDecimalRoundTrip(c: int)
    ensures IsIntText(IntToDecimal(c)) && IntValue(IntToDecimal(c)) == c
  {
    if c < 0 {
      assert IntToDecimal(c)[1..] == NatToDecimal(-c);
      NatToDecimalRoundTrip(-c);
    } else {
      NatToDecimalRoundTrip(c);
    }
  }

  /** Different integers never print the same. */
  lemma IntToDecimalInjective(a: int, b: int)
    requires IntToDecimal(a) == IntToDecimal(b)
    ensures a == b
  {
    IntToDecimalRoundTrip(a);
    IntToDecimalRoundTrip(b);
  }
}
