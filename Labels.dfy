/** The cents texts shown to the user: the suffix in the status line and the
    signed label in each oscillator's cents display. */
module Labels {
  import opened Decimal

  /** U+00A2, the cent sign. */
  const CentSign: string := "\U{A2}"

  /** "±0¢", written by a direct frequency edit. */
  const ZeroCentsLabel: string := "\U{B1}0\U{A2}"

  function SignPrefix(cents: int): string {
    if cents >= 0 then "+" else ""
  }

  /** The cents display after a cents button: an explicit sign, the number, "¢". */
  function CentsDisplay(cents: int): (s: string)
    ensures |s| >= 3 && s[|s| - 1] == '\U{A2}'
    ensures s[0] == '+' <==> cents >= 0
    ensures s[0] == '-' <==> cents < 0
  {
    SignPrefix(cents) + IntToDecimal(cents) + CentSign
  }

  /** The status-line suffix: empty for no offset, otherwise a space and the
      signed label. */
  function CentsSuffix(cents: int): (s: string)
    ensures s == [] <==> cents == 0
    ensures cents != 0 ==> s == " " + CentsDisplay(cents)
  {
    if cents != 0 then " " + SignPrefix(cents) + IntToDecimal(cents) + CentSign else ""
  }

  /** The cents display determines the offset. */
  lemma CentsDisplayInjective(a: int, b: int)
    requires CentsDisplay(a) == CentsDisplay(b)
    ensures a == b
  {
    var s := CentsDisplay(a);
    var pa, pb := SignPrefix(a), SignPrefix(b);
    assert (a >= 0) == (b >= 0);
    assert |pa| == |pb|;
    assert IntToDecimal(a) == s[|pa|..|s| - 1];
    assert IntToDecimal(b) == s[|pb|..|s| - 1];
    IntToDecimalInjective(a, b);
  }

  /** So does the status-line suffix. */
  lemma CentsSuffixInjective(a: int, b: int)
    requires CentsSuffix(a) == CentsSuffix(b)
    ensures a == b
  {
    if a != 0 {
      var s := CentsSuffix(a);
      assert CentsDisplay(a) == s[1..] == CentsDisplay(b);
      CentsDisplayInjective(a, b);
    }
  }

  /** A zero offset reached with the buttons reads "+0¢", not "±0¢". */
  lemma ZeroOffsetLabels()
    ensures CentsDisplay(0) == "+0\U{A2}" && CentsDisplay(0) != ZeroCentsLabel
    ensures CentsSuffix(0) == ""
  {
  }
}
