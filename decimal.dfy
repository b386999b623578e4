/** Python's `str(n)` for integers and its inverse `int(s)`, over ASCII digits. */
module Decimal {
  import opened Wrappers
  import opened Text

  predicate IsDigit(c: char) {
    '0' <= c <= '9'
  }

  predicate AllDigits(s: string) {
    forall i :: 0 <= i < |s| ==> IsDigit(s[i])
  }

  function DigitChar(d: nat): (c: char)
    requires d < 10
    ensures IsDigit(c)
  {
    ('0' as int + d) as char
  }

  function DigitValue(c: char): (d: nat)
    requires IsDigit(c)
    ensures d < 10 && DigitChar(d) == c
  {
    c as int - '0' as int
  }

  /** `str(n)` for `n >= 0`: decimal digits without leading zeros. */
  function NatToDecimal(n: nat): (r: string)
    ensures |r| >= 1 && AllDigits(r)
    ensures r[0] == '0' ==> n == 0
    decreases n
  {
    if n < 10 then [DigitChar(n)] else NatToDecimal(n / 10) + [DigitChar(n % 10)]
  }

  /** The number an all-digit string denotes. */
  function DigitsValue(s: string): nat
    requires AllDigits(s)
    decreases |s|
  {
    if s == [] then 0 else DigitsValue(s[..|s| - 1]) * 10 + DigitValue(s[|s| - 1])
  }

  /** Reading back the digits `str(n)` wrote gives `n`. */
  lemma {:induction false} NatToDecimalRoundTrip(n: nat)
    ensures DigitsValue(NatToDecimal(n)) == n
    decreases n
  {
    var r := NatToDecimal(n);
    if n >= 10 {
      NatToDecimalRoundTrip(n / 10);
      assert r[..|r| - 1] == NatToDecimal(n / 10);
    }
  }

  /** Decimal text is injective: different numbers print differently. */
  lemma NatToDecimalInjective(m: nat, n: nat)
    requires NatToDecimal(m) == NatToDecimal(n)
    ensures m == n
  {
    NatToDecimalRoundTrip(m);
    NatToDecimalRoundTrip(n);
  }

  /** `str(i)` for any Python integer. */
  function IntToDecimal(i: int): (r: string)
    ensures |r| >= 1 && IsDigit(r[|r| - 1])
    ensures i >= 0 ==> AllDigits(r)
    ensures i < 0 ==> r[0] == '-' && AllDigits(r[1..])
  {
    if i < 0 then "-" + NatToDecimal(-i) else NatToDecimal(i)
  }

  /**
   * `int(s)` on a string: surrounding whitespace, an optional sign and at
   * least one digit; `None` where Python raises `ValueError`.
   */
  function ParseInt(s: string): (r: Option<int>)
    ensures r.Some? ==> Strip(s) != []
  {
    ParseSignedDigits(Strip(s))
  }

  /** What `int` accepts once the whitespace is gone: an optional sign and at least one digit. */
  function ParseSignedDigits(t: string): (r: Option<int>)
    ensures r.Some? ==> t != []
  {
    if t == [] then None
    else if t[0] == '-' || t[0] == '+' then
      if |t| > 1 && AllDigits(t[1..]) then
        Some(if t[0] == '-' then -(DigitsValue(t[1..]) as int) else DigitsValue(t[1..]))
      else None
    else if AllDigits(t) then Some(DigitsValue(t))
    else None
  }

  /** `int(str(i)) == i`. */
  lemma ParseIntRoundTrip(i: int)
    ensures ParseInt(IntToDecimal(i)) == Some(i)
  {
    DecimalIsStripped(i);
    if i < 0 {
      NatToDecimalRoundTrip(-i);
      ParseSigned(NatToDecimal(-i), -i);
    } else {
      NatToDecimalRoundTrip(i);
      ParseUnsigned(IntToDecimal(i), i);
    }
  }

  /** `str(i)` has no surrounding whitespace for `int` to strip. */
  lemma DecimalIsStripped(i: int)
    ensures Strip(IntToDecimal(i)) == IntToDecimal(i)
  {
    var r := IntToDecimal(i);
    assert IsStripped(r);
    StripSpec(r);
  }

  /** A minus sign followed by the digits of `n` reads back as `-n`. */
  lemma ParseSigned(d: string, n: nat)
    requires d != [] && AllDigits(d) && DigitsValue(d) == n
    ensures ParseSignedDigits("-" + d) == Some(-(n as int))
  {
    assert ("-" + d)[1..] == d;
  }

  /** Digits alone read back as the number they denote. */
  lemma ParseUnsigned(t: string, n: nat)
    requires t != [] && AllDigits(t) && DigitsValue(t) == n
    ensures ParseSignedDigits(t) == Some(n)
  {
    assert IsDigit(t[0]);
  }
}
