/**
 * Decimal text and JavaScript's `parseFloat`, simplified: leading white space,
 * an optional sign, a run of digits, optionally a point and a second run of
 * digits; whatever follows is ignored. No digit at all gives NaN (`None`).
 */
module Numbers {
  import opened Wrappers

  predicate IsDigit(c: char) {
    '0' <= c <= '9'
  }

  predicate AllDigits(s: string) {
    forall i :: 0 <= i < |s| ==> IsDigit(s[i])
  }

  function DigitValue(c: char): (d: nat)
    requires IsDigit(c)
    ensures d < 10
  {
    c as int - '0' as int
  }

  function DigitChar(d: nat): (c: char)
    requires d < 10
    ensures IsDigit(c) && DigitValue(c) == d
  {
    ('0' as int + d) as char
  }

  predicate IsSpace(c: char) {
    c == ' ' || c == '\t' || c == '\n' || c == '\r'
  }

  /** Length of the run of digits at the start of `s`. */
  function DigitRun(s: string): (n: nat)
    ensures n <= |s|
    ensures AllDigits(s[..n])
    ensures n < |s| ==> !IsDigit(s[n])
  {
    if |s| > 0 && IsDigit(s[0]) then
      var n := 1 + DigitRun(s[1..]);
      assert s[..n] == [s[0]] + s[1..][..n - 1];
      n
    else
      0
  }

  /** The number a string of digits denotes, most significant digit first. */
  function DigitsValue(s: string): nat
    requires AllDigits(s)
  {
    if |s| == 0 then 0 else DigitsValue(s[..|s| - 1]) * 10 + DigitValue(s[|s| - 1])
  }

  function Pow10(n: nat): (p: nat)
    ensures p >= 1
  {
    if n == 0 then 1 else 10 * Pow10(n - 1)
  }

  /** `s` without its leading white space. */
  function SkipSpaces(s: string): (t: string)
    ensures |t| <= |s| && t == s[|s| - |t|..]
    ensures |t| > 0 ==> !IsSpace(t[0])
  {
    if |s| > 0 && IsSpace(s[0]) then SkipSpaces(s[1..]) else s
  }

  /** The digits of a natural number as `String(n)` writes them. */
  function NatToDecimal(n: nat): (s: string)
    ensures |s| >= 1 && AllDigits(s)
  {
    if n < 10 then [DigitChar(n)] else NatToDecimal(n / 10) + [DigitChar(n % 10)]
  }

  /** An unsigned decimal prefix: digits, optionally a point and more digits;
      at least one digit on either side of the point. */
  function ParseUnsigned(u: string): (r: Option<real>)
    ensures r.Some? ==> r.value >= 0.0
    ensures r.Some? ==> |u| > 0 && (IsDigit(u[0]) || (u[0] == '.' && |u| > 1 && IsDigit(u[1])))
  {
    var k := DigitRun(u);
    var whole := DigitsValue(u[..k]) as real;
    if k < |u| && u[k] == '.' then
      var m := DigitRun(u[k + 1..]);
      if k == 0 && m == 0 then None
      else Some(whole + DigitsValue(u[k + 1..][..m]) as real / Pow10(m) as real)
    else if k == 0 then
      None
    else
      Some(whole)
  }

  /** `parseFloat(s)`, with `None` for NaN. */
  function ParseFloat(s: string): (r: Option<real>)
    ensures r.Some? && r.value < 0.0 ==> |SkipSpaces(s)| > 0 && SkipSpaces(s)[0] == '-'
  {
    var t := SkipSpaces(s);
    if |t| > 0 && t[0] == '-' then
      match ParseUnsigned(t[1..])
      case Some(x) => Some(-x)
      case None => None
    else if |t| > 0 && t[0] == '+' then
      ParseUnsigned(t[1..])
    else
      ParseUnsigned(t)
  }

  /** Text without a single digit is NaN. */
  lemma ParseFloatNeedsDigit(s: string)
    requires forall i :: 0 <= i < |s| ==> !IsDigit(s[i])
    ensures ParseFloat(s) == None
  {
    var t := SkipSpaces(s);
    assert forall i :: 0 <= i < |t| ==> t[i] == s[|s| - |t| + i];
    if |t| > 0 && (t[0] == '-' || t[0] == '+') {
      assert forall i :: 0 <= i < |t[1..]| ==> t[1..][i] == t[i + 1];
    }
  }

  lemma {:induction false} NatToDecimalValue(n: nat)
    ensures DigitsValue(NatToDecimal(n)) == n
  {
    var s := NatToDecimal(n);
    if n >= 10 {
      NatToDecimalValue(n / 10);
      assert s[..|s| - 1] == NatToDecimal(n / 10);
    }
  }

  lemma {:induction false} DigitRunOfDigits(s: string, tail: string)
    requires AllDigits(s)
    requires |tail| == 0 || !IsDigit(tail[0])
    ensures DigitRun(s + tail) == |s|
    decreases |s|
  {
    if |s| > 0 {
      assert (s + tail)[1..] == s[1..] + tail;
      DigitRunOfDigits(s[1..], tail);
    } else {
      assert s + tail == tail;
    }
  }

  /** A run of digits followed by neither a digit nor a point reads as its value. */
  lemma ParseUnsignedDigits(d: string, tail: string)
    requires |d| >= 1 && AllDigits(d)
    requires |tail| == 0 || (!IsDigit(tail[0]) && tail[0] != '.')
    ensures ParseUnsigned(d + tail) == Some(DigitsValue(d) as real)
  {
    var u := d + tail;
    DigitRunOfDigits(d, tail);
    assert u[..|d|] == d;
    assert !(|d| < |u| && u[|d|] == '.') by {
      if |d| < |u| {
        assert u[|d|] == tail[0];
      }
    }
  }

  /** Text that starts with a digit has no white space or sign to skip. */
  lemma ParseFloatOfDigitStart(s: string)
    requires |s| > 0 && IsDigit(s[0])
    ensures ParseFloat(s) == ParseUnsigned(s)
  {
    assert SkipSpaces(s) == s;
  }

  /** Digits not preceded by white space or a sign read as their value. */
  lemma ParseFloatDigits(d: string, tail: string)
    requires |d| >= 1 && AllDigits(d)
    requires |tail| == 0 || (!IsDigit(tail[0]) && tail[0] != '.')
    ensures ParseFloat(d + tail) == Some(DigitsValue(d) as real)
  {
    assert (d + tail)[0] == d[0];
    ParseFloatOfDigitStart(d + tail);
    ParseUnsignedDigits(d, tail);
  }

  /** Reading back what `String(n)` wrote gives `n`, whatever non-numeric text follows. */
  lemma NatToDecimalRoundTrip(n: nat, tail: string)
    requires |tail| == 0 || (!IsDigit(tail[0]) && tail[0] != '.')
    ensures ParseFloat(NatToDecimal(n) + tail) == Some(n as real)
  {
    ParseFloatDigits(NatToDecimal(n), tail);
    NatToDecimalValue(n);
  }

  /** A minus sign in front of `String(n)` gives `-n`. */
  lemma NegatedNatToDecimal(n: nat)
    ensures ParseFloat("-" + NatToDecimal(n)) == Some(-(n as real))
  {
    var d := NatToDecimal(n);
    var s := "-" + d;
    assert SkipSpaces(s) == s;
    assert s[1..] == d;
    DigitRunOfDigits(d, "");
    assert d + "" == d;
    assert d[..|d|] == d;
    NatToDecimalValue(n);
  }
}
