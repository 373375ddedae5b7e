/**
 * Number conversion as the flow monitor sees it: Python's `int(s)` and
 * `float(s)` on the decimal forms the device sends (optional sign, ASCII
 * digits, an optional fractional part, surrounding whitespace ignored), with
 * values as exact integers and reals. The fixed-point formatter mirrors the
 * device's `Serial.print(x, n)` output and is used to state round trips.
 */
module Numbers {
  import opened Wrappers
  import opened Text

  predicate AllDigits(s: string) {
    forall i :: 0 <= i < |s| ==> IsDigit(s[i])
  }

  function DigitValue(c: char): nat
    requires IsDigit(c)
  {
    c as int - '0' as int
  }

  function Pow10(n: nat): (r: nat)
    ensures r >= 1
  {
    if n == 0 then 1 else 10 * Pow10(n - 1)
  }

  /** The value of a string of decimal digits, most significant first. */
  function DigitsValue(s: string): nat
    requires AllDigits(s)
  {
    if s == [] then 0 else DigitsValue(s[..|s| - 1]) * 10 + DigitValue(s[|s| - 1])
  }

  lemma {:induction false} DigitsValueBound(s: string)
    requires AllDigits(s)
    ensures DigitsValue(s) < Pow10(|s|)
    decreases |s|
  {
    if s != [] {
      DigitsValueBound(s[..|s| - 1]);
    }
  }

  /** The digits of an unsigned number without sign or fraction: `float` and `int` share this. */
  function ParseDigits(s: string): (r: Option<nat>)
    ensures r.Some? <==> s != [] && AllDigits(s)
    ensures r.Some? ==> r.value < Pow10(|s|)
  {
    if s != [] && AllDigits(s) then
      DigitsValueBound(s);
      Some(DigitsValue(s))
    else None
  }

  /** Python's `int(s)`: whitespace, an optional sign, then at least one digit. */
  function ParseInt(s: string): (r: Option<int>)
    ensures r.Some? ==> Strip(s) != [] && (r.value < 0 ==> Strip(s)[0] == '-')
  {
    var t := Strip(s);
    if t != [] && (t[0] == '-' || t[0] == '+') then
      match ParseDigits(t[1..])
      case Some(n) => Some(if t[0] == '-' then -(n as int) else n as int)
      case None => None
    else
      match ParseDigits(t)
      case Some(n) => Some(n)
      case None => None
  }

  /** The value of `ip.fp` written in decimal: all its digits, scaled down by the fraction's length. */
  function DecimalOf(ip: string, fp: string): (r: real)
    requires AllDigits(ip) && AllDigits(fp)
    ensures r >= 0.0
  {
    assert AllDigits(ip + fp);
    DigitsValue(ip + fp) as real / Pow10(|fp|) as real
  }

  /** An unsigned decimal: digits, optionally a point and more digits, at least one digit in all. */
  function ParseUnsignedDecimal(b: string): (r: Option<real>)
    ensures r.Some? ==> r.value >= 0.0
    ensures r.Some? ==> b != [] && (IsDigit(b[0]) || b[0] == '.')
  {
    if '.' in b then
      var ip, fp := Before(b, '.'), After(b, '.');
      if AllDigits(ip) && AllDigits(fp) && (ip != [] || fp != []) then
        Some(DecimalOf(ip, fp))
      else None
    else if b != [] && AllDigits(b) then Some(DigitsValue(b) as real)
    else None
  }

  /** Python's `float(s)` on decimal notation. */
  function ParseReal(s: string): (r: Option<real>)
    ensures r.Some? ==> Strip(s) != [] && (r.value < 0.0 ==> Strip(s)[0] == '-')
  {
    var t := Strip(s);
    if t != [] && t[0] == '-' then
      match ParseUnsignedDecimal(t[1..])
      case Some(v) => Some(-v)
      case None => None
    else if t != [] && t[0] == '+' then ParseUnsignedDecimal(t[1..])
    else ParseUnsignedDecimal(t)
  }

  /** A string that starts with a letter or a comma is not a number. */
  lemma NotNumberWhenFirstIsLetter(s: string)
    requires s != [] && !IsDigit(s[0]) && !IsSpace(s[0]) && s[0] !in "+-."
    ensures ParseReal(s) == None && ParseInt(s) == None
  {
    assert TrimStart(s) == s;
    TrimEndIsPrefix(s);
    var t := Strip(s);
    if t != [] {
      assert t[0] == s[0];
    }
  }

  function DigitChar(d: nat): (c: char)
    requires d < 10
    ensures IsDigit(c) && DigitValue(c) == d
  {
    ('0' as int + d) as char
  }

  /** `str(n)` for a natural number. */
  function NatToDigits(n: nat): (s: string)
    ensures s != [] && AllDigits(s)
    ensures DigitsValue(s) == n
    ensures !IsSpace(s[0]) && !IsSpace(s[|s| - 1])
  {
    if n < 10 then [DigitChar(n)]
    else
      var p := NatToDigits(n / 10);
      var s := p + [DigitChar(n % 10)];
      assert s[..|s| - 1] == p;
      s
  }

  function Zeros(k: nat): (s: string)
    ensures |s| == k && AllDigits(s) && DigitsValue(s) == 0
  {
    if k == 0 then []
    else
      var s := Zeros(k - 1) + ['0'];
      assert s[..|s| - 1] == Zeros(k - 1);
      s
  }

  /** Leading zeros do not change the value of a digit string. */
  lemma {:induction false} LeadingZeros(z: string, s: string)
    requires AllDigits(z) && DigitsValue(z) == 0 && AllDigits(s)
    ensures AllDigits(z + s) && DigitsValue(z + s) == DigitsValue(s)
    decreases |s|
  {
    if s == [] {
      assert z + s == z;
    } else {
      var s' := s[..|s| - 1];
      assert (z + s)[..|z + s| - 1] == z + s';
      LeadingZeros(z, s');
    }
  }

  /** `s` left-padded with zeros to `width` digits (unchanged when already that long). */
  function PadZeros(s: string, width: nat): (r: string)
    ensures |r| >= width && |r| >= |s|
  {
    if |s| < width then Zeros(width - |s|) + s else s
  }

  /** The value of two digit strings written one after the other. */
  lemma {:induction false} DigitsValueConcat(a: string, b: string)
    requires AllDigits(a) && AllDigits(b)
    ensures AllDigits(a + b) && DigitsValue(a + b) == DigitsValue(a) * Pow10(|b|) + DigitsValue(b)
    decreases |b|
  {
    if b == [] {
      assert a + b == a;
    } else {
      var b' := b[..|b| - 1];
      assert (a + b)[..|a + b| - 1] == a + b';
      DigitsValueConcat(a, b');
    }
  }

  /**
   * `units / 10^scale` printed in fixed point with `scale` fractional digits,
   * as the device prints its readings: at least one digit before the point.
   */
  function FormatFixed(units: nat, scale: nat): (s: string)
    ensures |s| >= scale + 2
  {
    var d := PadZeros(NatToDigits(units), scale + 1);
    d[..|d| - scale] + "." + d[|d| - scale..]
  }

  /** The digits `FormatFixed` splits around the point spell out `units`. */
  lemma FixedDigits(units: nat, scale: nat, d: string)
    requires d == PadZeros(NatToDigits(units), scale + 1)
    ensures AllDigits(d) && DigitsValue(d) == units
  {
    var n := NatToDigits(units);
    if |n| < scale + 1 {
      LeadingZeros(Zeros(scale + 1 - |n|), n);
    }
  }

  /** An unsigned decimal with digits on both sides of the point. */
  lemma DecimalValue(w: string, fp: string)
    requires w != [] && AllDigits(w) && AllDigits(fp)
    ensures ParseUnsignedDecimal(w + ['.'] + fp) == Some(DecimalOf(w, fp))
  {
    var b := w + ['.'] + fp;
    BeforeAt(w, fp, '.');
    assert '.' in b by { assert b[|w|] == '.'; }
    assert After(b, '.') == fp;
  }

  /** A number that starts with a digit and ends without whitespace is read unsigned. */
  lemma UnsignedParseReal(s: string)
    requires s != [] && IsDigit(s[0]) && !IsSpace(s[|s| - 1])
    ensures ParseReal(s) == ParseUnsignedDecimal(s)
  {
    StripOfTrimmed(s);
  }

  /** `float("w.fp")` for digit strings `w` (not empty) and `fp`. */
  lemma ParsePointed(w: string, fp: string)
    requires w != [] && AllDigits(w) && AllDigits(fp)
    ensures ParseReal(w + ['.'] + fp) == Some(DecimalOf(w, fp))
  {
    var s := w + ['.'] + fp;
    assert s[0] == w[0];
    assert fp != [] ==> s[|s| - 1] == fp[|fp| - 1];
    UnsignedParseReal(s);
    DecimalValue(w, fp);
  }

  /** `FormatFixed` prints the digits of `units` around a point, `scale` of them after it. */
  lemma FixedParts(units: nat, scale: nat) returns (w: string, fp: string)
    ensures FormatFixed(units, scale) == w + ['.'] + fp
    ensures w != [] && AllDigits(w) && AllDigits(fp) && |fp| == scale
    ensures AllDigits(w + fp) && DigitsValue(w + fp) == units
  {
    var d := PadZeros(NatToDigits(units), scale + 1);
    FixedDigits(units, scale, d);
    var k := |d| - scale;
    w, fp := d[..k], d[k..];
    DigitsSplit(d, k);
  }

  lemma DigitsSplit(d: string, k: nat)
    requires AllDigits(d) && k <= |d|
    ensures AllDigits(d[..k]) && AllDigits(d[k..]) && d[..k] + d[k..] == d
  {
  }

  /** `float` reads back exactly the value that `FormatFixed` printed. */
  lemma {:induction false} ParseFormatFixed(units: nat, scale: nat)
    ensures ParseReal(FormatFixed(units, scale)) == Some(units as real / Pow10(scale) as real)
  {
    var w, fp := FixedParts(units, scale);
    ParsePointed(w, fp);
  }

  lemma {:induction false} BeforeAt(a: string, b: string, c: char)
    requires c !in a
    ensures Before(a + [c] + b, c) == a
    decreases |a|
  {
    if a != [] {
      assert (a + [c] + b)[1..] == a[1..] + [c] + b;
      BeforeAt(a[1..], b, c);
    }
  }

  /** Without a sign, `int` is the value of the digits that remain after stripping. */
  lemma UnsignedParseInt(s: string, n: nat)
    requires Strip(s) == s && s != [] && IsDigit(s[0]) && ParseDigits(s) == Some(n)
    ensures ParseInt(s) == Some(n as int)
  {
  }

  /** With a minus sign, `int` negates the value of the digits after it. */
  lemma NegativeParseInt(s: string, n: nat)
    requires Strip(s) == s && s != [] && s[0] == '-' && ParseDigits(s[1..]) == Some(n)
    ensures ParseInt(s) == Some(-(n as int))
  {
  }

  /** `int` reads back what `str` printed. */
  lemma {:induction false} ParseIntOfDigits(n: nat)
    ensures ParseInt(NatToDigits(n)) == Some(n as int)
  {
    var s := NatToDigits(n);
    StripOfTrimmed(s);
    UnsignedParseInt(s, n);
  }

  /** ... and a leading minus sign negates it. */
  lemma {:induction false} ParseIntOfNegated(n: nat)
    ensures ParseInt("-" + NatToDigits(n)) == Some(-(n as int))
  {
    var s := NatToDigits(n);
    var m := "-" + s;
    assert m[0] == '-' && m[|m| - 1] == s[|s| - 1];
    StripOfTrimmed(m);
    assert m[1..] == s;
    NegativeParseInt(m, n);
  }
}
