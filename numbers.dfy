/**
 * Decimal text and numbers: Python's `float()` applied to a run of digits and dots
 * (the only strings the bounds scanner hands it), and `%d` applied to a grid size.
 * Values are exact reals; binary floating-point rounding is not modelled.
 */
module Numbers {
  import opened Wrappers

  predicate IsDigit(c: char) { '0' <= c <= '9' }

  predicate IsDigits(s: string) { forall k :: 0 <= k < |s| ==> IsDigit(s[k]) }

  function DigitValue(c: char): nat
    requires IsDigit(c)
  {
    c as int - '0' as int
  }

  function DigitChar(d: nat): (c: char)
    requires d < 10
    ensures IsDigit(c) && DigitValue(c) == d
  {
    ('0' as int + d) as char
  }

  /** The value of a string of decimal digits, most significant first ("" is 0). */
  function DigitsValue(s: string): nat
    requires IsDigits(s)
    decreases |s|
  {
    if |s| == 0 then 0 else 10 * DigitsValue(s[..|s| - 1]) + DigitValue(s[|s| - 1])
  }

  function Pow10(n: nat): (p: nat)
    ensures p >= 1
  {
    if n == 0 then 1 else 10 * Pow10(n - 1)
  }

  /** Index of the first '.', or |s| when there is none. */
  function DotPos(s: string): (k: nat)
    ensures k <= |s|
    ensures k < |s| ==> s[k] == '.'
    ensures forall j :: 0 <= j < k ==> s[j] != '.'
    decreases |s|
  {
    if |s| == 0 || s[0] == '.' then 0 else 1 + DotPos(s[1..])
  }

  /** The integer part and the fraction digits of s around its first dot. */
  function WholePart(s: string): string { s[..DotPos(s)] }

  function FractionPart(s: string): string
  {
    if DotPos(s) < |s| then s[DotPos(s) + 1..] else ""
  }

  /** The value of the decimal numeral whole.frac. */
  function FixedValue(whole: string, frac: string): (v: real)
    requires IsDigits(whole) && IsDigits(frac)
    ensures v >= 0.0
  {
    DigitsValue(whole) as real + DigitsValue(frac) as real / Pow10(|frac|) as real
  }

  /** `float(s)` for s over [0-9.]: digits, optionally a dot and more digits, at
      least one digit in all ("7", "7.", ".5", "12.25"); anything else, such as
      "." or "1.2.3", makes `float` raise ValueError, here None. */
  function ParseNumber(s: string): (r: Option<real>)
    ensures r.Some? ==> r.value >= 0.0
  {
    var whole, frac := WholePart(s), FractionPart(s);
    if IsDigits(whole) && IsDigits(frac) && |whole| + |frac| > 0 then
      Some(FixedValue(whole, frac))
    else
      None
  }

  /** `"%d" % n` for a non-negative n. */
  function Decimal(n: nat): (s: string)
    ensures |s| >= 1 && IsDigits(s)
    decreases n
  {
    if n < 10 then [DigitChar(n)] else Decimal(n / 10) + [DigitChar(n % 10)]
  }

  /** Reading back what `%d` wrote gives the number. */
  lemma {:induction false} DecimalRoundTrip(n: nat)
    ensures DigitsValue(Decimal(n)) == n
    decreases n
  {
    if n >= 10 {
      var s := Decimal(n);
      DecimalRoundTrip(n / 10);
      assert s[..|s| - 1] == Decimal(n / 10);
    }
  }

  /** A digit string has no dot: it is all whole part. */
  lemma DigitsParts(s: string)
    requires IsDigits(s)
    ensures WholePart(s) == s && FractionPart(s) == ""
  {
  }

  /** `float` accepts `%d` output and returns the same number. */
  lemma ParseDecimal(n: nat)
    ensures ParseNumber(Decimal(n)) == Some(n as real)
  {
    ParseInteger(Decimal(n));
    DecimalRoundTrip(n);
  }

  /** A non-empty digit string is read as its decimal value. */
  lemma ParseInteger(a: string)
    requires IsDigits(a) && |a| > 0
    ensures ParseNumber(a) == Some(DigitsValue(a) as real)
  {
    DigitsParts(a);
    assert FixedValue(a, "") == DigitsValue(a) as real;
  }

  /** The dot of "a.b" is the one after a. */
  lemma FixedPointParts(a: string, b: string)
    requires IsDigits(a)
    ensures WholePart(a + "." + b) == a && FractionPart(a + "." + b) == b
  {
    var s := a + "." + b;
    DigitsParts(a);
    assert DotPos(s) == |a| by {
      assert s[|a|] == '.';
    }
  }

  /** A fixed-point string "a.b" is read as a + b / 10^|b|: "12.25" is 12.25, "7." is 7, ".5" is 0.5. */
  lemma ParseFixedPoint(a: string, b: string)
    requires IsDigits(a) && IsDigits(b) && |a| + |b| > 0
    ensures ParseNumber(a + "." + b) == Some(FixedValue(a, b))
  {
    FixedPointParts(a, b);
  }

  /** A run holding two dots is not a number: "1.2.3" and ".." make `float` raise. */
  lemma TwoDotsRejected(s: string, i: nat, j: nat)
    requires i < j < |s| && s[i] == '.' && s[j] == '.'
    ensures ParseNumber(s) == None
  {
    var k := DotPos(s);
    assert k <= i;
    var frac := FractionPart(s);
    assert frac[j - k - 1] == '.';
  }

  /** A run without any digit, such as ".", is not a number either. */
  lemma NoDigitRejected(s: string)
    requires forall k :: 0 <= k < |s| ==> !IsDigit(s[k])
    ensures ParseNumber(s) == None
  {
    var whole, frac := WholePart(s), FractionPart(s);
    if |whole| > 0 {
      assert !IsDigit(whole[0]);
    } else if |frac| > 0 {
      assert !IsDigit(frac[0]);
    }
  }
}
