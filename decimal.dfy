/**
 * Decimal digit strings and the small numeric grammar shared by PHP's
 * numeric strings (is_numeric, (float), (int)) and JavaScript's Number() and
 * parseFloat(): an optional sign, digits, an optional fraction.
 */
module Decimal {

  predicate IsDigit(c: char) {
    '0' <= c <= '9'
  }

  predicate AllDigits(s: string) {
    forall i :: 0 <= i < |s| ==> IsDigit(s[i])
  }

  function DigitValue(c: char): nat
    requires IsDigit(c)
  {
    c as int - '0' as int
  }

  function DigitChar(d: nat): (c: char)
    requires d < 10
    ensures IsDigit(c) && DigitValue(c) == d
  {
    ('0' as int + d) as char
  }

  /** The value of a digit string read most significant digit first. */
  function DigitsValue(s: string): nat
    requires AllDigits(s)
    decreases |s|
  {
    if s == [] then 0 else 10 * DigitsValue(s[..|s| - 1]) + DigitValue(s[|s| - 1])
  }

  function Pow10(n: nat): (r: nat)
    ensures r >= 1
  {
    if n == 0 then 1 else 10 * Pow10(n - 1)
  }

  /** n digits never reach 10^n: this is what keeps a fraction below one. */
  lemma {:induction false} DigitsBelowPow10(s: string)
    requires AllDigits(s)
    ensures DigitsValue(s) < Pow10(|s|)
  {
    if s != [] {
      DigitsBelowPow10(s[..|s| - 1]);
    }
  }

  /** The longest prefix of s made of digits. */
  function LeadingDigits(s: string): (r: string)
    ensures r <= s && AllDigits(r)
    ensures |r| < |s| ==> !IsDigit(s[|r|])
  {
    if s == [] || !IsDigit(s[0]) then [] else [s[0]] + LeadingDigits(s[1..])
  }

  lemma {:induction false} LeadingDigitsOfDigits(s: string)
    requires AllDigits(s)
    ensures LeadingDigits(s) == s
  {
    if s != [] {
      LeadingDigitsOfDigits(s[1..]);
    }
  }

  /** Canonical decimal notation of a natural number, as PHP prints an integer array key. */
  function NatToString(n: nat): (r: string)
    ensures |r| >= 1 && AllDigits(r)
    ensures DigitsValue(r) == n
    ensures r[0] == '0' ==> n == 0
    ensures |r| > 1 ==> r[0] != '0'
  {
    if n < 10 then [DigitChar(n)]
    else
      var p := NatToString(n / 10);
      var r := p + [DigitChar(n % 10)];
      assert r[..|r| - 1] == p;
      r
  }

  predicate HasSign(s: string) {
    |s| > 0 && (s[0] == '+' || s[0] == '-')
  }

  function Unsigned(s: string): (t: string)
    ensures |t| <= |s|
  {
    if HasSign(s) then s[1..] else s
  }

  function Sign(s: string): int {
    if |s| > 0 && s[0] == '-' then -1 else 1
  }

  /** Digits, optionally followed by '.' and more digits, with at least one digit in all. */
  predicate IsUnsignedDecimal(t: string) {
    var ip := LeadingDigits(t);
    var rest := t[|ip|..];
    if rest == [] then |ip| >= 1
    else rest[0] == '.' && AllDigits(rest[1..]) && |ip| + |rest| >= 2
  }

  /** The digits after the decimal point, or the empty string. */
  function Fraction(t: string): (f: string)
    requires IsUnsignedDecimal(t)
    ensures AllDigits(f)
  {
    var ip := LeadingDigits(t);
    var rest := t[|ip|..];
    if rest == [] then [] else rest[1..]
  }

  function FractionValue(f: string): (v: real)
    requires AllDigits(f)
    ensures 0.0 <= v < 1.0
  {
    DigitsBelowPow10(f);
    BelowOne(DigitsValue(f) as real, Pow10(|f|) as real);
    DigitsValue(f) as real / Pow10(|f|) as real
  }

  lemma BelowOne(d: real, p: real)
    requires 0.0 <= d < p
    ensures 0.0 <= d / p < 1.0
  {
    var q := d / p;
    assert q * p == d;
  }

  predicate IsDecimal(s: string) {
    IsUnsignedDecimal(Unsigned(s))
  }

  /** The exact value a decimal string denotes. */
  function DecimalValue(s: string): real
    requires IsDecimal(s)
  {
    var t := Unsigned(s);
    Sign(s) as real * (DigitsValue(LeadingDigits(t)) as real + FractionValue(Fraction(t)))
  }

  /** The integer part with its sign: the decimal truncated toward zero. */
  function IntegerPart(s: string): int
    requires IsDecimal(s)
  {
    Sign(s) * DigitsValue(LeadingDigits(Unsigned(s)))
  }

  /** Only a leading minus sign makes a decimal negative. */
  lemma DecimalSign(s: string)
    requires IsDecimal(s)
    ensures s[0] == '-' ==> DecimalValue(s) <= 0.0
    ensures s[0] != '-' ==> DecimalValue(s) >= 0.0
  {
    var t := Unsigned(s);
    var m := DigitsValue(LeadingDigits(t)) as real + FractionValue(Fraction(t));
    assert m >= 0.0;
    if s[0] == '-' {
      assert DecimalValue(s) == -m;
    } else {
      assert DecimalValue(s) == m;
    }
  }

  /** IntegerPart truncates DecimalValue toward zero. */
  lemma IntegerPartTruncates(s: string)
    requires IsDecimal(s)
    ensures DecimalValue(s) >= 0.0 ==> IntegerPart(s) as real <= DecimalValue(s) < IntegerPart(s) as real + 1.0
    ensures DecimalValue(s) < 0.0 ==> IntegerPart(s) as real - 1.0 < DecimalValue(s) <= IntegerPart(s) as real
    ensures IntegerPart(s) > 0 <==> DecimalValue(s) >= 1.0
  {
    var t := Unsigned(s);
    var f := FractionValue(Fraction(t));
    var ip: int := DigitsValue(LeadingDigits(t));
    assert 0.0 <= f < 1.0;
    if Sign(s) == -1 {
      assert DecimalValue(s) == -(ip as real + f);
      assert IntegerPart(s) == -ip;
    } else {
      assert DecimalValue(s) == ip as real + f;
      assert IntegerPart(s) == ip;
    }
  }
  /**
   * The characters of an unsigned decimal, without reference to the grammar:
   * digits and '.', at most one '.', and at least one digit.
   */
  predicate NumericText(t: string) {
    && (forall i :: 0 <= i < |t| ==> IsDigit(t[i]) || t[i] == '.')
    && (forall i, j :: 0 <= i < j < |t| && t[i] == '.' ==> t[j] != '.')
    && (exists i :: 0 <= i < |t| && IsDigit(t[i]))
  }

  /** The grammar of an unsigned decimal accepts exactly the strings of NumericText. */
  lemma UnsignedDecimalText(t: string)
    ensures IsUnsignedDecimal(t) <==> NumericText(t)
  {
    if IsUnsignedDecimal(t) {
      DecimalIsText(t);
    }
    if NumericText(t) {
      TextIsDecimal(t);
    }
  }

  lemma DecimalIsText(t: string)
    requires IsUnsignedDecimal(t)
    ensures NumericText(t)
  {
    var ip := LeadingDigits(t);
    var rest := t[|ip|..];
    assert t == ip + rest;
    forall i | 0 <= i < |t| && i != |ip|
      ensures IsDigit(t[i])
    {
      if i < |ip| {
        assert t[i] == ip[i];
      } else {
        assert t[i] == rest[1..][i - |ip| - 1];
      }
    }
    if |ip| >= 1 {
      assert IsDigit(t[0]);
    } else {
      assert IsDigit(t[1]);
    }
  }

  lemma TextIsDecimal(t: string)
    requires NumericText(t)
    ensures IsUnsignedDecimal(t)
  {
    var ip := LeadingDigits(t);
    var rest := t[|ip|..];
    var d :| 0 <= d < |t| && IsDigit(t[d]);
    if rest != [] {
      assert t[|ip|] == rest[0];
      assert rest[0] == '.';
      forall i | 0 <= i < |rest[1..]|
        ensures IsDigit(rest[1..][i])
      {
        assert rest[1..][i] == t[|ip| + 1 + i];
      }
      assert d != |ip|;
    }
  }

  /** Digits read in sequence: the first part shifted left by the length of the second. */
  lemma {:induction false} DigitsConcat(a: string, b: string)
    requires AllDigits(a) && AllDigits(b)
    ensures AllDigits(a + b)
    ensures DigitsValue(a + b) == DigitsValue(a) * Pow10(|b|) + DigitsValue(b)
    decreases |b|
  {
    assert forall i :: 0 <= i < |a + b| ==> (a + b)[i] == if i < |a| then a[i] else b[i - |a|];
    if b == [] {
      assert a + b == a;
    } else {
      var b' := b[..|b| - 1];
      var c := b[|b| - 1];
      assert (a + b)[..|a + b| - 1] == a + b';
      DigitsConcat(a, b');
      ShiftDigit(DigitsValue(a), Pow10(|b'|), DigitsValue(b'), DigitValue(c));
    }
  }

  lemma ShiftDigit(x: int, p: int, y: int, d: int)
    ensures 10 * (x * p + y) + d == x * (10 * p) + (10 * y + d)
  {
  }

  /** v is the integer n divided by the power of ten p. */
  predicate ScaledBy(v: real, p: nat, n: int) {
    v * p as real == n as real
  }

  /** A decimal is its digits with the point removed, divided by ten to the number of fraction digits. */
  lemma DecimalScaled(s: string)
    requires IsDecimal(s)
    ensures var t := Unsigned(s);
      ScaledBy(DecimalValue(s), Pow10(|Fraction(t)|), Sign(s) * DigitsValue(LeadingDigits(t) + Fraction(t)))
  {
    var t := Unsigned(s);
    var ip, f := LeadingDigits(t), Fraction(t);
    var sg, w, d, p := Sign(s), DigitsValue(ip), DigitsValue(f), Pow10(|f|);
    var fr := FractionValue(f);
    var v := DecimalValue(s);
    assert v == sg as real * (w as real + fr);
    DigitsConcat(ip, f);
    FractionScaled(f);
    ScaleBack(sg, w, d, p, DigitsValue(ip + f), fr, v);
  }

  lemma FractionScaled(f: string)
    requires AllDigits(f)
    ensures ScaledBy(FractionValue(f), Pow10(|f|), DigitsValue(f))
  {
    var d, p := DigitsValue(f) as real, Pow10(|f|) as real;
    assert d / p * p == d;
  }

  lemma ScaleBack(sg: int, w: int, d: int, p: nat, n: int, fr: real, v: real)
    requires p > 0 && n == w * p + d
    requires ScaledBy(fr, p, d)
    requires v == sg as real * (w as real + fr)
    ensures ScaledBy(v, p, sg * n)
  {
    assert (w * p) as real == w as real * p as real;
    assert (sg * n) as real == sg as real * n as real;
  }

  /** A digit string reads as zero exactly when every digit is '0'. */
  lemma {:induction false} DigitsZero(f: string)
    requires AllDigits(f)
    ensures DigitsValue(f) == 0 <==> forall i :: 0 <= i < |f| ==> f[i] == '0'
    decreases |f|
  {
    if f != [] {
      var front := f[..|f| - 1];
      DigitsZero(front);
      assert forall i :: 0 <= i < |front| ==> front[i] == f[i];
    }
  }

  /** A fraction contributes nothing exactly when all its digits are '0'. */
  lemma FractionZero(f: string)
    requires AllDigits(f)
    ensures FractionValue(f) == 0.0 <==> forall i :: 0 <= i < |f| ==> f[i] == '0'
  {
    DigitsZero(f);
    var d, p := DigitsValue(f) as real, Pow10(|f|) as real;
    assert d / p * p == d;
  }

  /** A real with no fractional part. */
  predicate IsWhole(x: real) {
    x == x.Floor as real
  }

  /** A signed whole number plus a fraction below one is whole exactly when the fraction is zero. */
  lemma WholeIff(x: real, sg: int, w: int, fr: real)
    requires sg == 1 || sg == -1
    requires 0.0 <= fr < 1.0
    requires x == sg as real * (w as real + fr)
    ensures IsWhole(x) <==> fr == 0.0
  {
    var k := x.Floor;
    if sg == 1 {
      assert x == w as real + fr;
      if x == k as real {
        assert fr == (k - w) as real;
      }
    } else {
      assert x == -(w as real + fr);
      if x == k as real {
        assert fr == (-k - w) as real;
      }
    }
    if fr == 0.0 {
      assert x == (sg * w) as real;
    }
  }
}
