/** The digit rendering of the `printf` conversions the generators use:
    `%d` and `%2d`/`%3ld` (decimal, space padded), `%04o` (octal, at least four
    digits) and `%08x` (hexadecimal, at least eight digits). */
module Numerals {

  datatype Radix = Octal | Decimal | Hex {

    function Base(): nat {
      match this
      case Octal => 8
      case Decimal => 10
      case Hex => 16
    }
  }

  /** `%o` and `%x` read their `int` argument as an `unsigned int`, which is
      32 bits wide on the platforms in scope. */
  const UIntModulus: nat := 0x1_0000_0000

  function DigitChar(d: nat): char
    requires d < 16
  {
    "0123456789abcdef"[d]
  }

  predicate IsDigit(c: char, radix: Radix) {
    exists d :: 0 <= d < radix.Base() && DigitChar(d) == c
  }

  function DigitValue(c: char): nat {
    if '0' <= c <= '9' then (c - '0') as nat
    else if 'a' <= c <= 'f' then (c - 'a') as nat + 10
    else 0
  }

  lemma DigitValueOfChar(d: nat)
    requires d < 16
    ensures DigitValue(DigitChar(d)) == d
  {
  }

  /** The value of a digit string, most significant digit first. */
  function Parse(s: string, radix: Radix): nat {
    if s == [] then 0
    else Parse(s[..|s| - 1], radix) * radix.Base() + DigitValue(s[|s| - 1])
  }

  /** The digits of `n` without leading zeros ("0" for zero). */
  function Digits(n: nat, radix: Radix): (s: string)
    ensures |s| >= 1
    ensures forall i :: 0 <= i < |s| ==> IsDigit(s[i], radix)
    ensures s[0] == '0' ==> n == 0
  {
    if n < radix.Base() then
      assert DigitChar(n) == [DigitChar(n)][0];
      [DigitChar(n)]
    else
      var last := n % radix.Base();
      assert IsDigit(DigitChar(last), radix);
      Digits(n / radix.Base(), radix) + [DigitChar(last)]
  }

  /** Rendering then parsing gives the number back. */
  lemma {:induction false} ParseDigits(n: nat, radix: Radix)
    ensures Parse(Digits(n, radix), radix) == n
  {
    var b := radix.Base();
    if n < b {
      DigitValueOfChar(n);
    } else {
      var s := Digits(n / b, radix);
      var last := n % b;
      assert Digits(n, radix) == s + [DigitChar(last)];
      assert (s + [DigitChar(last)])[..|s|] == s;
      ParseDigits(n / b, radix);
      DigitValueOfChar(last);
    }
  }

  /** `s` preceded by `fill` up to `width` characters. */
  function PadLeft(s: string, width: nat, fill: char): (r: string)
    ensures |r| == if |s| >= width then |s| else width
    ensures r[|r| - |s|..] == s
    ensures forall i :: 0 <= i < |r| - |s| ==> r[i] == fill
    decreases width - |s|
  {
    if |s| >= width then s else PadLeft([fill] + s, width, fill)
  }

  /** A leading zero does not change a numeral's value. */
  lemma {:induction false} ParseLeadingZero(s: string, radix: Radix)
    ensures Parse(['0'] + s, radix) == Parse(s, radix)
  {
    if s != [] {
      var t := s[..|s| - 1];
      assert (['0'] + s)[..|['0'] + s| - 1] == ['0'] + t;
      ParseLeadingZero(t, radix);
    }
  }

  /** Zero padding does not change a numeral's value. */
  lemma {:induction false} ParseZeroPadded(s: string, width: nat, radix: Radix)
    ensures Parse(PadLeft(s, width, '0'), radix) == Parse(s, radix)
    decreases width - |s|
  {
    if |s| < width {
      ParseZeroPadded(['0'] + s, width, radix);
      ParseLeadingZero(s, radix);
    }
  }

  /** `%d` of an `int`. */
  function SignedDecimal(v: int): string {
    if v < 0 then "-" + Digits(-v, Decimal) else Digits(v, Decimal)
  }

  /** The inverse of `SignedDecimal`. */
  function ParseSigned(s: string): int {
    if |s| > 0 && s[0] == '-' then 0 - Parse(s[1..], Decimal) else Parse(s, Decimal)
  }

  lemma SignedDecimalRoundTrip(v: int)
    ensures ParseSigned(SignedDecimal(v)) == v
  {
    if v < 0 {
      NegativeRoundTrip(v);
    } else {
      NonNegativeRoundTrip(v);
    }
  }

  lemma NegativeRoundTrip(v: int)
    requires v < 0
    ensures ParseSigned("-" + Digits(-v, Decimal)) == v
  {
    var d := Digits(-v, Decimal);
    assert ("-" + d)[1..] == d;
    ParseDigits(-v, Decimal);
  }

  /** A numeral of digits never starts with a minus sign. */
  lemma NonNegativeRoundTrip(v: nat)
    ensures ParseSigned(Digits(v, Decimal)) == v
  {
    var d := Digits(v, Decimal);
    assert IsDigit(d[0], Decimal);
    ParseDigits(v, Decimal);
  }

  /** Padding digits with zeros leaves only digits. */
  lemma ZeroPaddedDigits(d: string, width: nat, radix: Radix)
    requires forall i :: 0 <= i < |d| ==> IsDigit(d[i], radix)
    ensures forall i :: 0 <= i < |PadLeft(d, width, '0')| ==> IsDigit(PadLeft(d, width, '0')[i], radix)
  {
    var s := PadLeft(d, width, '0');
    assert IsDigit('0', radix) by {
      assert DigitChar(0) == '0';
    }
    forall i | 0 <= i < |s|
      ensures IsDigit(s[i], radix)
    {
      if i >= |s| - |d| {
        assert s[i] == s[|s| - |d|..][i - (|s| - |d|)];
      }
    }
  }

  /** `%0<width>o` / `%0<width>x` of an `int`: the unsigned reading of its 32
      bits, zero padded to at least `width` digits. */
  function UnsignedPadded(v: int, radix: Radix, width: nat): (s: string)
    ensures var n := |Digits(v % UIntModulus, radix)|; |s| == if n >= width then n else width
    ensures forall i :: 0 <= i < |s| - |Digits(v % UIntModulus, radix)| ==> s[i] == '0'
    ensures s[|s| - |Digits(v % UIntModulus, radix)|..] == Digits(v % UIntModulus, radix)
    ensures forall i :: 0 <= i < |s| ==> IsDigit(s[i], radix)
    ensures Parse(s, radix) == v % UIntModulus
  {
    var d := Digits(v % UIntModulus, radix);
    ParseDigits(v % UIntModulus, radix);
    ParseZeroPadded(d, width, radix);
    ZeroPaddedDigits(d, width, radix);
    PadLeft(d, width, '0')
  }

  /** `%<width>d`: the signed decimal, space padded to at least `width`. */
  function SpacedDecimal(v: int, width: nat): (s: string)
    ensures |s| == if |SignedDecimal(v)| >= width then |SignedDecimal(v)| else width
    ensures forall i :: 0 <= i < |s| - |SignedDecimal(v)| ==> s[i] == ' '
    ensures s[|s| - |SignedDecimal(v)|..] == SignedDecimal(v)
  {
    PadLeft(SignedDecimal(v), width, ' ')
  }
}
