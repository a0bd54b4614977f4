/**
 * Decimal and hexadecimal text of natural numbers: Python's `str(n)`, the
 * zero-padded fields of `strftime`, `uuid.hex` and `str(ObjectId)`, and the
 * digit values the parsers of `int()` read back.
 */
module Numerals {

  function Pow(base: nat, n: nat): (p: nat)
    ensures base > 0 ==> p > 0
  {
    if n == 0 then 1 else base * Pow(base, n - 1)
  }

  // ---------------------------------------------------------------- decimal

  predicate IsDigit(c: char) {
    '0' <= c <= '9'
  }

  predicate AllDigits(s: string) {
    forall i :: 0 <= i < |s| ==> IsDigit(s[i])
  }

  function DigitChar(d: nat): (c: char)
    requires d < 10
    ensures IsDigit(c)
  {
    ('0' as int + d) as char
  }

  function DigitValue(c: char): (d: nat)
    requires IsDigit(c)
    ensures d < 10 && DigitChar(d) == c
  {
    c as int - '0' as int
  }

  /** The value of a string of decimal digits (the empty string reads as 0). */
  function DecimalValue(s: string): nat
    requires AllDigits(s)
  {
    if s == [] then 0 else 10 * DecimalValue(s[..|s| - 1]) + DigitValue(s[|s| - 1])
  }

  /** Python's `str(n)` for a natural number: no sign, no leading zero. */
  function DecimalText(n: nat): string {
    if n < 10 then [DigitChar(n)] else DecimalText(n / 10) + [DigitChar(n % 10)]
  }

  /** The text is a non-empty run of digits with no leading zero. */
  lemma {:induction false} DecimalTextShape(n: nat)
    ensures var s := DecimalText(n);
      0 < |s| && AllDigits(s) && (|s| > 1 ==> s[0] != '0')
  {
    if n >= 10 {
      DecimalTextShape(n / 10);
    }
  }

  /** Python's `str(i)` for any integer. */
  function IntText(i: int): string {
    if i < 0 then "-" + DecimalText(-i) else DecimalText(i)
  }

  lemma {:induction false} DecimalRoundTrip(n: nat)
    ensures AllDigits(DecimalText(n)) && DecimalValue(DecimalText(n)) == n
  {
    DecimalTextShape(n);
    if n >= 10 {
      var s := DecimalText(n);
      assert s[..|s| - 1] == DecimalText(n / 10);
      DecimalRoundTrip(n / 10);
    }
  }

  /** A number below 10^k has at most k decimal digits. */
  lemma {:induction false} DecimalTextLength(n: nat, k: nat)
    requires 0 < k && n < Pow(10, k)
    ensures |DecimalText(n)| <= k
  {
    if n >= 10 {
      assert k > 1;
      DecimalTextLength(n / 10, k - 1);
    }
  }

  function Zeros(n: nat): string {
    seq(n, _ => '0')
  }

  lemma {:induction false} LeadingZerosAddNothing(z: nat, s: string)
    requires AllDigits(s)
    ensures AllDigits(Zeros(z) + s) && DecimalValue(Zeros(z) + s) == DecimalValue(s)
    decreases |s|
  {
    var t := Zeros(z) + s;
    if s == [] {
      assert t == Zeros(z);
      ZerosValue(z);
    } else {
      assert t[..|t| - 1] == Zeros(z) + s[..|s| - 1];
      LeadingZerosAddNothing(z, s[..|s| - 1]);
    }
  }

  lemma {:induction false} ZerosValue(z: nat)
    ensures AllDigits(Zeros(z)) && DecimalValue(Zeros(z)) == 0
  {
    if z > 0 {
      assert Zeros(z)[..z - 1] == Zeros(z - 1);
      ZerosValue(z - 1);
    }
  }

  /** `n` zero-padded on the left to at least `width` digits, as `%02d` or strftime's `%m`. */
  function Padded(n: nat, width: nat): (r: string)
    ensures width <= |r|
  {
    var d := DecimalText(n);
    if |d| >= width then d else Zeros(width - |d|) + d
  }

  /** The padded text is all digits, at least `width` long, and reads back as `n`. */
  lemma PaddedShape(n: nat, width: nat)
    ensures var s := Padded(n, width);
      && |s| == (if |DecimalText(n)| >= width then |DecimalText(n)| else width)
      && AllDigits(s) && DecimalValue(s) == n
  {
    var d := DecimalText(n);
    DecimalRoundTrip(n);
    if |d| < width {
      LeadingZerosAddNothing(width - |d|, d);
    }
  }

  lemma PaddedLength(n: nat, width: nat)
    requires 0 < width && n < Pow(10, width)
    ensures |Padded(n, width)| == width
  {
    DecimalTextLength(n, width);
  }

  // ------------------------------------------------------------ hexadecimal

  predicate IsHexChar(c: char) {
    IsDigit(c) || 'a' <= c <= 'f'
  }

  predicate AllHex(s: string) {
    forall i :: 0 <= i < |s| ==> IsHexChar(s[i])
  }

  function HexChar(d: nat): (c: char)
    requires d < 16
    ensures IsHexChar(c)
  {
    if d < 10 then DigitChar(d) else ('a' as int + d - 10) as char
  }

  function HexDigitValue(c: char): (d: nat)
    requires IsHexChar(c)
    ensures d < 16 && HexChar(d) == c
  {
    if IsDigit(c) then DigitValue(c) else c as int - 'a' as int + 10
  }

  /** The lowest `width` hexadecimal digits of `v`, lower case, zero-padded (`'%0*x' % (width, v)`). */
  function HexDigits(v: nat, width: nat): string {
    if width == 0 then "" else HexDigits(v / 16, width - 1) + [HexChar(v % 16)]
  }

  /** Exactly `width` hexadecimal digits. */
  lemma {:induction false} HexDigitsShape(v: nat, width: nat)
    ensures |HexDigits(v, width)| == width && AllHex(HexDigits(v, width))
  {
    if width > 0 {
      HexDigitsShape(v / 16, width - 1);
    }
  }

  function HexValue(s: string): nat
    requires AllHex(s)
  {
    if s == [] then 0 else 16 * HexValue(s[..|s| - 1]) + HexDigitValue(s[|s| - 1])
  }

  /** A value that fits in `width` hexadecimal digits is read back exactly. */
  lemma {:induction false} HexRoundTrip(v: nat, width: nat)
    requires v < Pow(16, width)
    ensures AllHex(HexDigits(v, width)) && HexValue(HexDigits(v, width)) == v
  {
    HexDigitsShape(v, width);
    if width > 0 {
      var s := HexDigits(v, width);
      assert s[..|s| - 1] == HexDigits(v / 16, width - 1);
      HexRoundTrip(v / 16, width - 1);
    }
  }
}
