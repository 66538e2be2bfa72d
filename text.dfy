/**
 * Hexadecimal digits as Python's `%x` formatting writes them and as
 * `int(t, 16)` reads them.
 */
module Hex {
  import opened Wrappers

  predicate IsHexDigit(c: char) {
    '0' <= c <= '9' || 'a' <= c <= 'f' || 'A' <= c <= 'F'
  }

  predicate IsLowerHexDigit(c: char) {
    '0' <= c <= '9' || 'a' <= c <= 'f'
  }

  /** The value of one hexadecimal digit, in either case. */
  function DigitValue(c: char): (v: nat)
    requires IsHexDigit(c)
    ensures v < 16
  {
    if '0' <= c <= '9' then c as int - '0' as int
    else if 'a' <= c <= 'f' then c as int - 'a' as int + 10
    else c as int - 'A' as int + 10
  }

  /** The lowercase digit `%x` writes for a value below sixteen. */
  function Digit(d: nat): (c: char)
    requires d < 16
    ensures IsLowerHexDigit(c) && DigitValue(c) == d
  {
    if d < 10 then ('0' as int + d) as char else ('a' as int + (d - 10)) as char
  }

  /** ASCII lowercasing, as `str.lower` does it on hexadecimal text. */
  function ToLower(c: char): char {
    if 'A' <= c <= 'Z' then (c as int + 32) as char else c
  }

  function Lower(s: string): (r: string)
    ensures |r| == |s|
    ensures forall i :: 0 <= i < |s| ==> r[i] == ToLower(s[i])
  {
    seq(|s|, i requires 0 <= i < |s| => ToLower(s[i]))
  }

  /** Writing back the value of a digit gives the digit in lowercase. */
  lemma DigitOfDigitValue(c: char)
    requires IsHexDigit(c)
    ensures Digit(DigitValue(c)) == ToLower(c)
  {
  }

  /** `'%x' % n` for a non-negative n: base sixteen, no leading zeros. */
  function Digits(n: nat): (s: string)
    ensures |s| >= 1
    ensures n >= 16 ==> |s| >= 2
    ensures n >= 256 ==> |s| >= 3
    ensures forall i :: 0 <= i < |s| ==> IsLowerHexDigit(s[i])
    decreases n
  {
    if n < 16 then [Digit(n)] else Digits(n / 16) + [Digit(n % 16)]
  }

  /**
   * `'%02x' % n`: padded with zeros to width two; a negative number keeps
   * its minus sign, which already makes it two characters wide.
   */
  function Format02(n: int): (s: string)
    ensures |s| >= 2
    ensures (n > 255 || n < -255) ==> |s| >= 3
    ensures n >= 0 ==> forall i :: 0 <= i < |s| ==> IsLowerHexDigit(s[i])
    ensures n < 0 ==> s[0] == '-' && forall i :: 1 <= i < |s| ==> IsLowerHexDigit(s[i])
  {
    if n < 0 then "-" + Digits(-n)
    else if n < 16 then ['0', Digit(n)]
    else Digits(n)
  }

  /** A value that fits in a byte is written as exactly two lowercase digits. */
  lemma Format02Byte(n: int)
    requires 0 <= n < 256
    ensures Format02(n) == [Digit(n / 16), Digit(n % 16)]
  {
    if n >= 16 {
      assert Digits(n / 16) == [Digit(n / 16)];
    }
  }

  predicate AllHexDigits(t: string) {
    forall i :: 0 <= i < |t| ==> IsHexDigit(t[i])
  }

  /** The number a run of hexadecimal digits denotes, most significant first. */
  function HexValue(t: string): nat
    requires AllHexDigits(t)
    decreases |t|
  {
    if t == [] then 0 else HexValue(t[..|t| - 1]) * 16 + DigitValue(t[|t| - 1])
  }

  /**
   * `int(t, 16)`: the value of a non-empty run of hexadecimal digits, and
   * None where Python raises ValueError (for the spellings this model accepts).
   */
  function ParseHex(t: string): (r: Option<nat>)
    ensures r.Some? <==> t != [] && AllHexDigits(t)
  {
    if t != [] && AllHexDigits(t) then Some(HexValue(t)) else None
  }

  /** Two digits are read back as sixteen times the first plus the second. */
  lemma ParseHexPair(a: char, b: char)
    requires IsHexDigit(a) && IsHexDigit(b)
    ensures ParseHex([a, b]) == Some(16 * DigitValue(a) + DigitValue(b))
  {
    assert AllHexDigits([a, b]);
    assert [a, b][..1] == [a];
    assert [a][..0] == [];
    assert HexValue([a]) == DigitValue(a);
    assert HexValue([a, b]) == HexValue([a]) * 16 + DigitValue(b);
  }
}

/** Whole numbers written as Python's `str` writes them. */
module Decimal {

  function DecimalDigit(d: nat): (c: char)
    requires d < 10
    ensures '0' <= c <= '9'
  {
    ('0' as int + d) as char
  }

  function NatToString(n: nat): (s: string)
    decreases n
  {
    if n < 10 then [DecimalDigit(n)] else NatToString(n / 10) + [DecimalDigit(n % 10)]
  }

  /** `str(n)`: a leading minus sign for negative numbers, then the digits. */
  function IntToString(n: int): string {
    if n < 0 then "-" + NatToString(-n) else NatToString(n)
  }

  /** Only digits and possibly a leading minus: never a comma or a quote. */
  lemma {:induction false} NatToStringDigits(n: nat)
    ensures |NatToString(n)| > 0
    ensures forall i :: 0 <= i < |NatToString(n)| ==> '0' <= NatToString(n)[i] <= '9'
    decreases n
  {
    if n >= 10 {
      NatToStringDigits(n / 10);
    }
  }
}
