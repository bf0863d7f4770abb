/** Hexadecimal rendering as done by `Int32.ToString("x")`: lowercase digits,
    no padding, and the 32-bit two's complement for negative values. */
module Hex {

  predicate IsHexDigit(c: char) {
    '0' <= c <= '9' || 'a' <= c <= 'f' || 'A' <= c <= 'F'
  }

  predicate IsLowerHexDigit(c: char) {
    '0' <= c <= '9' || 'a' <= c <= 'f'
  }

  function HexDigit(d: nat): (c: char)
    requires d < 16
    ensures IsLowerHexDigit(c)
  {
    if d < 10 then ('0' as int + d) as char else ('a' as int + d - 10) as char
  }

  function DigitValue(c: char): (d: nat)
    requires IsHexDigit(c)
    ensures d < 16
  {
    if '0' <= c <= '9' then c as int - '0' as int
    else if 'a' <= c <= 'f' then c as int - 'a' as int + 10
    else c as int - 'A' as int + 10
  }

  lemma {:induction false} DigitValueOfHexDigit(d: nat)
    requires d < 16
    ensures DigitValue(HexDigit(d)) == d
  {
  }

  /** The value of a string of hexadecimal digits, most significant first. */
  function HexValue(s: string): nat
    requires forall i :: 0 <= i < |s| ==> IsHexDigit(s[i])
  {
    if s == [] then 0 else HexValue(s[..|s| - 1]) * 16 + DigitValue(s[|s| - 1])
  }

  /** Unpadded lowercase hexadecimal of `n`. */
  function ToHex(n: nat): (r: string)
    ensures |r| >= 1
    ensures forall i :: 0 <= i < |r| ==> IsLowerHexDigit(r[i])
  {
    if n < 16 then [HexDigit(n)] else ToHex(n / 16) + [HexDigit(n % 16)]
  }

  /** `ToHex` renders exactly `n`: reading the digits back gives `n`, and
      there is no leading zero except for zero itself. */
  lemma {:induction false} ToHexRoundTrip(n: nat)
    ensures HexValue(ToHex(n)) == n
    ensures ToHex(n)[0] == '0' <==> n == 0
  {
    var r := ToHex(n);
    if n < 16 {
      DigitValueOfHexDigit(n);
    } else {
      ToHexRoundTrip(n / 16);
      assert r[..|r| - 1] == ToHex(n / 16);
      DigitValueOfHexDigit(n % 16);
    }
  }

  function Pow16(k: nat): nat {
    if k == 0 then 1 else 16 * Pow16(k - 1)
  }

  /** A value below 16^k needs at most k digits (k >= 1). */
  lemma {:induction false} ToHexLength(n: nat, k: nat)
    requires k >= 1 && n < Pow16(k)
    ensures |ToHex(n)| <= k
  {
    if n >= 16 {
      assert k >= 2;
      assert n / 16 < Pow16(k - 1);
      ToHexLength(n / 16, k - 1);
    }
  }

  predicate IsInt32(x: int) {
    -0x8000_0000 <= x < 0x8000_0000
  }

  /** `Int32.ToString("x")`. */
  function Int32ToHex(x: int): string
    requires IsInt32(x)
  {
    ToHex(if x < 0 then x + 0x1_0000_0000 else x)
  }

  /** The rendering of a 32-bit integer has at most eight lowercase digits
      and reads back as the integer modulo 2^32. */
  lemma {:induction false} Int32ToHexFacts(x: int)
    requires IsInt32(x)
    ensures 1 <= |Int32ToHex(x)| <= 8
    ensures HexValue(Int32ToHex(x)) == x % 0x1_0000_0000
  {
    var n := if x < 0 then x + 0x1_0000_0000 else x;
    assert Pow16(8) == 0x1_0000_0000;
    ToHexLength(n, 8);
    ToHexRoundTrip(n);
  }
}
