/** Fixed-width hexadecimal text, as the harness prints it with std::hex and std::setw
    (zero fill) for CRC lines, and as it prints bytes in hex dumps. */
module Hex {
  function Pow16(n: nat): (p: nat)
    ensures p >= 1
  {
    if n == 0 then 1 else 16 * Pow16(n - 1)
  }

  predicate IsHexDigit(c: char)
  {
    '0' <= c <= '9' || 'a' <= c <= 'f' || 'A' <= c <= 'F'
  }

  predicate IsHex(s: string)
  {
    forall i :: 0 <= i < |s| ==> IsHexDigit(s[i])
  }

  function DigitValue(c: char): (d: nat)
    requires IsHexDigit(c)
    ensures d < 16
  {
    if '0' <= c <= '9' then c as int - '0' as int
    else if 'a' <= c <= 'f' then c as int - 'a' as int + 10
    else c as int - 'A' as int + 10
  }

  /** The digit for d, upper or lower case. */
  function HexDigit(d: nat, upper: bool): (c: char)
    requires d < 16
    ensures IsHexDigit(c) && DigitValue(c) == d
    ensures d >= 10 ==> (upper <==> 'A' <= c <= 'F')
  {
    if d < 10 then ('0' as int + d) as char
    else if upper then ('A' as int + d - 10) as char
    else ('a' as int + d - 10) as char
  }

  /** The number a string of hexadecimal digits denotes, most significant digit first. */
  function HexValue(s: string): (v: nat)
    requires IsHex(s)
    ensures v < Pow16(|s|)
  {
    if s == [] then 0 else 16 * HexValue(s[..|s| - 1]) + DigitValue(s[|s| - 1])
  }

  /** v written in exactly `width` digits, zero filled on the left: reading the digits back
      gives v again. */
  function HexFixed(v: nat, width: nat, upper: bool): (s: string)
    requires v < Pow16(width)
    ensures |s| == width
    ensures IsHex(s) && HexValue(s) == v
  {
    if width == 0 then ""
    else
      var prefix := HexFixed(v / 16, width - 1, upper);
      var s := prefix + [HexDigit(v % 16, upper)];
      assert s[..|s| - 1] == prefix;
      s
  }

  /** Two numbers of the same width print the same way only if they are equal. */
  lemma {:induction false} HexFixedInjective(v: nat, w: nat, width: nat, upper: bool)
    requires v < Pow16(width) && w < Pow16(width)
    ensures HexFixed(v, width, upper) == HexFixed(w, width, upper) <==> v == w
  {
    if HexFixed(v, width, upper) == HexFixed(w, width, upper) {
      assert HexValue(HexFixed(v, width, upper)) == HexValue(HexFixed(w, width, upper));
    }
  }
}
