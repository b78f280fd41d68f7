/**
 * The string conversions the port code relies on: `hex(b)[2:].zfill(2)` for
 * EEPROM bytes and `str(n)` for i2c bus numbers, each with its inverse.
 */
module Text {

  type Byte = b: int | 0 <= b < 256

  /** The placeholder the byte reader starts every entry with. */
  const Placeholder: string := "0x00"

  function HexDigit(d: nat): (c: char)
    requires d < 16
    ensures IsLowerHexDigit(c) && HexDigitValue(c) == d
  {
    if d < 10 then ('0' as int + d) as char else ('a' as int + d - 10) as char
  }

  predicate IsLowerHexDigit(c: char) {
    '0' <= c <= '9' || 'a' <= c <= 'f'
  }

  function HexDigitValue(c: char): (d: nat)
    requires IsLowerHexDigit(c)
    ensures d < 16
  {
    if c <= '9' then c as int - '0' as int else c as int - 'a' as int + 10
  }

  /** `hex(n)[2:]`: the lower-case hexadecimal digits of n, without leading zeros ("0" for zero). */
  function HexDigits(n: nat): string
    decreases n
  {
    if n < 16 then [HexDigit(n)] else HexDigits(n / 16) + [HexDigit(n % 16)]
  }

  /** `s.zfill(width)` for a string without sign: pad on the left with '0' up to width. */
  function ZFill(s: string, width: nat): (r: string)
    ensures |r| == if |s| >= width then |s| else width
    ensures r[|r| - |s|..] == s
    ensures forall i :: 0 <= i < |r| - |s| ==> r[i] == '0'
  {
    if |s| >= width then s else seq(width - |s|, _ => '0') + s
  }

  /** `int(s, 16)` for a string of lower-case hexadecimal digits. */
  function ParseHex(s: string): nat
    requires forall i :: 0 <= i < |s| ==> IsLowerHexDigit(s[i])
  {
    if s == [] then 0 else 16 * ParseHex(s[..|s| - 1]) + HexDigitValue(s[|s| - 1])
  }

  /** Two digits parse to 16 * high + low. */
  lemma HexPairValue(hi: nat, lo: nat)
    requires hi < 16 && lo < 16
    ensures ParseHex([HexDigit(hi), HexDigit(lo)]) == 16 * hi + lo
  {
    var s := [HexDigit(hi), HexDigit(lo)];
    assert s[..1] == [HexDigit(hi)] && s[..1][..0] == [];
    assert ParseHex(s[..1]) == 16 * ParseHex([]) + HexDigitValue(HexDigit(hi)) == hi;
    assert ParseHex(s) == 16 * ParseHex(s[..1]) + HexDigitValue(HexDigit(lo));
  }

  /** Padding the digits of a byte to width two gives its high and low digit. */
  lemma ZFillByteDigits(b: Byte)
    ensures ZFill(HexDigits(b), 2) == [HexDigit(b / 16), HexDigit(b % 16)]
  {
    if b < 16 {
      assert HexDigit(0) == '0';
    } else {
      assert HexDigits(b / 16) == [HexDigit(b / 16)];
    }
  }

  /**
   * How the reader renders one byte read from the EEPROM: `hex(b)[2:].zfill(2)`.
   * Always two lower-case hexadecimal digits, which parse back to the byte.
   */
  function ByteHex(b: Byte): (s: string)
    ensures |s| == 2 && IsLowerHexDigit(s[0]) && IsLowerHexDigit(s[1])
    ensures ParseHex(s) == b
  {
    ZFillByteDigits(b);
    HexPairValue(b / 16, b % 16);
    ZFill(HexDigits(b), 2)
  }

  /** Two different bytes never render alike. */
  lemma ByteHexInjective(a: Byte, b: Byte)
    requires ByteHex(a) == ByteHex(b)
    ensures a == b
  {
  }

  /** A rendered byte is never the placeholder: the two are told apart by length. */
  lemma ByteHexIsNotPlaceholder(b: Byte)
    ensures ByteHex(b) != Placeholder
  {
  }

  function DecimalDigit(d: nat): (c: char)
    requires d < 10
  {
    ('0' as int + d) as char
  }

  predicate IsDecimalDigit(c: char) {
    '0' <= c <= '9'
  }

  function DecimalDigitValue(c: char): (d: nat)
    requires IsDecimalDigit(c)
    ensures d < 10 && DecimalDigit(d) == c
  {
    c as int - '0' as int
  }

  /** `str(n)` for a non-negative integer. */
  function Decimal(n: nat): (s: string)
    ensures |s| >= 1
    ensures forall i :: 0 <= i < |s| ==> IsDecimalDigit(s[i])
    decreases n
  {
    if n < 10 then [DecimalDigit(n)] else Decimal(n / 10) + [DecimalDigit(n % 10)]
  }

  /** `int(s)` for a string of decimal digits. */
  function ParseDecimal(s: string): nat
    requires forall i :: 0 <= i < |s| ==> IsDecimalDigit(s[i])
  {
    if s == [] then 0 else 10 * ParseDecimal(s[..|s| - 1]) + DecimalDigitValue(s[|s| - 1])
  }

  /** `int(str(n)) == n` */
  lemma {:induction false} DecimalRoundTrip(n: nat)
    ensures ParseDecimal(Decimal(n)) == n
    decreases n
  {
    var s := Decimal(n);
    if n < 10 {
      assert s[..0] == [];
    } else {
      assert s[..|s| - 1] == Decimal(n / 10);
      DecimalRoundTrip(n / 10);
    }
  }

  /** Different numbers have different decimal spellings. */
  lemma DecimalInjective(a: nat, b: nat)
    requires Decimal(a) == Decimal(b)
    ensures a == b
  {
    DecimalRoundTrip(a);
    DecimalRoundTrip(b);
  }
}
