/**
 * Flag helpers and hexadecimal formatting of src/gameboy/utils/utils.cpp.
 * `uint8_t` is `bv8`, `uint16_t` is `bv16`; the C++ promotions to `int`
 * never overflow here, so the bit-vector sums below are exact.
 */
module Utils {

  // ---------------------------------------------------------------------
  // Half-carry / half-borrow predicates
  // ---------------------------------------------------------------------

  /** `halfCarryOnAddition(uint8_t, uint8_t)`: carry out of bit 3. */
  function HalfCarryOnAddition8(a: bv8, b: bv8): (r: bool)
    ensures r <==> (a & 0x0F) + (b & 0x0F) >= 0x10
    ensures r ==> (a & 0x0F) != 0 && (b & 0x0F) != 0
  {
    (((a & 0x0F) + (b & 0x0F)) & 0x10) == 0x10
  }

  /** `halfCarryOnAddition(uint16_t, uint16_t)`: despite its name, a carry out of bit 7. */
  function HalfCarryOnAddition16(a: bv16, b: bv16): (r: bool)
    ensures r <==> (a & 0x00FF) + (b & 0x00FF) >= 0x100
    ensures r ==> (a & 0x00FF) != 0 && (b & 0x00FF) != 0
  {
    (((a & 0x00FF) + (b & 0x00FF)) & 0x0100) == 0x0100
  }

  /** `halfCarryOnSubtration(uint8_t, uint8_t)`: borrow into bit 4, computed on `int`. */
  function HalfCarryOnSubtraction8(a: bv8, b: bv8): (r: bool)
    ensures r <==> (a & 0x0F) < (b & 0x0F)
  {
    (a & 0x0F) as int - (b & 0x0F) as int < 0
  }

  /** `halfCarryOnSubtration(uint16_t, uint16_t)`: borrow out of the low byte, computed on `int`. */
  function HalfCarryOnSubtraction16(a: bv16, b: bv16): (r: bool)
    ensures r <==> (a & 0x00FF) < (b & 0x00FF)
  {
    (a & 0x00FF) as int - (b & 0x00FF) as int < 0
  }

  /** Both addition predicates are symmetric in their operands. */
  lemma HalfCarryOnAdditionSymmetric(a8: bv8, b8: bv8, a16: bv16, b16: bv16)
    ensures HalfCarryOnAddition8(a8, b8) == HalfCarryOnAddition8(b8, a8)
    ensures HalfCarryOnAddition16(a16, b16) == HalfCarryOnAddition16(b16, a16)
  {
  }

  // ---------------------------------------------------------------------
  // intToHex: `stream << uppercase << hex << setw(w) << setfill('0') << i`
  // ---------------------------------------------------------------------

  predicate IsUpperHexDigit(c: char) {
    '0' <= c <= '9' || 'A' <= c <= 'F'
  }

  /** The digit `std::uppercase << std::hex` prints for a value below 16. */
  function HexDigit(d: nat): (c: char)
    requires d < 16
    ensures IsUpperHexDigit(c)
  {
    if d < 10 then ('0' as int + d) as char else ('A' as int + d - 10) as char
  }

  /** Value of a hexadecimal digit, used to read a formatted string back. */
  function DigitValue(c: char): (d: nat)
    requires IsUpperHexDigit(c)
    ensures d < 16
  {
    if c <= '9' then c as int - '0' as int else c as int - 'A' as int + 10
  }

  lemma DigitValueOfHexDigit(d: nat)
    requires d < 16
    ensures DigitValue(HexDigit(d)) == d
  {
  }

  /** The shortest uppercase hexadecimal numeral of `n`: what the stream writes before padding. */
  function HexNumeral(n: nat): (s: string)
    ensures |s| >= 1
    ensures forall k :: 0 <= k < |s| ==> IsUpperHexDigit(s[k])
    decreases n
  {
    if n < 16 then [HexDigit(n)] else HexNumeral(n / 16) + [HexDigit(n % 16)]
  }

  /** `setw(width) << setfill(fill)`: right-justify `s` in a field of at least `width` characters. */
  function PadLeft(s: string, width: nat, fill: char): (r: string)
    ensures |r| == if |s| >= width then |s| else width
    ensures |s| <= width ==> r[width - |s|..] == s
    ensures forall k :: 0 <= k < |r| - |s| ==> r[k] == fill
  {
    if |s| >= width then s else seq(width - |s|, _ => fill) + s
  }

  /** Base-16 value of a string of hexadecimal digits, most significant first. */
  function ParseHex(s: string): nat
    requires forall k :: 0 <= k < |s| ==> IsUpperHexDigit(s[k])
  {
    if s == [] then 0 else ParseHex(s[..|s| - 1]) * 16 + DigitValue(s[|s| - 1])
  }

  function Pow16(w: nat): (p: nat)
    ensures p >= 1
  {
    if w == 0 then 1 else 16 * Pow16(w - 1)
  }

  lemma {:induction false} HexNumeralRoundTrip(n: nat)
    ensures ParseHex(HexNumeral(n)) == n
    decreases n
  {
    if n < 16 {
      DigitValueOfHexDigit(n);
    } else {
      var s := HexNumeral(n);
      assert s[..|s| - 1] == HexNumeral(n / 16);
      HexNumeralRoundTrip(n / 16);
      DigitValueOfHexDigit(n % 16);
    }
  }

  lemma {:induction false} HexNumeralLength(n: nat, w: nat)
    requires w >= 1 && n < Pow16(w)
    ensures |HexNumeral(n)| <= w
    decreases n
  {
    if n >= 16 {
      assert w >= 2;
      assert n / 16 < Pow16(w - 1);
      HexNumeralLength(n / 16, w - 1);
    }
  }

  /** The padding `setfill('0')` inserts. */
  function Zeros(k: nat): (z: string)
    ensures |z| == k && forall j :: 0 <= j < k ==> z[j] == '0'
  {
    seq(k, _ => '0')
  }

  /** Leading zeros do not change the value read back. */
  lemma {:induction false} ParseHexLeadingZeros(k: nat, s: string)
    requires forall j :: 0 <= j < |s| ==> IsUpperHexDigit(s[j])
    ensures forall j :: 0 <= j < k + |s| ==> IsUpperHexDigit((Zeros(k) + s)[j])
    ensures ParseHex(Zeros(k) + s) == ParseHex(s)
    decreases |s| + k
  {
    var t := Zeros(k) + s;
    if s == [] {
      assert t == Zeros(k);
      if k > 0 {
        assert t[..|t| - 1] == Zeros(k - 1) + [];
        ParseHexLeadingZeros(k - 1, []);
      }
    } else {
      assert t[..|t| - 1] == Zeros(k) + s[..|s| - 1];
      ParseHexLeadingZeros(k, s[..|s| - 1]);
    }
  }

  /** `stream << uppercase << hex << setw(width) << setfill('0') << n`. */
  function StreamHex(n: nat, width: nat): (s: string)
    requires width >= 1 && n < Pow16(width)
    ensures |s| == width
    ensures forall k :: 0 <= k < |s| ==> IsUpperHexDigit(s[k])
    ensures ParseHex(s) == n
  {
    var digits := HexNumeral(n);
    HexNumeralLength(n, width);
    HexNumeralRoundTrip(n);
    ParseHexLeadingZeros(width - |digits|, digits);
    assert PadLeft(digits, width, '0') == Zeros(width - |digits|) + digits;
    PadLeft(digits, width, '0')
  }

  /** `intToHex(uint8_t)`: "0x" and exactly two zero-padded uppercase digits that read back as `i`. */
  function IntToHex8(i: bv8): (r: string)
    ensures |r| == 4 && r[..2] == "0x"
    ensures forall k :: 2 <= k < |r| ==> IsUpperHexDigit(r[k])
    ensures ParseHex(r[2..]) == i as int
  {
    var s := "0x" + StreamHex(i as int, 2);
    assert s[2..] == StreamHex(i as int, 2);
    s
  }

  /** `intToHex(uint16_t)`: "0x" and exactly four zero-padded uppercase digits that read back as `i`. */
  function IntToHex16(i: bv16): (r: string)
    ensures |r| == 6 && r[..2] == "0x"
    ensures forall k :: 2 <= k < |r| ==> IsUpperHexDigit(r[k])
    ensures ParseHex(r[2..]) == i as int
  {
    var s := "0x" + StreamHex(i as int, 4);
    assert s[2..] == StreamHex(i as int, 4);
    s
  }
}
