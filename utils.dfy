/** The helpers of the C++ `utils.h`: `is_in` and `to_hex`. */
module Utils {

  /** `is_in(x, t...)`: the fold `(x == t) || ...` over the pack. */
  function IsIn<T(==)>(x: T, ts: seq<T>): (r: bool)
    ensures r <==> exists k :: 0 <= k < |ts| && ts[k] == x
    ensures ts == [] ==> !r
  {
    if ts == [] then false else x == ts[0] || IsIn(x, ts[1..])
  }

  /** One uppercase hexadecimal digit, as `std::uppercase << std::hex` writes it. */
  function HexDigit(d: int): char
    requires 0 <= d < 16
  {
    if d < 10 then (48 + d) as char else (55 + d) as char
  }

  predicate IsHexChar(c: char)
  {
    '0' <= c <= '9' || 'A' <= c <= 'F'
  }

  function DigitValue(c: char): int
  {
    if '0' <= c <= '9' then c as int - 48
    else if 'A' <= c <= 'F' then c as int - 55
    else 0
  }

  function Pow16(n: nat): (p: nat)
    ensures p >= 1
  {
    if n == 0 then 1 else 16 * Pow16(n - 1)
  }

  /** The last `width` hexadecimal digits of `v`, zero-padded on the left:
      what `std::setfill('0') << std::setw(width)` prints for `v < 16^width`. */
  function Digits(v: nat, width: nat): (s: string)
    ensures |s| == width
    ensures forall k :: 0 <= k < |s| ==> IsHexChar(s[k])
  {
    if width == 0 then [] else Digits(v / 16, width - 1) + [HexDigit(v % 16)]
  }

  /** Reading a string of hexadecimal digits back as a number. */
  function HexValue(s: string): nat
  {
    if s == [] then 0 else 16 * HexValue(s[..|s| - 1]) + DigitValue(s[|s| - 1])
  }

  /** `to_hex<uint8_t>`: two characters. */
  function ToHex8(v: bv8): (s: string)
    ensures |s| == 2
    ensures forall k :: 0 <= k < |s| ==> IsHexChar(s[k])
    ensures HexValue(s) == v as int
  {
    DigitsRoundTrip(v as nat, 2);
    Digits(v as nat, 2)
  }

  /** `to_hex<uint16_t>`: four characters. */
  function ToHex16(v: bv16): (s: string)
    ensures |s| == 4
    ensures forall k :: 0 <= k < |s| ==> IsHexChar(s[k])
    ensures HexValue(s) == v as int
  {
    DigitsRoundTrip(v as nat, 4);
    Digits(v as nat, 4)
  }

  lemma HexDigitValue(d: int)
    requires 0 <= d < 16
    ensures DigitValue(HexDigit(d)) == d
  {
  }

  /** Parsing the padded digits gives back the value. */
  lemma {:induction false} DigitsRoundTrip(v: nat, width: nat)
    requires v < Pow16(width)
    ensures HexValue(Digits(v, width)) == v
  {
    if width > 0 {
      var s := Digits(v, width);
      assert s[..|s| - 1] == Digits(v / 16, width - 1);
      DigitsRoundTrip(v / 16, width - 1);
      HexDigitValue(v % 16);
    }
  }

  /** Lexicographic order on strings, the order of `std::string::operator<`. */
  predicate LexLess(s: string, t: string)
  {
    if s == [] then t != []
    else t != [] && (s[0] < t[0] || (s[0] == t[0] && LexLess(s[1..], t[1..])))
  }

  /** Comparing two equal-length strings extended by one character each. */
  lemma {:induction false} LexLessAppend(s: string, t: string, c: char, d: char)
    requires |s| == |t|
    ensures LexLess(s + [c], t + [d]) <==> LexLess(s, t) || (s == t && c < d)
  {
    if s != [] {
      assert (s + [c])[1..] == s[1..] + [c];
      assert (t + [d])[1..] == t[1..] + [d];
      LexLessAppend(s[1..], t[1..], c, d);
      if s[0] == t[0] && s[1..] == t[1..] {
        assert s == [s[0]] + s[1..] && t == [t[0]] + t[1..];
      }
    }
  }

  lemma HexDigitOrder(a: int, b: int)
    requires 0 <= a < 16 && 0 <= b < 16
    ensures HexDigit(a) < HexDigit(b) <==> a < b
  {
  }

  /** For a fixed width, the padded digits are ordered as the numbers are. */
  lemma {:induction false} DigitsOrder(a: nat, b: nat, width: nat)
    requires a < Pow16(width) && b < Pow16(width)
    ensures LexLess(Digits(a, width), Digits(b, width)) <==> a < b
  {
    if width > 0 {
      DigitsOrder(a / 16, b / 16, width - 1);
      LexLessAppend(Digits(a / 16, width - 1), Digits(b / 16, width - 1), HexDigit(a % 16), HexDigit(b % 16));
      HexDigitOrder(a % 16, b % 16);
      if Digits(a / 16, width - 1) == Digits(b / 16, width - 1) {
        DigitsRoundTrip(a / 16, width - 1);
        DigitsRoundTrip(b / 16, width - 1);
      }
      if a / 16 == b / 16 {
        assert Digits(a / 16, width - 1) == Digits(b / 16, width - 1);
      }
    }
  }

  lemma Pow16Four()
    ensures Pow16(4) == 0x10000
  {
    assert Pow16(2) == 0x100;
  }

  /** `to_hex` on bytes preserves order: `a < b` exactly when `to_hex(a) < to_hex(b)`. */
  lemma ToHex8Order(a: bv8, b: bv8)
    ensures LexLess(ToHex8(a), ToHex8(b)) <==> a < b
  {
    DigitsOrder(a as nat, b as nat, 2);
  }

  /** The same for 16-bit words. */
  lemma ToHex16Order(a: bv16, b: bv16)
    ensures LexLess(ToHex16(a), ToHex16(b)) <==> a as int < b as int
  {
    Pow16Four();
    var x, y := a as nat, b as nat;
    assert x < 0x10000 && y < 0x10000;
    DigitsOrder(x, y, 4);
    assert ToHex16(a) == Digits(x, 4) && ToHex16(b) == Digits(y, 4);
  }

  /** Leading zeroes: a byte below 0x10 prints as '0' and one digit. */
  lemma ToHex8Padding(v: bv8)
    requires v < 0x10
    ensures ToHex8(v)[0] == '0'
  {
  }
}

/** `convert_addr` of the Rust `utils.rs`. */
module RustUtils {
  import opened Bytes

  datatype Option<T> = None | Some(value: T)

  /** `convert_addr`: `((bytes[1] as u16) << 8) | (bytes[0] as u16)`, a
      little-endian word. A slice shorter than two bytes panics on the
      index, modelled as `None`. */
  function ConvertAddr(bytes: seq<Byte>): (r: Option<Word>)
    ensures r.Some? <==> |bytes| >= 2
    ensures r.Some? ==> r.value == Join(bytes[0], bytes[1])
  {
    if |bytes| < 2 then None
    else
      OrHighOfByte(bytes[0], bytes[1]);
      Some(OrHigh(bytes[0], bytes[1]))
  }

  /** Only the first two bytes matter. */
  lemma ConvertAddrIgnoresTail(bytes: seq<Byte>, rest: seq<Byte>)
    requires |bytes| >= 2
    ensures ConvertAddr(bytes + rest) == ConvertAddr(bytes)
  {
    assert (bytes + rest)[0] == bytes[0] && (bytes + rest)[1] == bytes[1];
  }

  /** Splitting a word into `(a & 0xFF) as u8` and `(a >> 8) as u8` and
      converting back gives the word. */
  lemma ConvertAddrRoundTrip(a: Word)
    ensures ConvertAddr([Lo(a), Hi(a)]) == Some(a)
  {
    assert [Lo(a), Hi(a)][0] == Lo(a) && [Lo(a), Hi(a)][1] == Hi(a);
  }

  /** The reset path passes a one-byte slice, so the conversion panics. */
  lemma ConvertAddrShortSlice(b: Byte)
    ensures ConvertAddr([b]).None?
  {
  }
}
