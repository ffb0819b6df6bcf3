/** Bytes and words as the bounded integers `uint8_t`/`u8` and
    `uint16_t`/`u16` hold, with their wrap-around written out. */
module Bytes {

  type Byte = x: int | 0 <= x < 0x100
  type Word = x: int | 0 <= x < 0x10000

  /** A 64 KB address space. */
  type Memory = m: seq<Byte> | |m| == 0x10000 witness seq(0x10000, _ => 0)

  function Lo(w: Word): Byte
  {
    w % 0x100
  }

  function Hi(w: Word): Byte
  {
    w / 0x100
  }

  /** `(hi << 8) | lo` for a byte pair. */
  function Join(lo: Byte, hi: Byte): Word
  {
    hi * 0x100 + lo
  }

  lemma JoinParts(lo: Byte, hi: Byte)
    ensures Lo(Join(lo, hi)) == lo && Hi(Join(lo, hi)) == hi
  {
  }

  lemma SplitJoin(w: Word)
    ensures Join(Lo(w), Hi(w)) == w
  {
  }

  /** `static_cast<int8_t>(b)`: the byte read as two's complement. */
  function Signed(b: Byte): (s: int)
    ensures -0x80 <= s < 0x80
    ensures (s + 0x100) % 0x100 == b
  {
    if b < 0x80 then b else b - 0x100
  }

  /** Bit 7 of a byte, as `b & 0x80` tests it. */
  predicate Bit7(b: Byte)
  {
    b >= 0x80
  }

  /** `2^n`. */
  function Pow2(n: nat): (p: nat)
    ensures p > 0
  {
    if n == 0 then 1 else 2 * Pow2(n - 1)
  }

  /** Bit `k` of `x`, counted from the least significant. */
  predicate BitSet(x: nat, k: nat)
  {
    if k == 0 then x % 2 == 1 else BitSet(x / 2, k - 1)
  }

  /** The three bitwise operators of C++ and Rust. */
  datatype Gate = AndGate | OrGate | XorGate

  predicate Apply(g: Gate, x: bool, y: bool)
  {
    match g
    case AndGate => x && y
    case OrGate => x || y
    case XorGate => x != y
  }

  /** The low `n` bits of `a & b`, `a | b` or `a ^ b`, built from the least
      significant bit upwards. */
  function Bitwise(g: Gate, a: nat, b: nat, n: nat): (r: nat)
    ensures r < Pow2(n)
  {
    if n == 0 then 0
    else 2 * Bitwise(g, a / 2, b / 2, n - 1) + (if Apply(g, a % 2 == 1, b % 2 == 1) then 1 else 0)
  }

  /** Bit `k` of a bitwise combination is the gate applied to bit `k` of
      each operand. */
  lemma {:induction false} BitwiseBit(g: Gate, a: nat, b: nat, n: nat, k: nat)
    requires k < n
    ensures BitSet(Bitwise(g, a, b, n), k) <==> Apply(g, BitSet(a, k), BitSet(b, k))
  {
    if k > 0 {
      BitwiseBit(g, a / 2, b / 2, n - 1, k - 1);
    }
  }

  /** The bitwise operators on bytes. */
  function BitAnd(a: Byte, b: Byte): Byte
  {
    Bitwise(AndGate, a, b, 8)
  }

  function BitOr(a: Byte, b: Byte): Byte
  {
    Bitwise(OrGate, a, b, 8)
  }

  function BitXor(a: Byte, b: Byte): Byte
  {
    Bitwise(XorGate, a, b, 8)
  }

  /** Bit `k` of `a & b` is set iff it is set in both. */
  lemma BitAndBit(a: Byte, b: Byte, k: nat)
    requires k < 8
    ensures BitSet(BitAnd(a, b), k) <==> BitSet(a, k) && BitSet(b, k)
  {
    BitwiseBit(AndGate, a, b, 8, k);
  }

  /** Bit `k` of `a ^ b` is set iff it is set in exactly one. */
  lemma BitXorBit(a: Byte, b: Byte, k: nat)
    requires k < 8
    ensures BitSet(BitXor(a, b), k) <==> BitSet(a, k) != BitSet(b, k)
  {
    BitwiseBit(XorGate, a, b, 8, k);
  }

  /** Bit `k` of `a | b` is set iff it is set in either. */
  lemma BitOrBit(a: Byte, b: Byte, k: nat)
    requires k < 8
    ensures BitSet(BitOr(a, b), k) <==> BitSet(a, k) || BitSet(b, k)
  {
    BitwiseBit(OrGate, a, b, 8, k);
  }

  /** And-ing with a single-bit mask keeps that bit and nothing else. */
  lemma {:induction false} AndMask(a: nat, j: nat, n: nat)
    requires j < n
    ensures Bitwise(AndGate, a, Pow2(j), n) == if BitSet(a, j) then Pow2(j) else 0
  {
    if j == 0 {
      AndZero(a / 2, n - 1);
    } else {
      AndMask(a / 2, j - 1, n - 1);
    }
  }

  lemma {:induction false} AndZero(a: nat, n: nat)
    ensures Bitwise(AndGate, a, 0, n) == 0
  {
    if n > 0 {
      AndZero(a / 2, n - 1);
    }
  }

  /** `w |= hi << 8` on a 16-bit word: the high byte is or-ed in, the low
      byte is kept. When the high byte was clear this is `Join`. */
  function OrHigh(w: Word, hi: Byte): Word
  {
    Join(Lo(w), ((Hi(w) as bv8) | (hi as bv8)) as int)
  }

  /** Or-ing a high byte in keeps the low byte, and is the join when the
      high byte was clear. */
  lemma OrHighParts(w: Word, hi: Byte)
    ensures Lo(OrHigh(w, hi)) == Lo(w)
    ensures Hi(w) == 0 ==> OrHigh(w, hi) == Join(Lo(w), hi)
  {
    OrHighLow(w, hi);
    if Hi(w) == 0 {
      OrZeroByte(Hi(w), hi);
    }
  }

  lemma OrHighLow(w: Word, hi: Byte)
    ensures Lo(OrHigh(w, hi)) == Lo(w)
  {
    JoinParts(Lo(w), ((Hi(w) as bv8) | (hi as bv8)) as int);
  }

  lemma OrZeroByte(h: Byte, hi: Byte)
    requires h == 0
    ensures ((h as bv8) | (hi as bv8)) as int == hi
  {
    OrZeroBits(h, hi);
    ByteBits(hi);
  }

  lemma OrZeroBits(h: Byte, x: Byte)
    requires h == 0
    ensures (h as bv8) | (x as bv8) == x as bv8
  {
  }

  /** A byte converts to `bv8` and back unchanged. */
  lemma ByteBits(x: Byte)
    ensures (x as bv8) as int == x
  {
  }

  /** Or-ing a high byte into a zero-extended byte joins the two. */
  lemma OrHighOfByte(lo: Byte, hi: Byte)
    ensures OrHigh(lo, hi) == Join(lo, hi)
  {
    assert Lo(lo) == lo && Hi(lo) == 0;
    OrHighParts(lo, hi);
  }
}
