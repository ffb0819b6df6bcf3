/** The processor status register of the C++ CPU (`StatusFlags` in `cpu.h`):
    eight one-bit fields, converted to a byte through a union. */
module StatusFlags {
  import opened Bytes

  datatype Flags = Flags(
    carry: bool,
    zero: bool,
    irqDisable: bool,
    decimalMode: bool,
    breakFlag: bool,
    unused: bool,
    overflow: bool,
    sign: bool)

  /** The default constructor: every field false except the unused bit. */
  function Default(): (f: Flags)
    ensures f.unused
    ensures !f.carry && !f.zero && !f.irqDisable && !f.decimalMode && !f.breakFlag && !f.overflow && !f.sign
  {
    Flags(false, false, false, false, false, true, false, false)
  }

  function Bit(b: bool, k: bv8): bv8
    requires k < 8
  {
    if b then (1 as bv8) << k else 0
  }

  /** `getStatus`: the fields packed into a byte. The union makes this depend
      on how the compiler lays out bit-fields; the model takes the usual
      allocation from the least significant bit, so `carry` is bit 0 and
      `sign` bit 7. */
  function GetStatus(f: Flags): (b: bv8)
    ensures (b & 0x01 != 0) == f.carry
    ensures (b & 0x02 != 0) == f.zero
    ensures (b & 0x04 != 0) == f.irqDisable
    ensures (b & 0x08 != 0) == f.decimalMode
    ensures (b & 0x10 != 0) == f.breakFlag
    ensures (b & 0x20 != 0) == f.unused
    ensures (b & 0x40 != 0) == f.overflow
    ensures (b & 0x80 != 0) == f.sign
  {
    Bit(f.carry, 0) | Bit(f.zero, 1) | Bit(f.irqDisable, 2) | Bit(f.decimalMode, 3)
    | Bit(f.breakFlag, 4) | Bit(f.unused, 5) | Bit(f.overflow, 6) | Bit(f.sign, 7)
  }

  /** `setStatus`, which is declared but not defined in the C++ sources; the
      model takes it as the inverse of `getStatus`, unpacking every bit. */
  function SetStatus(b: bv8): (f: Flags)
    ensures GetStatus(f) == b
  {
    var f := Flags(b & 0x01 != 0, b & 0x02 != 0, b & 0x04 != 0, b & 0x08 != 0,
                   b & 0x10 != 0, b & 0x20 != 0, b & 0x40 != 0, b & 0x80 != 0);
    assert GetStatus(f) == b by {
      PackUnpack(b);
    }
    f
  }

  lemma PackUnpack(b: bv8)
    ensures Bit(b & 0x01 != 0, 0) | Bit(b & 0x02 != 0, 1) | Bit(b & 0x04 != 0, 2) | Bit(b & 0x08 != 0, 3)
          | Bit(b & 0x10 != 0, 4) | Bit(b & 0x20 != 0, 5) | Bit(b & 0x40 != 0, 6) | Bit(b & 0x80 != 0, 7) == b
  {
  }

  /** Unpacking a packed status gives back the flags. */
  lemma UnpackPack(f: Flags)
    ensures SetStatus(GetStatus(f)) == f
  {
  }

  /** The default status byte is 0x20. */
  lemma DefaultStatus()
    ensures GetStatus(Default()) == 0x20
  {
  }

  /** `setZero(v)`: the zero flag becomes `v == 0`; nothing else changes. */
  function WithZero(f: Flags, v: Byte): (g: Flags)
    ensures g.zero <==> v == 0
    ensures g.(zero := f.zero) == f
  {
    f.(zero := v == 0)
  }

  /** `setSign(v)`: the sign flag becomes bit 7 of `v` (the mask converts to
      `true` whenever it is nonzero); nothing else changes. */
  function WithSign(f: Flags, v: Byte): (g: Flags)
    ensures g.sign <==> v >= 0x80
    ensures g.(sign := f.sign) == f
  {
    f.(sign := Bit7(v))
  }

  /** Both, as every load and arithmetic instruction applies them. */
  function WithZeroSign(f: Flags, v: Byte): (g: Flags)
    ensures g.zero <==> v == 0
    ensures g.sign <==> v >= 0x80
    ensures g.(zero := f.zero, sign := f.sign) == f
  {
    WithSign(WithZero(f, v), v)
  }

  /** Changing the carry flag changes bit 0 of the status byte and no other. */
  lemma CarryIsBit0(f: Flags, c: bool)
    ensures GetStatus(f.(carry := c)) & 0xFE == GetStatus(f) & 0xFE
    ensures (GetStatus(f.(carry := c)) & 0x01 != 0) == c
  {
  }

  /** Changing the zero flag changes bit 1 and no other. */
  lemma ZeroIsBit1(f: Flags, z: bool)
    ensures GetStatus(f.(zero := z)) & 0xFD == GetStatus(f) & 0xFD
    ensures (GetStatus(f.(zero := z)) & 0x02 != 0) == z
  {
  }

  /** Changing the interrupt-disable flag changes bit 2 and no other. */
  lemma IrqDisableIsBit2(f: Flags, i: bool)
    ensures GetStatus(f.(irqDisable := i)) & 0xFB == GetStatus(f) & 0xFB
    ensures (GetStatus(f.(irqDisable := i)) & 0x04 != 0) == i
  {
  }

  /** Changing the decimal flag changes bit 3 and no other. */
  lemma DecimalIsBit3(f: Flags, d: bool)
    ensures GetStatus(f.(decimalMode := d)) & 0xF7 == GetStatus(f) & 0xF7
    ensures (GetStatus(f.(decimalMode := d)) & 0x08 != 0) == d
  {
  }

  /** Changing the break flag changes bit 4 and no other. */
  lemma BreakIsBit4(f: Flags, b: bool)
    ensures GetStatus(f.(breakFlag := b)) & 0xEF == GetStatus(f) & 0xEF
    ensures (GetStatus(f.(breakFlag := b)) & 0x10 != 0) == b
  {
  }

  /** Changing the overflow flag changes bit 6 and no other. */
  lemma OverflowIsBit6(f: Flags, v: bool)
    ensures GetStatus(f.(overflow := v)) & 0xBF == GetStatus(f) & 0xBF
    ensures (GetStatus(f.(overflow := v)) & 0x40 != 0) == v
  {
  }

  /** Changing the sign flag changes bit 7 and no other. */
  lemma SignIsBit7(f: Flags, s: bool)
    ensures GetStatus(f.(sign := s)) & 0x7F == GetStatus(f) & 0x7F
    ensures (GetStatus(f.(sign := s)) & 0x80 != 0) == s
  {
  }
}
