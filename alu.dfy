/** The arithmetic and logic of the C++ CPU (`ADC` .. `INC` and the branch
    predicates of `cpu.cpp`), as functions from the operand, the register it
    works on and the status flags to the new value and flags. The CPU class
    applies them to its fields. */
module Alu {
  import opened Bytes
  import opened StatusFlags
  import opened Isa

  /** The new register or memory value and the new flags. */
  datatype Outcome = Outcome(result: Byte, flags: Flags)

  /** The carry as the number `static_cast<uint16_t>(rf.carry)` adds. */
  function CarryIn(f: Flags): int
  {
    if f.carry then 1 else 0
  }

  /** `ADC`: the sum is formed in 16 bits, the carry is whatever does not fit
      in 8, and the overflow test looks at bit 7 of `(r ^ a) & (r ^ v)`. */
  function Adc(a: Byte, v: Byte, f: Flags): (r: Outcome)
    ensures a + v + CarryIn(f) == (if r.flags.carry then 0x100 else 0) + r.result
    ensures r.flags == WithZeroSign(f, r.result).(carry := r.flags.carry, overflow := r.flags.overflow)
  {
    var sum := v + a + CarryIn(f);
    var sum8 := sum % 0x100;
    var g := f.(carry := sum > 0xFF, overflow := Bit7(sum8) != Bit7(a) && Bit7(sum8) != Bit7(v));
    Outcome(sum8, WithZeroSign(g, sum8))
  }

  /** `SBC`: the difference with borrow is formed in 16 bits; the carry is set
      when it is not negative as a signed 16-bit value, and the overflow test
      looks at bit 7 of `(r ^ a) & (r ^ ~v)`. */
  function Sbc(a: Byte, v: Byte, f: Flags): (r: Outcome)
    ensures a - v - (1 - CarryIn(f)) == (if r.flags.carry then 0 else -0x100) + r.result
    ensures r.flags == WithZeroSign(f, r.result).(carry := r.flags.carry, overflow := r.flags.overflow)
  {
    var diff := (a - v - (1 - CarryIn(f))) % 0x10000;
    var diff8 := (a - v - (1 - CarryIn(f))) % 0x100;
    var g := f.(carry := diff < 0x8000, overflow := Bit7(diff8) != Bit7(a) && Bit7(diff8) == Bit7(v));
    Outcome(diff8, WithZeroSign(g, diff8))
  }

  /** The overflow flag of `ADC` reports that the signed sum does not fit in
      a signed byte. */
  lemma AdcOverflow(a: Byte, v: Byte, f: Flags)
    ensures Adc(a, v, f).flags.overflow <==> !(-0x80 <= Signed(a) + Signed(v) + CarryIn(f) < 0x80)
  {
    var sum := a + v + CarryIn(f);
    assert Adc(a, v, f).result == sum % 0x100;
  }

  /** The same for the signed difference of `SBC`. */
  lemma SbcOverflow(a: Byte, v: Byte, f: Flags)
    ensures Sbc(a, v, f).flags.overflow <==> !(-0x80 <= Signed(a) - Signed(v) - (1 - CarryIn(f)) < 0x80)
  {
    var diff := a - v - (1 - CarryIn(f));
    assert Sbc(a, v, f).result == diff % 0x100;
  }

  /** Subtracting `v` is adding its complement: `SBC v` and `ADC (v ^ 0xFF)`
      agree on the accumulator and on every flag. */
  lemma SbcIsAdcOfComplement(a: Byte, v: Byte, f: Flags)
    ensures Sbc(a, v, f) == Adc(a, 0xFF - v, f)
  {
  }

  /** 0x50 + 0x50 overflows into the sign bit. */
  lemma AdcExample()
    ensures Adc(0x50, 0x50, Default()) == Outcome(0xA0, Default().(overflow := true, sign := true))
  {
  }

  /** `AND`, `EOR` and `ORA` on the accumulator. */
  function And(a: Byte, v: Byte, f: Flags): Outcome
  {
    var res := BitAnd(a, v);
    Outcome(res, WithZeroSign(f, res))
  }

  function Eor(a: Byte, v: Byte, f: Flags): Outcome
  {
    var res := BitXor(a, v);
    Outcome(res, WithZeroSign(f, res))
  }

  function Ora(a: Byte, v: Byte, f: Flags): Outcome
  {
    var res := BitOr(a, v);
    Outcome(res, WithZeroSign(f, res))
  }

  /** The flags every logical operation leaves: zero and sign from the
      result, everything else as before. */
  predicate LogicFlags(f: Flags, r: Outcome)
  {
    && (r.flags.zero <==> r.result == 0)
    && (r.flags.sign <==> r.result >= 0x80)
    && r.flags.(zero := f.zero, sign := f.sign) == f
  }

  /** Bit `k` of the `AND` result is set iff it is set in both operands. */
  lemma AndBits(a: Byte, v: Byte, f: Flags)
    ensures forall k :: 0 <= k < 8 ==> (BitSet(And(a, v, f).result, k) <==> BitSet(a, k) && BitSet(v, k))
    ensures LogicFlags(f, And(a, v, f))
  {
    forall k | 0 <= k < 8
      ensures BitSet(And(a, v, f).result, k) <==> BitSet(a, k) && BitSet(v, k)
    {
      BitAndBit(a, v, k);
    }
  }

  /** Bit `k` of the `EOR` result is set iff it is set in exactly one operand. */
  lemma EorBits(a: Byte, v: Byte, f: Flags)
    ensures forall k :: 0 <= k < 8 ==> (BitSet(Eor(a, v, f).result, k) <==> BitSet(a, k) != BitSet(v, k))
    ensures LogicFlags(f, Eor(a, v, f))
  {
    forall k | 0 <= k < 8
      ensures BitSet(Eor(a, v, f).result, k) <==> BitSet(a, k) != BitSet(v, k)
    {
      BitXorBit(a, v, k);
    }
  }

  /** Bit `k` of the `ORA` result is set iff it is set in either operand. */
  lemma OraBits(a: Byte, v: Byte, f: Flags)
    ensures forall k :: 0 <= k < 8 ==> (BitSet(Ora(a, v, f).result, k) <==> BitSet(a, k) || BitSet(v, k))
    ensures LogicFlags(f, Ora(a, v, f))
  {
    forall k | 0 <= k < 8
      ensures BitSet(Ora(a, v, f).result, k) <==> BitSet(a, k) || BitSet(v, k)
    {
      BitOrBit(a, v, k);
    }
  }

  /** `BIT`: tests `a & v` without storing it; overflow and sign are copied
      from bits 6 and 7 of the operand. */
  function Bit(a: Byte, v: Byte, f: Flags): (g: Flags)
    ensures g.zero <==> BitAnd(a, v) == 0
    ensures g.overflow <==> BitSet(v, 6)
    ensures g.sign <==> v >= 0x80
    ensures g.(zero := f.zero, overflow := f.overflow, sign := f.sign) == f
  {
    AndMask(v, 6, 8);
    WithSign(f.(zero := BitAnd(a, v) == 0, overflow := BitAnd(v, 0x40) != 0), v)
  }

  /** `__compare`, shared by `CMP`, `CPX` and `CPY`: only the flags change,
      and they are those of the wrapped difference `first - second`. */
  function Compare(first: Byte, second: Byte, f: Flags): (g: Flags)
    ensures g.carry <==> first >= second
    ensures g.zero <==> first == second
    ensures g.sign <==> (first - second) % 0x100 >= 0x80
    ensures g.(carry := f.carry, zero := f.zero, sign := f.sign) == f
  {
    var diff := (first - second) % 0x100;
    WithSign(WithZero(f.(carry := first >= second), diff), diff)
  }

  /** `ASL`: bit 7 goes to the carry, so carry and result are twice the
      operand. */
  function Asl(v: Byte, f: Flags): (r: Outcome)
    ensures 2 * v == (if r.flags.carry then 0x100 else 0) + r.result
    ensures r.flags == WithZeroSign(f, r.result).(carry := r.flags.carry)
  {
    var res := (v * 2) % 0x100;
    Outcome(res, WithZeroSign(f.(carry := Bit7(v)), res))
  }

  /** `LSR`: bit 0 goes to the carry, so the result is half the operand; it is
      never negative. */
  function Lsr(v: Byte, f: Flags): (r: Outcome)
    ensures v == 2 * r.result + (if r.flags.carry then 1 else 0)
    ensures !r.flags.sign
    ensures r.flags == WithZeroSign(f, r.result).(carry := r.flags.carry)
  {
    var res := v / 2;
    Outcome(res, WithZeroSign(f.(carry := v % 2 == 1), res))
  }

  /** `ROL`: bit 7 goes to the carry and the old carry to bit 0. As written,
      the zero flag is taken from the accumulator `a`, not from the rotated
      value. */
  function Rol(a: Byte, v: Byte, f: Flags): (r: Outcome)
    ensures 2 * v + CarryIn(f) == (if r.flags.carry then 0x100 else 0) + r.result
    ensures r.flags.zero <==> a == 0
    ensures r.flags.sign <==> r.result >= 0x80
    ensures r.flags.(carry := f.carry, zero := f.zero, sign := f.sign) == f
  {
    var res := (v * 2) % 0x100 + CarryIn(f);
    Outcome(res, WithSign(WithZero(f.(carry := Bit7(v)), a), res))
  }

  /** `ROR`: bit 0 goes to the carry and the old carry to bit 7; the zero flag
      is taken from the accumulator as in `Rol`. */
  function Ror(a: Byte, v: Byte, f: Flags): (r: Outcome)
    ensures 0x100 * CarryIn(f) + v == 2 * r.result + (if r.flags.carry then 1 else 0)
    ensures r.flags.zero <==> a == 0
    ensures r.flags.sign <==> f.carry
    ensures r.flags.(carry := f.carry, zero := f.zero, sign := f.sign) == f
  {
    var res := v / 2 + 0x80 * CarryIn(f);
    Outcome(res, WithSign(WithZero(f.(carry := v % 2 == 1), a), res))
  }

  /** Rotating right undoes rotating left: value and carry come back. */
  lemma RorUndoesRol(a: Byte, v: Byte, f: Flags)
    ensures var l := Rol(a, v, f);
      var r := Ror(a, l.result, l.flags);
      r.result == v && r.flags.carry == f.carry
  {
  }

  /** The zero-flag defect of `ROL`: rotating 0x80 with a clear carry gives
      zero, yet the flag reports the nonzero accumulator. */
  lemma RolZeroFlagDefect()
    ensures Rol(0x01, 0x80, Default()).result == 0
    ensures !Rol(0x01, 0x80, Default()).flags.zero
  {
  }

  /** And the same for `ROR`, rotating 0x01. */
  lemma RorZeroFlagDefect()
    ensures Ror(0x01, 0x01, Default()).result == 0
    ensures !Ror(0x01, 0x01, Default()).flags.zero
  {
  }

  /** `DEC` and `INC` wrap around. */
  function Dec(v: Byte, f: Flags): (r: Outcome)
    ensures (r.result + 1) % 0x100 == v
    ensures r.flags == WithZeroSign(f, r.result)
  {
    var res := (v - 1) % 0x100;
    Outcome(res, WithZeroSign(f, res))
  }

  function Inc(v: Byte, f: Flags): (r: Outcome)
    ensures (r.result + 0xFF) % 0x100 == v
    ensures r.flags == WithZeroSign(f, r.result)
  {
    var res := (v + 1) % 0x100;
    Outcome(res, WithZeroSign(f, res))
  }

  /** Incrementing and decrementing undo each other. */
  lemma IncDec(v: Byte, f: Flags)
    ensures Dec(Inc(v, f).result, f).result == v
    ensures Inc(Dec(v, f).result, f).result == v
  {
  }

  /** The branch predicates: each tests one flag. `None` stands for the exit
      taken when the operation is not a branch. */
  function Condition(op: Operation, f: Flags): (r: Option<bool>)
    ensures r.Some? <==> IsBranch(op)
  {
    match op
    case BCC => Some(!f.carry)
    case BCS => Some(f.carry)
    case BEQ => Some(f.zero)
    case BMI => Some(f.sign)
    case BNE => Some(!f.zero)
    case BPL => Some(!f.sign)
    case BVC => Some(!f.overflow)
    case BVS => Some(f.overflow)
    case _ => None
  }

  /** The complementary branches are complementary. */
  lemma ConditionPairs(f: Flags)
    ensures Condition(BCC, f).value == !Condition(BCS, f).value
    ensures Condition(BNE, f).value == !Condition(BEQ, f).value
    ensures Condition(BPL, f).value == !Condition(BMI, f).value
    ensures Condition(BVC, f).value == !Condition(BVS, f).value
  {
  }

  /** Each branch reads exactly one flag: flags that agree on it give the
      same outcome. */
  lemma ConditionReadsOneFlag(op: Operation, f: Flags, g: Flags)
    requires IsBranch(op)
    requires op in {BCC, BCS} ==> f.carry == g.carry
    requires op in {BEQ, BNE} ==> f.zero == g.zero
    requires op in {BMI, BPL} ==> f.sign == g.sign
    requires op in {BVC, BVS} ==> f.overflow == g.overflow
    ensures Condition(op, f) == Condition(op, g)
  {
  }
}
