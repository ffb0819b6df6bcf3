// The Rust opcode table, src/instructions.rs: `Instruction::decode_inst`
// maps an opcode byte to its (operation, addressing mode) pair and panics on
// every byte that is not one of the 151 documented 6502 opcodes.
module RustInstructions {
  import opened Isa

  /** `Instruction::decode_inst`; `None` stands for the panic of the
      catch-all arm. The byte is taken as a number in 0..255. What the
      table promises is proved below: its inverse `Encode` (`DecodeEncode`,
      `DecodeInjective`), the modes it hands out (`RelativeIffBranch` and
      the lemmas after it) and the number of accepted bytes
      (`AcceptedCount`). */
  function DecodeInst(byte: int): Option<Instruction>
  {
    match byte
    case 0x69 => Some(Instruction(ADC, Immediate))
    case 0x65 => Some(Instruction(ADC, ZeroPage))
    case 0x75 => Some(Instruction(ADC, ZeroPageX))
    case 0x6D => Some(Instruction(ADC, Absolute))
    case 0x7D => Some(Instruction(ADC, AbsoluteX))
    case 0x79 => Some(Instruction(ADC, AbsoluteY))
    case 0x61 => Some(Instruction(ADC, IndexedIndirect))
    case 0x71 => Some(Instruction(ADC, IndirectIndexed))
    case 0x29 => Some(Instruction(AND, Immediate))
    case 0x25 => Some(Instruction(AND, ZeroPage))
    case 0x35 => Some(Instruction(AND, ZeroPageX))
    case 0x2D => Some(Instruction(AND, Absolute))
    case 0x3D => Some(Instruction(AND, AbsoluteX))
    case 0x39 => Some(Instruction(AND, AbsoluteY))
    case 0x21 => Some(Instruction(AND, IndexedIndirect))
    case 0x31 => Some(Instruction(AND, IndirectIndexed))
    case 0x0A => Some(Instruction(ASL, Accumulator))
    case 0x06 => Some(Instruction(ASL, ZeroPage))
    case 0x16 => Some(Instruction(ASL, ZeroPageX))
    case 0x0E => Some(Instruction(ASL, Absolute))
    case 0x1E => Some(Instruction(ASL, AbsoluteX))
    case 0x90 => Some(Instruction(BCC, Relative))
    case 0xB0 => Some(Instruction(BCS, Relative))
    case 0xF0 => Some(Instruction(BEQ, Relative))
    case 0x24 => Some(Instruction(BIT, ZeroPage))
    case 0x2C => Some(Instruction(BIT, Absolute))
    case 0x30 => Some(Instruction(BMI, Relative))
    case 0xD0 => Some(Instruction(BNE, Relative))
    case 0x10 => Some(Instruction(BPL, Relative))
    case 0x00 => Some(Instruction(BRK, Implicit))
    case 0x50 => Some(Instruction(BVC, Relative))
    case 0x70 => Some(Instruction(BVS, Relative))
    case 0x18 => Some(Instruction(CLC, Implicit))
    case 0xD8 => Some(Instruction(CLD, Implicit))
    case 0x58 => Some(Instruction(CLI, Implicit))
    case 0xB8 => Some(Instruction(CLV, Implicit))
    case 0xC9 => Some(Instruction(CMP, Immediate))
    case 0xC5 => Some(Instruction(CMP, ZeroPage))
    case 0xD5 => Some(Instruction(CMP, ZeroPageX))
    case 0xCD => Some(Instruction(CMP, Absolute))
    case 0xDD => Some(Instruction(CMP, AbsoluteX))
    case 0xD9 => Some(Instruction(CMP, AbsoluteY))
    case 0xC1 => Some(Instruction(CMP, IndexedIndirect))
    case 0xD1 => Some(Instruction(CMP, IndirectIndexed))
    case 0xE0 => Some(Instruction(CPX, Immediate))
    case 0xE4 => Some(Instruction(CPX, ZeroPage))
    case 0xEC => Some(Instruction(CPX, Absolute))
    case 0xC0 => Some(Instruction(CPY, Immediate))
    case 0xC4 => Some(Instruction(CPY, ZeroPage))
    case 0xCC => Some(Instruction(CPY, Absolute))
    case 0xC6 => Some(Instruction(DEC, ZeroPage))
    case 0xD6 => Some(Instruction(DEC, ZeroPageX))
    case 0xCE => Some(Instruction(DEC, Absolute))
    case 0xDE => Some(Instruction(DEC, AbsoluteX))
    case 0xCA => Some(Instruction(DEX, Implicit))
    case 0x88 => Some(Instruction(DEY, Implicit))
    case 0x49 => Some(Instruction(EOR, Immediate))
    case 0x45 => Some(Instruction(EOR, ZeroPage))
    case 0x55 => Some(Instruction(EOR, ZeroPageX))
    case 0x4D => Some(Instruction(EOR, Absolute))
    case 0x5D => Some(Instruction(EOR, AbsoluteX))
    case 0x59 => Some(Instruction(EOR, AbsoluteY))
    case 0x41 => Some(Instruction(EOR, IndexedIndirect))
    case 0x51 => Some(Instruction(EOR, IndirectIndexed))
    case 0xE6 => Some(Instruction(INC, ZeroPage))
    case 0xF6 => Some(Instruction(INC, ZeroPageX))
    case 0xEE => Some(Instruction(INC, Absolute))
    case 0xFE => Some(Instruction(INC, AbsoluteX))
    case 0xE8 => Some(Instruction(INX, Implicit))
    case 0xC8 => Some(Instruction(INY, Implicit))
    case 0x4C => Some(Instruction(JMP, Absolute))
    case 0x6C => Some(Instruction(JMP, Indirect))
    case 0x20 => Some(Instruction(JSR, Absolute))
    case 0xA9 => Some(Instruction(LDA, Immediate))
    case 0xA5 => Some(Instruction(LDA, ZeroPage))
    case 0xB5 => Some(Instruction(LDA, ZeroPageX))
    case 0xAD => Some(Instruction(LDA, Absolute))
    case 0xBD => Some(Instruction(LDA, AbsoluteX))
    case 0xB9 => Some(Instruction(LDA, AbsoluteY))
    case 0xA1 => Some(Instruction(LDA, IndexedIndirect))
    case 0xB1 => Some(Instruction(LDA, IndirectIndexed))
    case 0xA2 => Some(Instruction(LDX, Immediate))
    case 0xA6 => Some(Instruction(LDX, ZeroPage))
    case 0xB6 => Some(Instruction(LDX, ZeroPageX))
    case 0xAE => Some(Instruction(LDX, Absolute))
    case 0xBE => Some(Instruction(LDX, AbsoluteX))
    case 0xA0 => Some(Instruction(LDY, Immediate))
    case 0xA4 => Some(Instruction(LDY, ZeroPage))
    case 0xB4 => Some(Instruction(LDY, ZeroPageX))
    case 0xAC => Some(Instruction(LDY, Absolute))
    case 0xBC => Some(Instruction(LDY, AbsoluteX))
    case 0x4A => Some(Instruction(LSR, Accumulator))
    case 0x46 => Some(Instruction(LSR, ZeroPage))
    case 0x56 => Some(Instruction(LSR, ZeroPageX))
    case 0x4E => Some(Instruction(LSR, Absolute))
    case 0x5E => Some(Instruction(LSR, AbsoluteX))
    case 0xEA => Some(Instruction(NOP, Implicit))
    case 0x09 => Some(Instruction(ORA, Immediate))
    case 0x05 => Some(Instruction(ORA, ZeroPage))
    case 0x15 => Some(Instruction(ORA, ZeroPageX))
    case 0x0D => Some(Instruction(ORA, Absolute))
    case 0x1D => Some(Instruction(ORA, AbsoluteX))
    case 0x19 => Some(Instruction(ORA, AbsoluteY))
    case 0x01 => Some(Instruction(ORA, IndexedIndirect))
    case 0x11 => Some(Instruction(ORA, IndirectIndexed))
    case 0x48 => Some(Instruction(PHA, Implicit))
    case 0x08 => Some(Instruction(PHP, Implicit))
    case 0x68 => Some(Instruction(PLA, Implicit))
    case 0x28 => Some(Instruction(PLP, Implicit))
    case 0x2A => Some(Instruction(ROL, Accumulator))
    case 0x26 => Some(Instruction(ROL, ZeroPage))
    case 0x36 => Some(Instruction(ROL, ZeroPageX))
    case 0x2E => Some(Instruction(ROL, Absolute))
    case 0x3E => Some(Instruction(ROL, AbsoluteX))
    case 0x6A => Some(Instruction(ROR, Accumulator))
    case 0x66 => Some(Instruction(ROR, ZeroPage))
    case 0x76 => Some(Instruction(ROR, ZeroPageX))
    case 0x6E => Some(Instruction(ROR, Absolute))
    case 0x7E => Some(Instruction(ROR, AbsoluteX))
    case 0x40 => Some(Instruction(RTI, Implicit))
    case 0x60 => Some(Instruction(RTS, Implicit))
    case 0xE9 => Some(Instruction(SBC, Immediate))
    case 0xE5 => Some(Instruction(SBC, ZeroPage))
    case 0xF5 => Some(Instruction(SBC, ZeroPageX))
    case 0xED => Some(Instruction(SBC, Absolute))
    case 0xFD => Some(Instruction(SBC, AbsoluteX))
    case 0xF9 => Some(Instruction(SBC, AbsoluteY))
    case 0xE1 => Some(Instruction(SBC, IndexedIndirect))
    case 0xF1 => Some(Instruction(SBC, IndirectIndexed))
    case 0x38 => Some(Instruction(SEC, Implicit))
    case 0xF8 => Some(Instruction(SED, Implicit))
    case 0x78 => Some(Instruction(SEI, Implicit))
    case 0x85 => Some(Instruction(STA, ZeroPage))
    case 0x95 => Some(Instruction(STA, ZeroPageX))
    case 0x8D => Some(Instruction(STA, Absolute))
    case 0x9D => Some(Instruction(STA, AbsoluteX))
    case 0x99 => Some(Instruction(STA, AbsoluteY))
    case 0x81 => Some(Instruction(STA, IndexedIndirect))
    case 0x91 => Some(Instruction(STA, IndirectIndexed))
    case 0x86 => Some(Instruction(STX, ZeroPage))
    case 0x96 => Some(Instruction(STX, ZeroPageY))
    case 0x8E => Some(Instruction(STX, Absolute))
    case 0x84 => Some(Instruction(STY, ZeroPage))
    case 0x94 => Some(Instruction(STY, ZeroPageX))
    case 0x8C => Some(Instruction(STY, Absolute))
    case 0xAA => Some(Instruction(TAX, Implicit))
    case 0xA8 => Some(Instruction(TAY, Implicit))
    case 0xBA => Some(Instruction(TSX, Implicit))
    case 0x8A => Some(Instruction(TXA, Implicit))
    case 0x9A => Some(Instruction(TXS, Implicit))
    case 0x98 => Some(Instruction(TYA, Implicit))
    case _ => None
  }

  /** The opcode byte of an (operation, mode) pair, or `None` when the
      table has no row for the pair. */
  function Encode(i: Instruction): Option<int>
  {
    match i
    case Instruction(ADC, Immediate) => Some(0x69)
    case Instruction(ADC, ZeroPage) => Some(0x65)
    case Instruction(ADC, ZeroPageX) => Some(0x75)
    case Instruction(ADC, Absolute) => Some(0x6D)
    case Instruction(ADC, AbsoluteX) => Some(0x7D)
    case Instruction(ADC, AbsoluteY) => Some(0x79)
    case Instruction(ADC, IndexedIndirect) => Some(0x61)
    case Instruction(ADC, IndirectIndexed) => Some(0x71)
    case Instruction(AND, Immediate) => Some(0x29)
    case Instruction(AND, ZeroPage) => Some(0x25)
    case Instruction(AND, ZeroPageX) => Some(0x35)
    case Instruction(AND, Absolute) => Some(0x2D)
    case Instruction(AND, AbsoluteX) => Some(0x3D)
    case Instruction(AND, AbsoluteY) => Some(0x39)
    case Instruction(AND, IndexedIndirect) => Some(0x21)
    case Instruction(AND, IndirectIndexed) => Some(0x31)
    case Instruction(ASL, Accumulator) => Some(0x0A)
    case Instruction(ASL, ZeroPage) => Some(0x06)
    case Instruction(ASL, ZeroPageX) => Some(0x16)
    case Instruction(ASL, Absolute) => Some(0x0E)
    case Instruction(ASL, AbsoluteX) => Some(0x1E)
    case Instruction(BCC, Relative) => Some(0x90)
    case Instruction(BCS, Relative) => Some(0xB0)
    case Instruction(BEQ, Relative) => Some(0xF0)
    case Instruction(BIT, ZeroPage) => Some(0x24)
    case Instruction(BIT, Absolute) => Some(0x2C)
    case Instruction(BMI, Relative) => Some(0x30)
    case Instruction(BNE, Relative) => Some(0xD0)
    case Instruction(BPL, Relative) => Some(0x10)
    case Instruction(BRK, Implicit) => Some(0x00)
    case Instruction(BVC, Relative) => Some(0x50)
    case Instruction(BVS, Relative) => Some(0x70)
    case Instruction(CLC, Implicit) => Some(0x18)
    case Instruction(CLD, Implicit) => Some(0xD8)
    case Instruction(CLI, Implicit) => Some(0x58)
    case Instruction(CLV, Implicit) => Some(0xB8)
    case Instruction(CMP, Immediate) => Some(0xC9)
    case Instruction(CMP, ZeroPage) => Some(0xC5)
    case Instruction(CMP, ZeroPageX) => Some(0xD5)
    case Instruction(CMP, Absolute) => Some(0xCD)
    case Instruction(CMP, AbsoluteX) => Some(0xDD)
    case Instruction(CMP, AbsoluteY) => Some(0xD9)
    case Instruction(CMP, IndexedIndirect) => Some(0xC1)
    case Instruction(CMP, IndirectIndexed) => Some(0xD1)
    case Instruction(CPX, Immediate) => Some(0xE0)
    case Instruction(CPX, ZeroPage) => Some(0xE4)
    case Instruction(CPX, Absolute) => Some(0xEC)
    case Instruction(CPY, Immediate) => Some(0xC0)
    case Instruction(CPY, ZeroPage) => Some(0xC4)
    case Instruction(CPY, Absolute) => Some(0xCC)
    case Instruction(DEC, ZeroPage) => Some(0xC6)
    case Instruction(DEC, ZeroPageX) => Some(0xD6)
    case Instruction(DEC, Absolute) => Some(0xCE)
    case Instruction(DEC, AbsoluteX) => Some(0xDE)
    case Instruction(DEX, Implicit) => Some(0xCA)
    case Instruction(DEY, Implicit) => Some(0x88)
    case Instruction(EOR, Immediate) => Some(0x49)
    case Instruction(EOR, ZeroPage) => Some(0x45)
    case Instruction(EOR, ZeroPageX) => Some(0x55)
    case Instruction(EOR, Absolute) => Some(0x4D)
    case Instruction(EOR, AbsoluteX) => Some(0x5D)
    case Instruction(EOR, AbsoluteY) => Some(0x59)
    case Instruction(EOR, IndexedIndirect) => Some(0x41)
    case Instruction(EOR, IndirectIndexed) => Some(0x51)
    case Instruction(INC, ZeroPage) => Some(0xE6)
    case Instruction(INC, ZeroPageX) => Some(0xF6)
    case Instruction(INC, Absolute) => Some(0xEE)
    case Instruction(INC, AbsoluteX) => Some(0xFE)
    case Instruction(INX, Implicit) => Some(0xE8)
    case Instruction(INY, Implicit) => Some(0xC8)
    case Instruction(JMP, Absolute) => Some(0x4C)
    case Instruction(JMP, Indirect) => Some(0x6C)
    case Instruction(JSR, Absolute) => Some(0x20)
    case Instruction(LDA, Immediate) => Some(0xA9)
    case Instruction(LDA, ZeroPage) => Some(0xA5)
    case Instruction(LDA, ZeroPageX) => Some(0xB5)
    case Instruction(LDA, Absolute) => Some(0xAD)
    case Instruction(LDA, AbsoluteX) => Some(0xBD)
    case Instruction(LDA, AbsoluteY) => Some(0xB9)
    case Instruction(LDA, IndexedIndirect) => Some(0xA1)
    case Instruction(LDA, IndirectIndexed) => Some(0xB1)
    case Instruction(LDX, Immediate) => Some(0xA2)
    case Instruction(LDX, ZeroPage) => Some(0xA6)
    case Instruction(LDX, ZeroPageX) => Some(0xB6)
    case Instruction(LDX, Absolute) => Some(0xAE)
    case Instruction(LDX, AbsoluteX) => Some(0xBE)
    case Instruction(LDY, Immediate) => Some(0xA0)
    case Instruction(LDY, ZeroPage) => Some(0xA4)
    case Instruction(LDY, ZeroPageX) => Some(0xB4)
    case Instruction(LDY, Absolute) => Some(0xAC)
    case Instruction(LDY, AbsoluteX) => Some(0xBC)
    case Instruction(LSR, Accumulator) => Some(0x4A)
    case Instruction(LSR, ZeroPage) => Some(0x46)
    case Instruction(LSR, ZeroPageX) => Some(0x56)
    case Instruction(LSR, Absolute) => Some(0x4E)
    case Instruction(LSR, AbsoluteX) => Some(0x5E)
    case Instruction(NOP, Implicit) => Some(0xEA)
    case Instruction(ORA, Immediate) => Some(0x09)
    case Instruction(ORA, ZeroPage) => Some(0x05)
    case Instruction(ORA, ZeroPageX) => Some(0x15)
    case Instruction(ORA, Absolute) => Some(0x0D)
    case Instruction(ORA, AbsoluteX) => Some(0x1D)
    case Instruction(ORA, AbsoluteY) => Some(0x19)
    case Instruction(ORA, IndexedIndirect) => Some(0x01)
    case Instruction(ORA, IndirectIndexed) => Some(0x11)
    case Instruction(PHA, Implicit) => Some(0x48)
    case Instruction(PHP, Implicit) => Some(0x08)
    case Instruction(PLA, Implicit) => Some(0x68)
    case Instruction(PLP, Implicit) => Some(0x28)
    case Instruction(ROL, Accumulator) => Some(0x2A)
    case Instruction(ROL, ZeroPage) => Some(0x26)
    case Instruction(ROL, ZeroPageX) => Some(0x36)
    case Instruction(ROL, Absolute) => Some(0x2E)
    case Instruction(ROL, AbsoluteX) => Some(0x3E)
    case Instruction(ROR, Accumulator) => Some(0x6A)
    case Instruction(ROR, ZeroPage) => Some(0x66)
    case Instruction(ROR, ZeroPageX) => Some(0x76)
    case Instruction(ROR, Absolute) => Some(0x6E)
    case Instruction(ROR, AbsoluteX) => Some(0x7E)
    case Instruction(RTI, Implicit) => Some(0x40)
    case Instruction(RTS, Implicit) => Some(0x60)
    case Instruction(SBC, Immediate) => Some(0xE9)
    case Instruction(SBC, ZeroPage) => Some(0xE5)
    case Instruction(SBC, ZeroPageX) => Some(0xF5)
    case Instruction(SBC, Absolute) => Some(0xED)
    case Instruction(SBC, AbsoluteX) => Some(0xFD)
    case Instruction(SBC, AbsoluteY) => Some(0xF9)
    case Instruction(SBC, IndexedIndirect) => Some(0xE1)
    case Instruction(SBC, IndirectIndexed) => Some(0xF1)
    case Instruction(SEC, Implicit) => Some(0x38)
    case Instruction(SED, Implicit) => Some(0xF8)
    case Instruction(SEI, Implicit) => Some(0x78)
    case Instruction(STA, ZeroPage) => Some(0x85)
    case Instruction(STA, ZeroPageX) => Some(0x95)
    case Instruction(STA, Absolute) => Some(0x8D)
    case Instruction(STA, AbsoluteX) => Some(0x9D)
    case Instruction(STA, AbsoluteY) => Some(0x99)
    case Instruction(STA, IndexedIndirect) => Some(0x81)
    case Instruction(STA, IndirectIndexed) => Some(0x91)
    case Instruction(STX, ZeroPage) => Some(0x86)
    case Instruction(STX, ZeroPageY) => Some(0x96)
    case Instruction(STX, Absolute) => Some(0x8E)
    case Instruction(STY, ZeroPage) => Some(0x84)
    case Instruction(STY, ZeroPageX) => Some(0x94)
    case Instruction(STY, Absolute) => Some(0x8C)
    case Instruction(TAX, Implicit) => Some(0xAA)
    case Instruction(TAY, Implicit) => Some(0xA8)
    case Instruction(TSX, Implicit) => Some(0xBA)
    case Instruction(TXA, Implicit) => Some(0x8A)
    case Instruction(TXS, Implicit) => Some(0x9A)
    case Instruction(TYA, Implicit) => Some(0x98)
    case _ => None
  }

  /** Encoding the decoded pair gives the byte back. */
  predicate WellFormedRow(byte: int)
  {
    DecodeInst(byte).Some? ==> Encode(DecodeInst(byte).value) == Some(byte)
  }

  /** Every byte of `[lo, hi)` is a well-formed row, checked one by one. */
  predicate RowsOk(lo: int, hi: int)
    decreases hi - lo
  {
    hi <= lo || (RowsOk(lo, hi - 1) && WellFormedRow(hi - 1))
  }

  lemma {:induction false} RowsOkSplit(lo: int, mid: int, hi: int)
    requires lo <= mid <= hi
    ensures RowsOk(lo, hi) <==> RowsOk(lo, mid) && RowsOk(mid, hi)
    decreases hi - mid
  {
    if hi > mid {
      RowsOkSplit(lo, mid, hi - 1);
    }
  }

  lemma {:induction false} RowsOkElement(lo: int, hi: int, byte: int)
    requires RowsOk(lo, hi) && lo <= byte < hi
    ensures WellFormedRow(byte)
    decreases hi - lo
  {
    if byte < hi - 1 {
      RowsOkElement(lo, hi - 1, byte);
    }
  }

  // The table checked byte by byte, then eight and sixty-four bytes at a
  // time.
  lemma Row00() ensures WellFormedRow(0x00) { }
  lemma Row01() ensures WellFormedRow(0x01) { }
  lemma Row02() ensures WellFormedRow(0x02) { }
  lemma Row03() ensures WellFormedRow(0x03) { }
  lemma Row04() ensures WellFormedRow(0x04) { }
  lemma Row05() ensures WellFormedRow(0x05) { }
  lemma Row06() ensures WellFormedRow(0x06) { }
  lemma Row07() ensures WellFormedRow(0x07) { }
  lemma Row08() ensures WellFormedRow(0x08) { }
  lemma Row09() ensures WellFormedRow(0x09) { }
  lemma Row0A() ensures WellFormedRow(0x0a) { }
  lemma Row0B() ensures WellFormedRow(0x0b) { }
  lemma Row0C() ensures WellFormedRow(0x0c) { }
  lemma Row0D() ensures WellFormedRow(0x0d) { }
  lemma Row0E() ensures WellFormedRow(0x0e) { }
  lemma Row0F() ensures WellFormedRow(0x0f) { }
  lemma Row10() ensures WellFormedRow(0x10) { }
  lemma Row11() ensures WellFormedRow(0x11) { }
  lemma Row12() ensures WellFormedRow(0x12) { }
  lemma Row13() ensures WellFormedRow(0x13) { }
  lemma Row14() ensures WellFormedRow(0x14) { }
  lemma Row15() ensures WellFormedRow(0x15) { }
  lemma Row16() ensures WellFormedRow(0x16) { }
  lemma Row17() ensures WellFormedRow(0x17) { }
  lemma Row18() ensures WellFormedRow(0x18) { }
  lemma Row19() ensures WellFormedRow(0x19) { }
  lemma Row1A() ensures WellFormedRow(0x1a) { }
  lemma Row1B() ensures WellFormedRow(0x1b) { }
  lemma Row1C() ensures WellFormedRow(0x1c) { }
  lemma Row1D() ensures WellFormedRow(0x1d) { }
  lemma Row1E() ensures WellFormedRow(0x1e) { }
  lemma Row1F() ensures WellFormedRow(0x1f) { }
  lemma Row20() ensures WellFormedRow(0x20) { }
  lemma Row21() ensures WellFormedRow(0x21) { }
  lemma Row22() ensures WellFormedRow(0x22) { }
  lemma Row23() ensures WellFormedRow(0x23) { }
  lemma Row24() ensures WellFormedRow(0x24) { }
  lemma Row25() ensures WellFormedRow(0x25) { }
  lemma Row26() ensures WellFormedRow(0x26) { }
  lemma Row27() ensures WellFormedRow(0x27) { }
  lemma Row28() ensures WellFormedRow(0x28) { }
  lemma Row29() ensures WellFormedRow(0x29) { }
  lemma Row2A() ensures WellFormedRow(0x2a) { }
  lemma Row2B() ensures WellFormedRow(0x2b) { }
  lemma Row2C() ensures WellFormedRow(0x2c) { }
  lemma Row2D() ensures WellFormedRow(0x2d) { }
  lemma Row2E() ensures WellFormedRow(0x2e) { }
  lemma Row2F() ensures WellFormedRow(0x2f) { }
  lemma Row30() ensures WellFormedRow(0x30) { }
  lemma Row31() ensures WellFormedRow(0x31) { }
  lemma Row32() ensures WellFormedRow(0x32) { }
  lemma Row33() ensures WellFormedRow(0x33) { }
  lemma Row34() ensures WellFormedRow(0x34) { }
  lemma Row35() ensures WellFormedRow(0x35) { }
  lemma Row36() ensures WellFormedRow(0x36) { }
  lemma Row37() ensures WellFormedRow(0x37) { }
  lemma Row38() ensures WellFormedRow(0x38) { }
  lemma Row39() ensures WellFormedRow(0x39) { }
  lemma Row3A() ensures WellFormedRow(0x3a) { }
  lemma Row3B() ensures WellFormedRow(0x3b) { }
  lemma Row3C() ensures WellFormedRow(0x3c) { }
  lemma Row3D() ensures WellFormedRow(0x3d) { }
  lemma Row3E() ensures WellFormedRow(0x3e) { }
  lemma Row3F() ensures WellFormedRow(0x3f) { }
  lemma Row40() ensures WellFormedRow(0x40) { }
  lemma Row41() ensures WellFormedRow(0x41) { }
  lemma Row42() ensures WellFormedRow(0x42) { }
  lemma Row43() ensures WellFormedRow(0x43) { }
  lemma Row44() ensures WellFormedRow(0x44) { }
  lemma Row45() ensures WellFormedRow(0x45) { }
  lemma Row46() ensures WellFormedRow(0x46) { }
  lemma Row47() ensures WellFormedRow(0x47) { }
  lemma Row48() ensures WellFormedRow(0x48) { }
  lemma Row49() ensures WellFormedRow(0x49) { }
  lemma Row4A() ensures WellFormedRow(0x4a) { }
  lemma Row4B() ensures WellFormedRow(0x4b) { }
  lemma Row4C() ensures WellFormedRow(0x4c) { }
  lemma Row4D() ensures WellFormedRow(0x4d) { }
  lemma Row4E() ensures WellFormedRow(0x4e) { }
  lemma Row4F() ensures WellFormedRow(0x4f) { }
  lemma Row50() ensures WellFormedRow(0x50) { }
  lemma Row51() ensures WellFormedRow(0x51) { }
  lemma Row52() ensures WellFormedRow(0x52) { }
  lemma Row53() ensures WellFormedRow(0x53) { }
  lemma Row54() ensures WellFormedRow(0x54) { }
  lemma Row55() ensures WellFormedRow(0x55) { }
  lemma Row56() ensures WellFormedRow(0x56) { }
  lemma Row57() ensures WellFormedRow(0x57) { }
  lemma Row58() ensures WellFormedRow(0x58) { }
  lemma Row59() ensures WellFormedRow(0x59) { }
  lemma Row5A() ensures WellFormedRow(0x5a) { }
  lemma Row5B() ensures WellFormedRow(0x5b) { }
  lemma Row5C() ensures WellFormedRow(0x5c) { }
  lemma Row5D() ensures WellFormedRow(0x5d) { }
  lemma Row5E() ensures WellFormedRow(0x5e) { }
  lemma Row5F() ensures WellFormedRow(0x5f) { }
  lemma Row60() ensures WellFormedRow(0x60) { }
  lemma Row61() ensures WellFormedRow(0x61) { }
  lemma Row62() ensures WellFormedRow(0x62) { }
  lemma Row63() ensures WellFormedRow(0x63) { }
  lemma Row64() ensures WellFormedRow(0x64) { }
  lemma Row65() ensures WellFormedRow(0x65) { }
  lemma Row66() ensures WellFormedRow(0x66) { }
  lemma Row67() ensures WellFormedRow(0x67) { }
  lemma Row68() ensures WellFormedRow(0x68) { }
  lemma Row69() ensures WellFormedRow(0x69) { }
  lemma Row6A() ensures WellFormedRow(0x6a) { }
  lemma Row6B() ensures WellFormedRow(0x6b) { }
  lemma Row6C() ensures WellFormedRow(0x6c) { }
  lemma Row6D() ensures WellFormedRow(0x6d) { }
  lemma Row6E() ensures WellFormedRow(0x6e) { }
  lemma Row6F() ensures WellFormedRow(0x6f) { }
  lemma Row70() ensures WellFormedRow(0x70) { }
  lemma Row71() ensures WellFormedRow(0x71) { }
  lemma Row72() ensures WellFormedRow(0x72) { }
  lemma Row73() ensures WellFormedRow(0x73) { }
  lemma Row74() ensures WellFormedRow(0x74) { }
  lemma Row75() ensures WellFormedRow(0x75) { }
  lemma Row76() ensures WellFormedRow(0x76) { }
  lemma Row77() ensures WellFormedRow(0x77) { }
  lemma Row78() ensures WellFormedRow(0x78) { }
  lemma Row79() ensures WellFormedRow(0x79) { }
  lemma Row7A() ensures WellFormedRow(0x7a) { }
  lemma Row7B() ensures WellFormedRow(0x7b) { }
  lemma Row7C() ensures WellFormedRow(0x7c) { }
  lemma Row7D() ensures WellFormedRow(0x7d) { }
  lemma Row7E() ensures WellFormedRow(0x7e) { }
  lemma Row7F() ensures WellFormedRow(0x7f) { }
  lemma Row80() ensures WellFormedRow(0x80) { }
  lemma Row81() ensures WellFormedRow(0x81) { }
  lemma Row82() ensures WellFormedRow(0x82) { }
  lemma Row83() ensures WellFormedRow(0x83) { }
  lemma Row84() ensures WellFormedRow(0x84) { }
  lemma Row85() ensures WellFormedRow(0x85) { }
  lemma Row86() ensures WellFormedRow(0x86) { }
  lemma Row87() ensures WellFormedRow(0x87) { }
  lemma Row88() ensures WellFormedRow(0x88) { }
  lemma Row89() ensures WellFormedRow(0x89) { }
  lemma Row8A() ensures WellFormedRow(0x8a) { }
  lemma Row8B() ensures WellFormedRow(0x8b) { }
  lemma Row8C() ensures WellFormedRow(0x8c) { }
  lemma Row8D() ensures WellFormedRow(0x8d) { }
  lemma Row8E() ensures WellFormedRow(0x8e) { }
  lemma Row8F() ensures WellFormedRow(0x8f) { }
  lemma Row90() ensures WellFormedRow(0x90) { }
  lemma Row91() ensures WellFormedRow(0x91) { }
  lemma Row92() ensures WellFormedRow(0x92) { }
  lemma Row93() ensures WellFormedRow(0x93) { }
  lemma Row94() ensures WellFormedRow(0x94) { }
  lemma Row95() ensures WellFormedRow(0x95) { }
  lemma Row96() ensures WellFormedRow(0x96) { }
  lemma Row97() ensures WellFormedRow(0x97) { }
  lemma Row98() ensures WellFormedRow(0x98) { }
  lemma Row99() ensures WellFormedRow(0x99) { }
  lemma Row9A() ensures WellFormedRow(0x9a) { }
  lemma Row9B() ensures WellFormedRow(0x9b) { }
  lemma Row9C() ensures WellFormedRow(0x9c) { }
  lemma Row9D() ensures WellFormedRow(0x9d) { }
  lemma Row9E() ensures WellFormedRow(0x9e) { }
  lemma Row9F() ensures WellFormedRow(0x9f) { }
  lemma RowA0() ensures WellFormedRow(0xa0) { }
  lemma RowA1() ensures WellFormedRow(0xa1) { }
  lemma RowA2() ensures WellFormedRow(0xa2) { }
  lemma RowA3() ensures WellFormedRow(0xa3) { }
  lemma RowA4() ensures WellFormedRow(0xa4) { }
  lemma RowA5() ensures WellFormedRow(0xa5) { }
  lemma RowA6() ensures WellFormedRow(0xa6) { }
  lemma RowA7() ensures WellFormedRow(0xa7) { }
  lemma RowA8() ensures WellFormedRow(0xa8) { }
  lemma RowA9() ensures WellFormedRow(0xa9) { }
  lemma RowAA() ensures WellFormedRow(0xaa) { }
  lemma RowAB() ensures WellFormedRow(0xab) { }
  lemma RowAC() ensures WellFormedRow(0xac) { }
  lemma RowAD() ensures WellFormedRow(0xad) { }
  lemma RowAE() ensures WellFormedRow(0xae) { }
  lemma RowAF() ensures WellFormedRow(0xaf) { }
  lemma RowB0() ensures WellFormedRow(0xb0) { }
  lemma RowB1() ensures WellFormedRow(0xb1) { }
  lemma RowB2() ensures WellFormedRow(0xb2) { }
  lemma RowB3() ensures WellFormedRow(0xb3) { }
  lemma RowB4() ensures WellFormedRow(0xb4) { }
  lemma RowB5() ensures WellFormedRow(0xb5) { }
  lemma RowB6() ensures WellFormedRow(0xb6) { }
  lemma RowB7() ensures WellFormedRow(0xb7) { }
  lemma RowB8() ensures WellFormedRow(0xb8) { }
  lemma RowB9() ensures WellFormedRow(0xb9) { }
  lemma RowBA() ensures WellFormedRow(0xba) { }
  lemma RowBB() ensures WellFormedRow(0xbb) { }
  lemma RowBC() ensures WellFormedRow(0xbc) { }
  lemma RowBD() ensures WellFormedRow(0xbd) { }
  lemma RowBE() ensures WellFormedRow(0xbe) { }
  lemma RowBF() ensures WellFormedRow(0xbf) { }
  lemma RowC0() ensures WellFormedRow(0xc0) { }
  lemma RowC1() ensures WellFormedRow(0xc1) { }
  lemma RowC2() ensures WellFormedRow(0xc2) { }
  lemma RowC3() ensures WellFormedRow(0xc3) { }
  lemma RowC4() ensures WellFormedRow(0xc4) { }
  lemma RowC5() ensures WellFormedRow(0xc5) { }
  lemma RowC6() ensures WellFormedRow(0xc6) { }
  lemma RowC7() ensures WellFormedRow(0xc7) { }
  lemma RowC8() ensures WellFormedRow(0xc8) { }
  lemma RowC9() ensures WellFormedRow(0xc9) { }
  lemma RowCA() ensures WellFormedRow(0xca) { }
  lemma RowCB() ensures WellFormedRow(0xcb) { }
  lemma RowCC() ensures WellFormedRow(0xcc) { }
  lemma RowCD() ensures WellFormedRow(0xcd) { }
  lemma RowCE() ensures WellFormedRow(0xce) { }
  lemma RowCF() ensures WellFormedRow(0xcf) { }
  lemma RowD0() ensures WellFormedRow(0xd0) { }
  lemma RowD1() ensures WellFormedRow(0xd1) { }
  lemma RowD2() ensures WellFormedRow(0xd2) { }
  lemma RowD3() ensures WellFormedRow(0xd3) { }
  lemma RowD4() ensures WellFormedRow(0xd4) { }
  lemma RowD5() ensures WellFormedRow(0xd5) { }
  lemma RowD6() ensures WellFormedRow(0xd6) { }
  lemma RowD7() ensures WellFormedRow(0xd7) { }
  lemma RowD8() ensures WellFormedRow(0xd8) { }
  lemma RowD9() ensures WellFormedRow(0xd9) { }
  lemma RowDA() ensures WellFormedRow(0xda) { }
  lemma RowDB() ensures WellFormedRow(0xdb) { }
  lemma RowDC() ensures WellFormedRow(0xdc) { }
  lemma RowDD() ensures WellFormedRow(0xdd) { }
  lemma RowDE() ensures WellFormedRow(0xde) { }
  lemma RowDF() ensures WellFormedRow(0xdf) { }
  lemma RowE0() ensures WellFormedRow(0xe0) { }
  lemma RowE1() ensures WellFormedRow(0xe1) { }
  lemma RowE2() ensures WellFormedRow(0xe2) { }
  lemma RowE3() ensures WellFormedRow(0xe3) { }
  lemma RowE4() ensures WellFormedRow(0xe4) { }
  lemma RowE5() ensures WellFormedRow(0xe5) { }
  lemma RowE6() ensures WellFormedRow(0xe6) { }
  lemma RowE7() ensures WellFormedRow(0xe7) { }
  lemma RowE8() ensures WellFormedRow(0xe8) { }
  lemma RowE9() ensures WellFormedRow(0xe9) { }
  lemma RowEA() ensures WellFormedRow(0xea) { }
  lemma RowEB() ensures WellFormedRow(0xeb) { }
  lemma RowEC() ensures WellFormedRow(0xec) { }
  lemma RowED() ensures WellFormedRow(0xed) { }
  lemma RowEE() ensures WellFormedRow(0xee) { }
  lemma RowEF() ensures WellFormedRow(0xef) { }
  lemma RowF0() ensures WellFormedRow(0xf0) { }
  lemma RowF1() ensures WellFormedRow(0xf1) { }
  lemma RowF2() ensures WellFormedRow(0xf2) { }
  lemma RowF3() ensures WellFormedRow(0xf3) { }
  lemma RowF4() ensures WellFormedRow(0xf4) { }
  lemma RowF5() ensures WellFormedRow(0xf5) { }
  lemma RowF6() ensures WellFormedRow(0xf6) { }
  lemma RowF7() ensures WellFormedRow(0xf7) { }
  lemma RowF8() ensures WellFormedRow(0xf8) { }
  lemma RowF9() ensures WellFormedRow(0xf9) { }
  lemma RowFA() ensures WellFormedRow(0xfa) { }
  lemma RowFB() ensures WellFormedRow(0xfb) { }
  lemma RowFC() ensures WellFormedRow(0xfc) { }
  lemma RowFD() ensures WellFormedRow(0xfd) { }
  lemma RowFE() ensures WellFormedRow(0xfe) { }
  lemma RowFF() ensures WellFormedRow(0xff) { }

  lemma Rows00() ensures RowsOk(0x00, 0x08) { Row00(); Row01(); Row02(); Row03(); Row04(); Row05(); Row06(); Row07(); }
  lemma Rows08() ensures RowsOk(0x08, 0x10) { Row08(); Row09(); Row0A(); Row0B(); Row0C(); Row0D(); Row0E(); Row0F(); }
  lemma Rows10() ensures RowsOk(0x10, 0x18) { Row10(); Row11(); Row12(); Row13(); Row14(); Row15(); Row16(); Row17(); }
  lemma Rows18() ensures RowsOk(0x18, 0x20) { Row18(); Row19(); Row1A(); Row1B(); Row1C(); Row1D(); Row1E(); Row1F(); }
  lemma Rows20() ensures RowsOk(0x20, 0x28) { Row20(); Row21(); Row22(); Row23(); Row24(); Row25(); Row26(); Row27(); }
  lemma Rows28() ensures RowsOk(0x28, 0x30) { Row28(); Row29(); Row2A(); Row2B(); Row2C(); Row2D(); Row2E(); Row2F(); }
  lemma Rows30() ensures RowsOk(0x30, 0x38) { Row30(); Row31(); Row32(); Row33(); Row34(); Row35(); Row36(); Row37(); }
  lemma Rows38() ensures RowsOk(0x38, 0x40) { Row38(); Row39(); Row3A(); Row3B(); Row3C(); Row3D(); Row3E(); Row3F(); }
  lemma Rows40() ensures RowsOk(0x40, 0x48) { Row40(); Row41(); Row42(); Row43(); Row44(); Row45(); Row46(); Row47(); }
  lemma Rows48() ensures RowsOk(0x48, 0x50) { Row48(); Row49(); Row4A(); Row4B(); Row4C(); Row4D(); Row4E(); Row4F(); }
  lemma Rows50() ensures RowsOk(0x50, 0x58) { Row50(); Row51(); Row52(); Row53(); Row54(); Row55(); Row56(); Row57(); }
  lemma Rows58() ensures RowsOk(0x58, 0x60) { Row58(); Row59(); Row5A(); Row5B(); Row5C(); Row5D(); Row5E(); Row5F(); }
  lemma Rows60() ensures RowsOk(0x60, 0x68) { Row60(); Row61(); Row62(); Row63(); Row64(); Row65(); Row66(); Row67(); }
  lemma Rows68() ensures RowsOk(0x68, 0x70) { Row68(); Row69(); Row6A(); Row6B(); Row6C(); Row6D(); Row6E(); Row6F(); }
  lemma Rows70() ensures RowsOk(0x70, 0x78) { Row70(); Row71(); Row72(); Row73(); Row74(); Row75(); Row76(); Row77(); }
  lemma Rows78() ensures RowsOk(0x78, 0x80) { Row78(); Row79(); Row7A(); Row7B(); Row7C(); Row7D(); Row7E(); Row7F(); }
  lemma Rows80() ensures RowsOk(0x80, 0x88) { Row80(); Row81(); Row82(); Row83(); Row84(); Row85(); Row86(); Row87(); }
  lemma Rows88() ensures RowsOk(0x88, 0x90) { Row88(); Row89(); Row8A(); Row8B(); Row8C(); Row8D(); Row8E(); Row8F(); }
  lemma Rows90() ensures RowsOk(0x90, 0x98) { Row90(); Row91(); Row92(); Row93(); Row94(); Row95(); Row96(); Row97(); }
  lemma Rows98() ensures RowsOk(0x98, 0xa0) { Row98(); Row99(); Row9A(); Row9B(); Row9C(); Row9D(); Row9E(); Row9F(); }
  lemma RowsA0() ensures RowsOk(0xa0, 0xa8) { RowA0(); RowA1(); RowA2(); RowA3(); RowA4(); RowA5(); RowA6(); RowA7(); }
  lemma RowsA8() ensures RowsOk(0xa8, 0xb0) { RowA8(); RowA9(); RowAA(); RowAB(); RowAC(); RowAD(); RowAE(); RowAF(); }
  lemma RowsB0() ensures RowsOk(0xb0, 0xb8) { RowB0(); RowB1(); RowB2(); RowB3(); RowB4(); RowB5(); RowB6(); RowB7(); }
  lemma RowsB8() ensures RowsOk(0xb8, 0xc0) { RowB8(); RowB9(); RowBA(); RowBB(); RowBC(); RowBD(); RowBE(); RowBF(); }
  lemma RowsC0() ensures RowsOk(0xc0, 0xc8) { RowC0(); RowC1(); RowC2(); RowC3(); RowC4(); RowC5(); RowC6(); RowC7(); }
  lemma RowsC8() ensures RowsOk(0xc8, 0xd0) { RowC8(); RowC9(); RowCA(); RowCB(); RowCC(); RowCD(); RowCE(); RowCF(); }
  lemma RowsD0() ensures RowsOk(0xd0, 0xd8) { RowD0(); RowD1(); RowD2(); RowD3(); RowD4(); RowD5(); RowD6(); RowD7(); }
  lemma RowsD8() ensures RowsOk(0xd8, 0xe0) { RowD8(); RowD9(); RowDA(); RowDB(); RowDC(); RowDD(); RowDE(); RowDF(); }
  lemma RowsE0() ensures RowsOk(0xe0, 0xe8) { RowE0(); RowE1(); RowE2(); RowE3(); RowE4(); RowE5(); RowE6(); RowE7(); }
  lemma RowsE8() ensures RowsOk(0xe8, 0xf0) { RowE8(); RowE9(); RowEA(); RowEB(); RowEC(); RowED(); RowEE(); RowEF(); }
  lemma RowsF0() ensures RowsOk(0xf0, 0xf8) { RowF0(); RowF1(); RowF2(); RowF3(); RowF4(); RowF5(); RowF6(); RowF7(); }
  lemma RowsF8() ensures RowsOk(0xf8, 0x100) { RowF8(); RowF9(); RowFA(); RowFB(); RowFC(); RowFD(); RowFE(); RowFF(); }

  lemma {:induction false} RowsQuarter0()
    ensures RowsOk(0x00, 0x40)
  {
    Rows00();
    Rows08();
    Rows10();
    Rows18();
    Rows20();
    Rows28();
    Rows30();
    Rows38();
    RowsOkSplit(0x00, 0x08, 0x10);
    RowsOkSplit(0x00, 0x10, 0x18);
    RowsOkSplit(0x00, 0x18, 0x20);
    RowsOkSplit(0x00, 0x20, 0x28);
    RowsOkSplit(0x00, 0x28, 0x30);
    RowsOkSplit(0x00, 0x30, 0x38);
    RowsOkSplit(0x00, 0x38, 0x40);
  }

  lemma {:induction false} RowsQuarter1()
    ensures RowsOk(0x40, 0x80)
  {
    Rows40();
    Rows48();
    Rows50();
    Rows58();
    Rows60();
    Rows68();
    Rows70();
    Rows78();
    RowsOkSplit(0x40, 0x48, 0x50);
    RowsOkSplit(0x40, 0x50, 0x58);
    RowsOkSplit(0x40, 0x58, 0x60);
    RowsOkSplit(0x40, 0x60, 0x68);
    RowsOkSplit(0x40, 0x68, 0x70);
    RowsOkSplit(0x40, 0x70, 0x78);
    RowsOkSplit(0x40, 0x78, 0x80);
  }

  lemma {:induction false} RowsQuarter2()
    ensures RowsOk(0x80, 0xc0)
  {
    Rows80();
    Rows88();
    Rows90();
    Rows98();
    RowsA0();
    RowsA8();
    RowsB0();
    RowsB8();
    RowsOkSplit(0x80, 0x88, 0x90);
    RowsOkSplit(0x80, 0x90, 0x98);
    RowsOkSplit(0x80, 0x98, 0xa0);
    RowsOkSplit(0x80, 0xa0, 0xa8);
    RowsOkSplit(0x80, 0xa8, 0xb0);
    RowsOkSplit(0x80, 0xb0, 0xb8);
    RowsOkSplit(0x80, 0xb8, 0xc0);
  }

  lemma {:induction false} RowsQuarter3()
    ensures RowsOk(0xc0, 0x100)
  {
    RowsC0();
    RowsC8();
    RowsD0();
    RowsD8();
    RowsE0();
    RowsE8();
    RowsF0();
    RowsF8();
    RowsOkSplit(0xc0, 0xc8, 0xd0);
    RowsOkSplit(0xc0, 0xd0, 0xd8);
    RowsOkSplit(0xc0, 0xd8, 0xe0);
    RowsOkSplit(0xc0, 0xe0, 0xe8);
    RowsOkSplit(0xc0, 0xe8, 0xf0);
    RowsOkSplit(0xc0, 0xf0, 0xf8);
    RowsOkSplit(0xc0, 0xf8, 0x100);
  }

  /** Decoding then encoding gives the byte back, so `Encode` is the
      inverse of the table on the accepted bytes. */
  lemma {:induction false} DecodeEncode(byte: int)
    requires 0x00 <= byte < 0x100 && DecodeInst(byte).Some?
    ensures Encode(DecodeInst(byte).value) == Some(byte)
  {
    RowsQuarter0();
    RowsQuarter1();
    RowsQuarter2();
    RowsQuarter3();
    RowsOkSplit(0x00, 0x40, 0x80);
    RowsOkSplit(0x00, 0x80, 0xc0);
    RowsOkSplit(0x00, 0xc0, 0x100);
    RowsOkElement(0x00, 0x100, byte);
  }

  /** No two accepted opcodes decode to the same (operation, mode) pair. */
  lemma DecodeInjective(b1: int, b2: int)
    requires 0x00 <= b1 < 0x100 && 0x00 <= b2 < 0x100
    requires DecodeInst(b1).Some? && DecodeInst(b1) == DecodeInst(b2)
    ensures b1 == b2
  {
    DecodeEncode(b1);
    DecodeEncode(b2);
  }

  /** The rows of the table, read from the (operation, mode) side. */
  lemma EncodeShape(i: Instruction)
    requires Encode(i).Some?
    ensures i.mode == Relative <==> IsBranch(i.operation)
    ensures i.mode == Accumulator ==> IsShift(i.operation) && Encode(i).value in {0x0A, 0x4A, 0x2A, 0x6A}
    ensures i.mode == Indirect ==> i.operation == JMP && Encode(i).value == 0x6C
    ensures IsStore(i.operation) ==> i.mode != Immediate && i.mode != Accumulator && i.mode != Implicit
    ensures i.operation != NMI && i.operation != IRQ
  {
  }

  /** Relative mode is produced exactly for the eight branches. */
  lemma RelativeIffBranch(byte: int)
    requires 0x00 <= byte < 0x100 && DecodeInst(byte).Some?
    ensures DecodeInst(byte).value.mode == Relative <==> IsBranch(DecodeInst(byte).value.operation)
  {
    DecodeEncode(byte);
    EncodeShape(DecodeInst(byte).value);
  }

  /** The accumulator form belongs to ASL, LSR, ROL and ROR, at 0x0A, 0x4A,
      0x2A and 0x6A. */
  lemma AccumulatorOnlyShifts(byte: int)
    requires 0x00 <= byte < 0x100 && DecodeInst(byte).Some? && DecodeInst(byte).value.mode == Accumulator
    ensures IsShift(DecodeInst(byte).value.operation) && byte in {0x0A, 0x4A, 0x2A, 0x6A}
  {
    DecodeEncode(byte);
    EncodeShape(DecodeInst(byte).value);
  }

  /** The indirect form belongs to JMP at 0x6C only. */
  lemma IndirectOnlyJmp(byte: int)
    requires 0x00 <= byte < 0x100 && DecodeInst(byte).Some? && DecodeInst(byte).value.mode == Indirect
    ensures DecodeInst(byte).value.operation == JMP && byte == 0x6C
  {
    DecodeEncode(byte);
    EncodeShape(DecodeInst(byte).value);
  }

  /** STA, STX and STY always have a memory operand, and no byte decodes to
      an interrupt pseudo-operation. */
  lemma StoresTakeMemory(byte: int)
    requires 0x00 <= byte < 0x100 && DecodeInst(byte).Some?
    ensures IsStore(DecodeInst(byte).value.operation) ==> DecodeInst(byte).value.mode !in {Immediate, Accumulator, Implicit}
    ensures DecodeInst(byte).value.operation !in {NMI, IRQ}
  {
    DecodeEncode(byte);
    EncodeShape(DecodeInst(byte).value);
  }

  /** The bytes `decode_inst` returns for. */
  const Accepted: set<int> := set b | 0x00 <= b < 0x100 && DecodeInst(b).Some?

  /** The number of members of `s` in `[lo, hi)`, counted one by one. */
  function CountIn(s: set<int>, lo: int, hi: int): nat
    decreases hi - lo
  {
    if hi <= lo then 0 else CountIn(s, lo, hi - 1) + (if hi - 1 in s then 1 else 0)
  }

  lemma {:induction false} CountIsCardinality(s: set<int>, lo: int, hi: int)
    ensures CountIn(s, lo, hi) == |set b | b in s && lo <= b < hi|
    decreases hi - lo
  {
    if hi <= lo {
      assert (set b | b in s && lo <= b < hi) == {};
    } else {
      CountIsCardinality(s, lo, hi - 1);
      var below := set b | b in s && lo <= b < hi - 1;
      if hi - 1 in s {
        assert (set b | b in s && lo <= b < hi) == below + {hi - 1};
      } else {
        assert (set b | b in s && lo <= b < hi) == below;
      }
    }
  }

  /** The number of bytes in `[lo, hi)` that `decode_inst` returns for. */
  function CountDecoded(lo: int, hi: int): nat
    decreases hi - lo
  {
    if hi <= lo then 0 else CountDecoded(lo, hi - 1) + (if DecodeInst(hi - 1).Some? then 1 else 0)
  }

  lemma {:induction false} CountDecodedIsCount(lo: int, hi: int)
    requires 0x00 <= lo
    ensures CountDecoded(lo, hi) == CountIn(Accepted, lo, hi)
    decreases hi - lo
  {
    if hi > lo {
      CountDecodedIsCount(lo, hi - 1);
      assert hi - 1 in Accepted <==> hi - 1 < 0x100 && DecodeInst(hi - 1).Some?;
    }
  }

  lemma {:induction false} CountDecodedSplit(lo: int, mid: int, hi: int)
    requires lo <= mid <= hi
    ensures CountDecoded(lo, hi) == CountDecoded(lo, mid) + CountDecoded(mid, hi)
    decreases hi - mid
  {
    if hi > mid {
      CountDecodedSplit(lo, mid, hi - 1);
    }
  }

  lemma {:induction false} CountChunk0()
    ensures CountDecoded(0x00, 0x20) == 17
  {
    assert CountDecoded(0x00, 0x04) == 2;
    assert CountDecoded(0x00, 0x08) == 4;
    assert CountDecoded(0x00, 0x0c) == 7;
    assert CountDecoded(0x00, 0x10) == 9;
    assert CountDecoded(0x00, 0x14) == 11;
    assert CountDecoded(0x00, 0x18) == 13;
    assert CountDecoded(0x00, 0x1c) == 15;
  }

  lemma {:induction false} CountChunk1()
    ensures CountDecoded(0x20, 0x40) == 19
  {
    assert CountDecoded(0x20, 0x24) == 2;
    assert CountDecoded(0x20, 0x28) == 5;
    assert CountDecoded(0x20, 0x2c) == 8;
    assert CountDecoded(0x20, 0x30) == 11;
    assert CountDecoded(0x20, 0x34) == 13;
    assert CountDecoded(0x20, 0x38) == 15;
    assert CountDecoded(0x20, 0x3c) == 17;
  }

  lemma {:induction false} CountChunk2()
    ensures CountDecoded(0x40, 0x60) == 18
  {
    assert CountDecoded(0x40, 0x44) == 2;
    assert CountDecoded(0x40, 0x48) == 4;
    assert CountDecoded(0x40, 0x4c) == 7;
    assert CountDecoded(0x40, 0x50) == 10;
    assert CountDecoded(0x40, 0x54) == 12;
    assert CountDecoded(0x40, 0x58) == 14;
    assert CountDecoded(0x40, 0x5c) == 16;
  }

  lemma {:induction false} CountChunk3()
    ensures CountDecoded(0x60, 0x80) == 18
  {
    assert CountDecoded(0x60, 0x64) == 2;
    assert CountDecoded(0x60, 0x68) == 4;
    assert CountDecoded(0x60, 0x6c) == 7;
    assert CountDecoded(0x60, 0x70) == 10;
    assert CountDecoded(0x60, 0x74) == 12;
    assert CountDecoded(0x60, 0x78) == 14;
    assert CountDecoded(0x60, 0x7c) == 16;
  }

  lemma {:induction false} CountChunk4()
    ensures CountDecoded(0x80, 0xa0) == 18
  {
    assert CountDecoded(0x80, 0x84) == 1;
    assert CountDecoded(0x80, 0x88) == 4;
    assert CountDecoded(0x80, 0x8c) == 6;
    assert CountDecoded(0x80, 0x90) == 9;
    assert CountDecoded(0x80, 0x94) == 11;
    assert CountDecoded(0x80, 0x98) == 14;
    assert CountDecoded(0x80, 0x9c) == 17;
  }

  lemma {:induction false} CountChunk5()
    ensures CountDecoded(0xa0, 0xc0) == 23
  {
    assert CountDecoded(0xa0, 0xa4) == 3;
    assert CountDecoded(0xa0, 0xa8) == 6;
    assert CountDecoded(0xa0, 0xac) == 9;
    assert CountDecoded(0xa0, 0xb0) == 12;
    assert CountDecoded(0xa0, 0xb4) == 14;
    assert CountDecoded(0xa0, 0xb8) == 17;
    assert CountDecoded(0xa0, 0xbc) == 20;
  }

  lemma {:induction false} CountChunk6()
    ensures CountDecoded(0xc0, 0xe0) == 19
  {
    assert CountDecoded(0xc0, 0xc4) == 2;
    assert CountDecoded(0xc0, 0xc8) == 5;
    assert CountDecoded(0xc0, 0xcc) == 8;
    assert CountDecoded(0xc0, 0xd0) == 11;
    assert CountDecoded(0xc0, 0xd4) == 13;
    assert CountDecoded(0xc0, 0xd8) == 15;
    assert CountDecoded(0xc0, 0xdc) == 17;
  }

  lemma {:induction false} CountChunk7()
    ensures CountDecoded(0xe0, 0x100) == 19
  {
    assert CountDecoded(0xe0, 0xe4) == 2;
    assert CountDecoded(0xe0, 0xe8) == 5;
    assert CountDecoded(0xe0, 0xec) == 8;
    assert CountDecoded(0xe0, 0xf0) == 11;
    assert CountDecoded(0xe0, 0xf4) == 13;
    assert CountDecoded(0xe0, 0xf8) == 15;
    assert CountDecoded(0xe0, 0xfc) == 17;
  }

  lemma {:induction false} CountLowHalf()
    ensures CountDecoded(0x00, 0x80) == 72
  {
    CountChunk0();
    CountChunk1();
    CountChunk2();
    CountChunk3();
    CountDecodedSplit(0x00, 0x20, 0x40);
    CountDecodedSplit(0x00, 0x40, 0x60);
    CountDecodedSplit(0x00, 0x60, 0x80);
  }

  lemma {:induction false} CountHighHalf()
    ensures CountDecoded(0x80, 0x100) == 79
  {
    CountChunk4();
    CountChunk5();
    CountChunk6();
    CountChunk7();
    CountDecodedSplit(0x80, 0xa0, 0xc0);
    CountDecodedSplit(0x80, 0xc0, 0xe0);
    CountDecodedSplit(0x80, 0xe0, 0x100);
  }

  lemma AcceptedSizeIsCount()
    ensures |Accepted| == CountDecoded(0x00, 0x100)
  {
    CountDecodedIsCount(0x00, 0x100);
    CountIsCardinality(Accepted, 0x00, 0x100);
    assert (set b | b in Accepted && 0x00 <= b < 0x100) == Accepted;
  }

  /** `decode_inst` returns for exactly 151 of the 256 byte values and
      panics on the other 105. */
  lemma AcceptedCount()
    ensures |Accepted| == 151
  {
    AcceptedSizeIsCount();
    CountLowHalf();
    CountHighHalf();
    CountDecodedSplit(0x00, 0x80, 0x100);
  }
}
