// The opcode decoder of the C++ core, `CPU::decode` in src/cpu.cpp: an
// opcode byte selects the operation and the first state of the per-cycle
// state machine that runs it.
module CpuDecode {
  import opened Isa
  import RustInstructions

  /** The states of `CPU::doCycle`. `OamDma` is the sprite-DMA state that
      `doCycle` itself has no case for. */
  datatype State =
    | Fetch
    | Abs1 | Abs2 | AbsX | AbsY | AbsXY | AbsFix
    | Zero | ZeroX | ZeroY | ZeroXY
    | Indexed1 | Indexed2 | Indexed3 | Indexed4
    | IndirectIndexed1 | IndirectIndexed2 | IndirectIndexed3 | IndirectIndexedFix
    | Indirect1 | Indirect2 | Indirect3 | Indirect4
    | RMWStall1 | RMWStall2
    | Accumulator | Immediate | Branch | Read
    | Execute1 | Execute2 | Execute3 | Execute4 | Execute5 | Execute6
    | OamDma

  /** What `decode` assigns: the operation and the entry state. */
  datatype Entry = Entry(op: Operation, state: State)

  /** `CPU::decode`; `None` is the `default` branch, which logs the byte
      and ends the program with `exit(1)`. */
  function Decode(byte: int): Option<Entry>
  {
    match byte
    case 0x09 => Some(Entry(ORA, State.Immediate))
    case 0x29 => Some(Entry(AND, State.Immediate))
    case 0x49 => Some(Entry(EOR, State.Immediate))
    case 0x69 => Some(Entry(ADC, State.Immediate))
    case 0xA0 => Some(Entry(LDY, State.Immediate))
    case 0xA2 => Some(Entry(LDX, State.Immediate))
    case 0xA9 => Some(Entry(LDA, State.Immediate))
    case 0xC0 => Some(Entry(CPY, State.Immediate))
    case 0xC9 => Some(Entry(CMP, State.Immediate))
    case 0xE0 => Some(Entry(CPX, State.Immediate))
    case 0xE9 => Some(Entry(SBC, State.Immediate))
    case 0x05 => Some(Entry(ORA, Zero))
    case 0x24 => Some(Entry(BIT, Zero))
    case 0x25 => Some(Entry(AND, Zero))
    case 0x45 => Some(Entry(EOR, Zero))
    case 0x65 => Some(Entry(ADC, Zero))
    case 0x84 => Some(Entry(STY, Zero))
    case 0x85 => Some(Entry(STA, Zero))
    case 0x86 => Some(Entry(STX, Zero))
    case 0xA4 => Some(Entry(LDY, Zero))
    case 0xA5 => Some(Entry(LDA, Zero))
    case 0xA6 => Some(Entry(LDX, Zero))
    case 0xC4 => Some(Entry(CPY, Zero))
    case 0xC5 => Some(Entry(CMP, Zero))
    case 0xE4 => Some(Entry(CPX, Zero))
    case 0xE5 => Some(Entry(SBC, Zero))
    case 0x06 => Some(Entry(ASL, Zero))
    case 0x26 => Some(Entry(ROL, Zero))
    case 0x46 => Some(Entry(LSR, Zero))
    case 0x66 => Some(Entry(ROR, Zero))
    case 0xC6 => Some(Entry(DEC, Zero))
    case 0xE6 => Some(Entry(INC, Zero))
    case 0x15 => Some(Entry(ORA, ZeroX))
    case 0x35 => Some(Entry(AND, ZeroX))
    case 0x55 => Some(Entry(EOR, ZeroX))
    case 0x75 => Some(Entry(ADC, ZeroX))
    case 0x94 => Some(Entry(STY, ZeroX))
    case 0x95 => Some(Entry(STA, ZeroX))
    case 0xB4 => Some(Entry(LDY, ZeroX))
    case 0xB5 => Some(Entry(LDA, ZeroX))
    case 0xD5 => Some(Entry(CMP, ZeroX))
    case 0xF5 => Some(Entry(SBC, ZeroX))
    case 0x16 => Some(Entry(ASL, ZeroX))
    case 0x36 => Some(Entry(ROL, ZeroX))
    case 0x56 => Some(Entry(LSR, ZeroX))
    case 0x76 => Some(Entry(ROR, ZeroX))
    case 0xD6 => Some(Entry(DEC, ZeroX))
    case 0xF6 => Some(Entry(INC, ZeroX))
    case 0xB6 => Some(Entry(LDX, ZeroY))
    case 0x96 => Some(Entry(STX, ZeroY))
    case 0x4C => Some(Entry(JMP, Abs1))
    case 0x6D => Some(Entry(ADC, Abs1))
    case 0x2D => Some(Entry(AND, Abs1))
    case 0x2C => Some(Entry(BIT, Abs1))
    case 0xCD => Some(Entry(CMP, Abs1))
    case 0xEC => Some(Entry(CPX, Abs1))
    case 0xCC => Some(Entry(CPY, Abs1))
    case 0xAD => Some(Entry(LDA, Abs1))
    case 0xAE => Some(Entry(LDX, Abs1))
    case 0xAC => Some(Entry(LDY, Abs1))
    case 0x0D => Some(Entry(ORA, Abs1))
    case 0xED => Some(Entry(SBC, Abs1))
    case 0x8D => Some(Entry(STA, Abs1))
    case 0x8E => Some(Entry(STX, Abs1))
    case 0x8C => Some(Entry(STY, Abs1))
    case 0x4D => Some(Entry(EOR, Abs1))
    case 0x0E => Some(Entry(ASL, Abs1))
    case 0x20 => Some(Entry(JSR, Execute1))
    case 0x2E => Some(Entry(ROL, Abs1))
    case 0x4E => Some(Entry(LSR, Abs1))
    case 0x6E => Some(Entry(ROR, Abs1))
    case 0xCE => Some(Entry(DEC, Abs1))
    case 0xEE => Some(Entry(INC, Abs1))
    case 0x7D => Some(Entry(ADC, AbsX))
    case 0x3D => Some(Entry(AND, AbsX))
    case 0xFD => Some(Entry(SBC, AbsX))
    case 0xDD => Some(Entry(CMP, AbsX))
    case 0x1D => Some(Entry(ORA, AbsX))
    case 0x5D => Some(Entry(EOR, AbsX))
    case 0xBD => Some(Entry(LDA, AbsX))
    case 0xBC => Some(Entry(LDY, AbsX))
    case 0x9D => Some(Entry(STA, AbsX))
    case 0x1E => Some(Entry(ASL, AbsX))
    case 0x3E => Some(Entry(ROL, AbsX))
    case 0x5E => Some(Entry(LSR, AbsX))
    case 0x7E => Some(Entry(ROR, AbsX))
    case 0xDE => Some(Entry(DEC, AbsX))
    case 0xFE => Some(Entry(INC, AbsX))
    case 0x79 => Some(Entry(ADC, AbsY))
    case 0x39 => Some(Entry(AND, AbsY))
    case 0xD9 => Some(Entry(CMP, AbsY))
    case 0x59 => Some(Entry(EOR, AbsY))
    case 0xB9 => Some(Entry(LDA, AbsY))
    case 0xBE => Some(Entry(LDX, AbsY))
    case 0x19 => Some(Entry(ORA, AbsY))
    case 0xF9 => Some(Entry(SBC, AbsY))
    case 0x99 => Some(Entry(STA, AbsY))
    case 0x61 => Some(Entry(ADC, Indexed1))
    case 0x21 => Some(Entry(AND, Indexed1))
    case 0xC1 => Some(Entry(CMP, Indexed1))
    case 0x41 => Some(Entry(EOR, Indexed1))
    case 0xA1 => Some(Entry(LDA, Indexed1))
    case 0x01 => Some(Entry(ORA, Indexed1))
    case 0xE1 => Some(Entry(SBC, Indexed1))
    case 0x81 => Some(Entry(STA, Indexed1))
    case 0x71 => Some(Entry(ADC, IndirectIndexed1))
    case 0x31 => Some(Entry(AND, IndirectIndexed1))
    case 0xD1 => Some(Entry(CMP, IndirectIndexed1))
    case 0x51 => Some(Entry(EOR, IndirectIndexed1))
    case 0xB1 => Some(Entry(LDA, IndirectIndexed1))
    case 0x11 => Some(Entry(ORA, IndirectIndexed1))
    case 0xF1 => Some(Entry(SBC, IndirectIndexed1))
    case 0x91 => Some(Entry(STA, IndirectIndexed1))
    case 0x0A => Some(Entry(ASL, State.Accumulator))
    case 0x4A => Some(Entry(LSR, State.Accumulator))
    case 0x2A => Some(Entry(ROL, State.Accumulator))
    case 0x6A => Some(Entry(ROR, State.Accumulator))
    case 0x90 => Some(Entry(BCC, Branch))
    case 0xB0 => Some(Entry(BCS, Branch))
    case 0xF0 => Some(Entry(BEQ, Branch))
    case 0x30 => Some(Entry(BMI, Branch))
    case 0xD0 => Some(Entry(BNE, Branch))
    case 0x10 => Some(Entry(BPL, Branch))
    case 0x50 => Some(Entry(BVC, Branch))
    case 0x70 => Some(Entry(BVS, Branch))
    case 0x18 => Some(Entry(CLC, Execute1))
    case 0x38 => Some(Entry(SEC, Execute1))
    case 0x58 => Some(Entry(CLI, Execute1))
    case 0x78 => Some(Entry(SEI, Execute1))
    case 0x88 => Some(Entry(DEY, Execute1))
    case 0x8A => Some(Entry(TXA, Execute1))
    case 0x98 => Some(Entry(TYA, Execute1))
    case 0x9A => Some(Entry(TXS, Execute1))
    case 0xA8 => Some(Entry(TAY, Execute1))
    case 0xAA => Some(Entry(TAX, Execute1))
    case 0xB8 => Some(Entry(CLV, Execute1))
    case 0xBA => Some(Entry(TSX, Execute1))
    case 0xC8 => Some(Entry(INY, Execute1))
    case 0xCA => Some(Entry(DEX, Execute1))
    case 0xD8 => Some(Entry(CLD, Execute1))
    case 0xE8 => Some(Entry(INX, Execute1))
    case 0xEA => Some(Entry(NOP, Execute1))
    case 0xF8 => Some(Entry(SED, Execute1))
    case 0x08 => Some(Entry(PHP, Execute1))
    case 0x48 => Some(Entry(PHA, Execute1))
    case 0x28 => Some(Entry(PLP, Execute1))
    case 0x68 => Some(Entry(PLA, Execute1))
    case 0x40 => Some(Entry(RTI, Execute1))
    case 0x60 => Some(Entry(RTS, Execute1))
    case 0x00 => Some(Entry(BRK, Execute1))
    case 0x6C => Some(Entry(JMP, Indirect1))
    case _ => None
  }

  /** The addressing mode an entry state stands for. JSR enters at
      `Execute1` like the one-byte instructions but reads a two-byte
      absolute operand there. */
  function ModeOf(e: Entry): AddressingMode
  {
    match e.state
    case Immediate => AddressingMode.Immediate
    case Accumulator => AddressingMode.Accumulator
    case Zero => ZeroPage
    case ZeroX => ZeroPageX
    case ZeroY => ZeroPageY
    case Abs1 => Absolute
    case AbsX => AbsoluteX
    case AbsY => AbsoluteY
    case Indexed1 => IndexedIndirect
    case IndirectIndexed1 => IndirectIndexed
    case Indirect1 => Indirect
    case Branch => Relative
    case _ => if e.op == JSR then Absolute else Implicit
  }

  /** The C++ and the Rust decoder agree on one byte: both reject it, or
      both accept it with the same operation and, except at 0xB6 and 0xBE,
      the same addressing mode. */
  predicate RowAgrees(byte: int)
  {
    match Decode(byte)
    case None => RustInstructions.DecodeInst(byte).None?
    case Some(e) =>
      && RustInstructions.DecodeInst(byte).Some?
      && e.op == RustInstructions.DecodeInst(byte).value.operation
      && (byte == 0xB6 || byte == 0xBE || ModeOf(e) == RustInstructions.DecodeInst(byte).value.mode)
  }

  /** Every byte of `[lo, hi)` agrees, checked one by one. */
  predicate RowsAgree(lo: int, hi: int)
    decreases hi - lo
  {
    hi <= lo || (RowsAgree(lo, hi - 1) && RowAgrees(hi - 1))
  }

  lemma {:induction false} RowsAgreeSplit(lo: int, mid: int, hi: int)
    requires lo <= mid <= hi
    ensures RowsAgree(lo, hi) <==> RowsAgree(lo, mid) && RowsAgree(mid, hi)
    decreases hi - mid
  {
    if hi > mid {
      RowsAgreeSplit(lo, mid, hi - 1);
    }
  }

  lemma {:induction false} RowsAgreeElement(lo: int, hi: int, byte: int)
    requires RowsAgree(lo, hi) && lo <= byte < hi
    ensures RowAgrees(byte)
    decreases hi - lo
  {
    if byte < hi - 1 {
      RowsAgreeElement(lo, hi - 1, byte);
    }
  }

  // The two tables compared byte by byte, then eight and sixty-four bytes
  // at a time.
  lemma Row00() ensures RowAgrees(0x00) { }
  lemma Row01() ensures RowAgrees(0x01) { }
  lemma Row02() ensures RowAgrees(0x02) { }
  lemma Row03() ensures RowAgrees(0x03) { }
  lemma Row04() ensures RowAgrees(0x04) { }
  lemma Row05() ensures RowAgrees(0x05) { }
  lemma Row06() ensures RowAgrees(0x06) { }
  lemma Row07() ensures RowAgrees(0x07) { }
  lemma Row08() ensures RowAgrees(0x08) { }
  lemma Row09() ensures RowAgrees(0x09) { }
  lemma Row0A() ensures RowAgrees(0x0a) { }
  lemma Row0B() ensures RowAgrees(0x0b) { }
  lemma Row0C() ensures RowAgrees(0x0c) { }
  lemma Row0D() ensures RowAgrees(0x0d) { }
  lemma Row0E() ensures RowAgrees(0x0e) { }
  lemma Row0F() ensures RowAgrees(0x0f) { }
  lemma Row10() ensures RowAgrees(0x10) { }
  lemma Row11() ensures RowAgrees(0x11) { }
  lemma Row12() ensures RowAgrees(0x12) { }
  lemma Row13() ensures RowAgrees(0x13) { }
  lemma Row14() ensures RowAgrees(0x14) { }
  lemma Row15() ensures RowAgrees(0x15) { }
  lemma Row16() ensures RowAgrees(0x16) { }
  lemma Row17() ensures RowAgrees(0x17) { }
  lemma Row18() ensures RowAgrees(0x18) { }
  lemma Row19() ensures RowAgrees(0x19) { }
  lemma Row1A() ensures RowAgrees(0x1a) { }
  lemma Row1B() ensures RowAgrees(0x1b) { }
  lemma Row1C() ensures RowAgrees(0x1c) { }
  lemma Row1D() ensures RowAgrees(0x1d) { }
  lemma Row1E() ensures RowAgrees(0x1e) { }
  lemma Row1F() ensures RowAgrees(0x1f) { }
  lemma Row20() ensures RowAgrees(0x20) { }
  lemma Row21() ensures RowAgrees(0x21) { }
  lemma Row22() ensures RowAgrees(0x22) { }
  lemma Row23() ensures RowAgrees(0x23) { }
  lemma Row24() ensures RowAgrees(0x24) { }
  lemma Row25() ensures RowAgrees(0x25) { }
  lemma Row26() ensures RowAgrees(0x26) { }
  lemma Row27() ensures RowAgrees(0x27) { }
  lemma Row28() ensures RowAgrees(0x28) { }
  lemma Row29() ensures RowAgrees(0x29) { }
  lemma Row2A() ensures RowAgrees(0x2a) { }
  lemma Row2B() ensures RowAgrees(0x2b) { }
  lemma Row2C() ensures RowAgrees(0x2c) { }
  lemma Row2D() ensures RowAgrees(0x2d) { }
  lemma Row2E() ensures RowAgrees(0x2e) { }
  lemma Row2F() ensures RowAgrees(0x2f) { }
  lemma Row30() ensures RowAgrees(0x30) { }
  lemma Row31() ensures RowAgrees(0x31) { }
  lemma Row32() ensures RowAgrees(0x32) { }
  lemma Row33() ensures RowAgrees(0x33) { }
  lemma Row34() ensures RowAgrees(0x34) { }
  lemma Row35() ensures RowAgrees(0x35) { }
  lemma Row36() ensures RowAgrees(0x36) { }
  lemma Row37() ensures RowAgrees(0x37) { }
  lemma Row38() ensures RowAgrees(0x38) { }
  lemma Row39() ensures RowAgrees(0x39) { }
  lemma Row3A() ensures RowAgrees(0x3a) { }
  lemma Row3B() ensures RowAgrees(0x3b) { }
  lemma Row3C() ensures RowAgrees(0x3c) { }
  lemma Row3D() ensures RowAgrees(0x3d) { }
  lemma Row3E() ensures RowAgrees(0x3e) { }
  lemma Row3F() ensures RowAgrees(0x3f) { }
  lemma Row40() ensures RowAgrees(0x40) { }
  lemma Row41() ensures RowAgrees(0x41) { }
  lemma Row42() ensures RowAgrees(0x42) { }
  lemma Row43() ensures RowAgrees(0x43) { }
  lemma Row44() ensures RowAgrees(0x44) { }
  lemma Row45() ensures RowAgrees(0x45) { }
  lemma Row46() ensures RowAgrees(0x46) { }
  lemma Row47() ensures RowAgrees(0x47) { }
  lemma Row48() ensures RowAgrees(0x48) { }
  lemma Row49() ensures RowAgrees(0x49) { }
  lemma Row4A() ensures RowAgrees(0x4a) { }
  lemma Row4B() ensures RowAgrees(0x4b) { }
  lemma Row4C() ensures RowAgrees(0x4c) { }
  lemma Row4D() ensures RowAgrees(0x4d) { }
  lemma Row4E() ensures RowAgrees(0x4e) { }
  lemma Row4F() ensures RowAgrees(0x4f) { }
  lemma Row50() ensures RowAgrees(0x50) { }
  lemma Row51() ensures RowAgrees(0x51) { }
  lemma Row52() ensures RowAgrees(0x52) { }
  lemma Row53() ensures RowAgrees(0x53) { }
  lemma Row54() ensures RowAgrees(0x54) { }
  lemma Row55() ensures RowAgrees(0x55) { }
  lemma Row56() ensures RowAgrees(0x56) { }
  lemma Row57() ensures RowAgrees(0x57) { }
  lemma Row58() ensures RowAgrees(0x58) { }
  lemma Row59() ensures RowAgrees(0x59) { }
  lemma Row5A() ensures RowAgrees(0x5a) { }
  lemma Row5B() ensures RowAgrees(0x5b) { }
  lemma Row5C() ensures RowAgrees(0x5c) { }
  lemma Row5D() ensures RowAgrees(0x5d) { }
  lemma Row5E() ensures RowAgrees(0x5e) { }
  lemma Row5F() ensures RowAgrees(0x5f) { }
  lemma Row60() ensures RowAgrees(0x60) { }
  lemma Row61() ensures RowAgrees(0x61) { }
  lemma Row62() ensures RowAgrees(0x62) { }
  lemma Row63() ensures RowAgrees(0x63) { }
  lemma Row64() ensures RowAgrees(0x64) { }
  lemma Row65() ensures RowAgrees(0x65) { }
  lemma Row66() ensures RowAgrees(0x66) { }
  lemma Row67() ensures RowAgrees(0x67) { }
  lemma Row68() ensures RowAgrees(0x68) { }
  lemma Row69() ensures RowAgrees(0x69) { }
  lemma Row6A() ensures RowAgrees(0x6a) { }
  lemma Row6B() ensures RowAgrees(0x6b) { }
  lemma Row6C() ensures RowAgrees(0x6c) { }
  lemma Row6D() ensures RowAgrees(0x6d) { }
  lemma Row6E() ensures RowAgrees(0x6e) { }
  lemma Row6F() ensures RowAgrees(0x6f) { }
  lemma Row70() ensures RowAgrees(0x70) { }
  lemma Row71() ensures RowAgrees(0x71) { }
  lemma Row72() ensures RowAgrees(0x72) { }
  lemma Row73() ensures RowAgrees(0x73) { }
  lemma Row74() ensures RowAgrees(0x74) { }
  lemma Row75() ensures RowAgrees(0x75) { }
  lemma Row76() ensures RowAgrees(0x76) { }
  lemma Row77() ensures RowAgrees(0x77) { }
  lemma Row78() ensures RowAgrees(0x78) { }
  lemma Row79() ensures RowAgrees(0x79) { }
  lemma Row7A() ensures RowAgrees(0x7a) { }
  lemma Row7B() ensures RowAgrees(0x7b) { }
  lemma Row7C() ensures RowAgrees(0x7c) { }
  lemma Row7D() ensures RowAgrees(0x7d) { }
  lemma Row7E() ensures RowAgrees(0x7e) { }
  lemma Row7F() ensures RowAgrees(0x7f) { }
  lemma Row80() ensures RowAgrees(0x80) { }
  lemma Row81() ensures RowAgrees(0x81) { }
  lemma Row82() ensures RowAgrees(0x82) { }
  lemma Row83() ensures RowAgrees(0x83) { }
  lemma Row84() ensures RowAgrees(0x84) { }
  lemma Row85() ensures RowAgrees(0x85) { }
  lemma Row86() ensures RowAgrees(0x86) { }
  lemma Row87() ensures RowAgrees(0x87) { }
  lemma Row88() ensures RowAgrees(0x88) { }
  lemma Row89() ensures RowAgrees(0x89) { }
  lemma Row8A() ensures RowAgrees(0x8a) { }
  lemma Row8B() ensures RowAgrees(0x8b) { }
  lemma Row8C() ensures RowAgrees(0x8c) { }
  lemma Row8D() ensures RowAgrees(0x8d) { }
  lemma Row8E() ensures RowAgrees(0x8e) { }
  lemma Row8F() ensures RowAgrees(0x8f) { }
  lemma Row90() ensures RowAgrees(0x90) { }
  lemma Row91() ensures RowAgrees(0x91) { }
  lemma Row92() ensures RowAgrees(0x92) { }
  lemma Row93() ensures RowAgrees(0x93) { }
  lemma Row94() ensures RowAgrees(0x94) { }
  lemma Row95() ensures RowAgrees(0x95) { }
  lemma Row96() ensures RowAgrees(0x96) { }
  lemma Row97() ensures RowAgrees(0x97) { }
  lemma Row98() ensures RowAgrees(0x98) { }
  lemma Row99() ensures RowAgrees(0x99) { }
  lemma Row9A() ensures RowAgrees(0x9a) { }
  lemma Row9B() ensures RowAgrees(0x9b) { }
  lemma Row9C() ensures RowAgrees(0x9c) { }
  lemma Row9D() ensures RowAgrees(0x9d) { }
  lemma Row9E() ensures RowAgrees(0x9e) { }
  lemma Row9F() ensures RowAgrees(0x9f) { }
  lemma RowA0() ensures RowAgrees(0xa0) { }
  lemma RowA1() ensures RowAgrees(0xa1) { }
  lemma RowA2() ensures RowAgrees(0xa2) { }
  lemma RowA3() ensures RowAgrees(0xa3) { }
  lemma RowA4() ensures RowAgrees(0xa4) { }
  lemma RowA5() ensures RowAgrees(0xa5) { }
  lemma RowA6() ensures RowAgrees(0xa6) { }
  lemma RowA7() ensures RowAgrees(0xa7) { }
  lemma RowA8() ensures RowAgrees(0xa8) { }
  lemma RowA9() ensures RowAgrees(0xa9) { }
  lemma RowAA() ensures RowAgrees(0xaa) { }
  lemma RowAB() ensures RowAgrees(0xab) { }
  lemma RowAC() ensures RowAgrees(0xac) { }
  lemma RowAD() ensures RowAgrees(0xad) { }
  lemma RowAE() ensures RowAgrees(0xae) { }
  lemma RowAF() ensures RowAgrees(0xaf) { }
  lemma RowB0() ensures RowAgrees(0xb0) { }
  lemma RowB1() ensures RowAgrees(0xb1) { }
  lemma RowB2() ensures RowAgrees(0xb2) { }
  lemma RowB3() ensures RowAgrees(0xb3) { }
  lemma RowB4() ensures RowAgrees(0xb4) { }
  lemma RowB5() ensures RowAgrees(0xb5) { }
  lemma RowB6() ensures RowAgrees(0xb6) { }
  lemma RowB7() ensures RowAgrees(0xb7) { }
  lemma RowB8() ensures RowAgrees(0xb8) { }
  lemma RowB9() ensures RowAgrees(0xb9) { }
  lemma RowBA() ensures RowAgrees(0xba) { }
  lemma RowBB() ensures RowAgrees(0xbb) { }
  lemma RowBC() ensures RowAgrees(0xbc) { }
  lemma RowBD() ensures RowAgrees(0xbd) { }
  lemma RowBE() ensures RowAgrees(0xbe) { }
  lemma RowBF() ensures RowAgrees(0xbf) { }
  lemma RowC0() ensures RowAgrees(0xc0) { }
  lemma RowC1() ensures RowAgrees(0xc1) { }
  lemma RowC2() ensures RowAgrees(0xc2) { }
  lemma RowC3() ensures RowAgrees(0xc3) { }
  lemma RowC4() ensures RowAgrees(0xc4) { }
  lemma RowC5() ensures RowAgrees(0xc5) { }
  lemma RowC6() ensures RowAgrees(0xc6) { }
  lemma RowC7() ensures RowAgrees(0xc7) { }
  lemma RowC8() ensures RowAgrees(0xc8) { }
  lemma RowC9() ensures RowAgrees(0xc9) { }
  lemma RowCA() ensures RowAgrees(0xca) { }
  lemma RowCB() ensures RowAgrees(0xcb) { }
  lemma RowCC() ensures RowAgrees(0xcc) { }
  lemma RowCD() ensures RowAgrees(0xcd) { }
  lemma RowCE() ensures RowAgrees(0xce) { }
  lemma RowCF() ensures RowAgrees(0xcf) { }
  lemma RowD0() ensures RowAgrees(0xd0) { }
  lemma RowD1() ensures RowAgrees(0xd1) { }
  lemma RowD2() ensures RowAgrees(0xd2) { }
  lemma RowD3() ensures RowAgrees(0xd3) { }
  lemma RowD4() ensures RowAgrees(0xd4) { }
  lemma RowD5() ensures RowAgrees(0xd5) { }
  lemma RowD6() ensures RowAgrees(0xd6) { }
  lemma RowD7() ensures RowAgrees(0xd7) { }
  lemma RowD8() ensures RowAgrees(0xd8) { }
  lemma RowD9() ensures RowAgrees(0xd9) { }
  lemma RowDA() ensures RowAgrees(0xda) { }
  lemma RowDB() ensures RowAgrees(0xdb) { }
  lemma RowDC() ensures RowAgrees(0xdc) { }
  lemma RowDD() ensures RowAgrees(0xdd) { }
  lemma RowDE() ensures RowAgrees(0xde) { }
  lemma RowDF() ensures RowAgrees(0xdf) { }
  lemma RowE0() ensures RowAgrees(0xe0) { }
  lemma RowE1() ensures RowAgrees(0xe1) { }
  lemma RowE2() ensures RowAgrees(0xe2) { }
  lemma RowE3() ensures RowAgrees(0xe3) { }
  lemma RowE4() ensures RowAgrees(0xe4) { }
  lemma RowE5() ensures RowAgrees(0xe5) { }
  lemma RowE6() ensures RowAgrees(0xe6) { }
  lemma RowE7() ensures RowAgrees(0xe7) { }
  lemma RowE8() ensures RowAgrees(0xe8) { }
  lemma RowE9() ensures RowAgrees(0xe9) { }
  lemma RowEA() ensures RowAgrees(0xea) { }
  lemma RowEB() ensures RowAgrees(0xeb) { }
  lemma RowEC() ensures RowAgrees(0xec) { }
  lemma RowED() ensures RowAgrees(0xed) { }
  lemma RowEE() ensures RowAgrees(0xee) { }
  lemma RowEF() ensures RowAgrees(0xef) { }
  lemma RowF0() ensures RowAgrees(0xf0) { }
  lemma RowF1() ensures RowAgrees(0xf1) { }
  lemma RowF2() ensures RowAgrees(0xf2) { }
  lemma RowF3() ensures RowAgrees(0xf3) { }
  lemma RowF4() ensures RowAgrees(0xf4) { }
  lemma RowF5() ensures RowAgrees(0xf5) { }
  lemma RowF6() ensures RowAgrees(0xf6) { }
  lemma RowF7() ensures RowAgrees(0xf7) { }
  lemma RowF8() ensures RowAgrees(0xf8) { }
  lemma RowF9() ensures RowAgrees(0xf9) { }
  lemma RowFA() ensures RowAgrees(0xfa) { }
  lemma RowFB() ensures RowAgrees(0xfb) { }
  lemma RowFC() ensures RowAgrees(0xfc) { }
  lemma RowFD() ensures RowAgrees(0xfd) { }
  lemma RowFE() ensures RowAgrees(0xfe) { }
  lemma RowFF() ensures RowAgrees(0xff) { }

  lemma Rows00() ensures RowsAgree(0x00, 0x08) { Row00(); Row01(); Row02(); Row03(); Row04(); Row05(); Row06(); Row07(); }
  lemma Rows08() ensures RowsAgree(0x08, 0x10) { Row08(); Row09(); Row0A(); Row0B(); Row0C(); Row0D(); Row0E(); Row0F(); }
  lemma Rows10() ensures RowsAgree(0x10, 0x18) { Row10(); Row11(); Row12(); Row13(); Row14(); Row15(); Row16(); Row17(); }
  lemma Rows18() ensures RowsAgree(0x18, 0x20) { Row18(); Row19(); Row1A(); Row1B(); Row1C(); Row1D(); Row1E(); Row1F(); }
  lemma Rows20() ensures RowsAgree(0x20, 0x28) { Row20(); Row21(); Row22(); Row23(); Row24(); Row25(); Row26(); Row27(); }
  lemma Rows28() ensures RowsAgree(0x28, 0x30) { Row28(); Row29(); Row2A(); Row2B(); Row2C(); Row2D(); Row2E(); Row2F(); }
  lemma Rows30() ensures RowsAgree(0x30, 0x38) { Row30(); Row31(); Row32(); Row33(); Row34(); Row35(); Row36(); Row37(); }
  lemma Rows38() ensures RowsAgree(0x38, 0x40) { Row38(); Row39(); Row3A(); Row3B(); Row3C(); Row3D(); Row3E(); Row3F(); }
  lemma Rows40() ensures RowsAgree(0x40, 0x48) { Row40(); Row41(); Row42(); Row43(); Row44(); Row45(); Row46(); Row47(); }
  lemma Rows48() ensures RowsAgree(0x48, 0x50) { Row48(); Row49(); Row4A(); Row4B(); Row4C(); Row4D(); Row4E(); Row4F(); }
  lemma Rows50() ensures RowsAgree(0x50, 0x58) { Row50(); Row51(); Row52(); Row53(); Row54(); Row55(); Row56(); Row57(); }
  lemma Rows58() ensures RowsAgree(0x58, 0x60) { Row58(); Row59(); Row5A(); Row5B(); Row5C(); Row5D(); Row5E(); Row5F(); }
  lemma Rows60() ensures RowsAgree(0x60, 0x68) { Row60(); Row61(); Row62(); Row63(); Row64(); Row65(); Row66(); Row67(); }
  lemma Rows68() ensures RowsAgree(0x68, 0x70) { Row68(); Row69(); Row6A(); Row6B(); Row6C(); Row6D(); Row6E(); Row6F(); }
  lemma Rows70() ensures RowsAgree(0x70, 0x78) { Row70(); Row71(); Row72(); Row73(); Row74(); Row75(); Row76(); Row77(); }
  lemma Rows78() ensures RowsAgree(0x78, 0x80) { Row78(); Row79(); Row7A(); Row7B(); Row7C(); Row7D(); Row7E(); Row7F(); }
  lemma Rows80() ensures RowsAgree(0x80, 0x88) { Row80(); Row81(); Row82(); Row83(); Row84(); Row85(); Row86(); Row87(); }
  lemma Rows88() ensures RowsAgree(0x88, 0x90) { Row88(); Row89(); Row8A(); Row8B(); Row8C(); Row8D(); Row8E(); Row8F(); }
  lemma Rows90() ensures RowsAgree(0x90, 0x98) { Row90(); Row91(); Row92(); Row93(); Row94(); Row95(); Row96(); Row97(); }
  lemma Rows98() ensures RowsAgree(0x98, 0xa0) { Row98(); Row99(); Row9A(); Row9B(); Row9C(); Row9D(); Row9E(); Row9F(); }
  lemma RowsA0() ensures RowsAgree(0xa0, 0xa8) { RowA0(); RowA1(); RowA2(); RowA3(); RowA4(); RowA5(); RowA6(); RowA7(); }
  lemma RowsA8() ensures RowsAgree(0xa8, 0xb0) { RowA8(); RowA9(); RowAA(); RowAB(); RowAC(); RowAD(); RowAE(); RowAF(); }
  lemma RowsB0() ensures RowsAgree(0xb0, 0xb8) { RowB0(); RowB1(); RowB2(); RowB3(); RowB4(); RowB5(); RowB6(); RowB7(); }
  lemma RowsB8() ensures RowsAgree(0xb8, 0xc0) { RowB8(); RowB9(); RowBA(); RowBB(); RowBC(); RowBD(); RowBE(); RowBF(); }
  lemma RowsC0() ensures RowsAgree(0xc0, 0xc8) { RowC0(); RowC1(); RowC2(); RowC3(); RowC4(); RowC5(); RowC6(); RowC7(); }
  lemma RowsC8() ensures RowsAgree(0xc8, 0xd0) { RowC8(); RowC9(); RowCA(); RowCB(); RowCC(); RowCD(); RowCE(); RowCF(); }
  lemma RowsD0() ensures RowsAgree(0xd0, 0xd8) { RowD0(); RowD1(); RowD2(); RowD3(); RowD4(); RowD5(); RowD6(); RowD7(); }
  lemma RowsD8() ensures RowsAgree(0xd8, 0xe0) { RowD8(); RowD9(); RowDA(); RowDB(); RowDC(); RowDD(); RowDE(); RowDF(); }
  lemma RowsE0() ensures RowsAgree(0xe0, 0xe8) { RowE0(); RowE1(); RowE2(); RowE3(); RowE4(); RowE5(); RowE6(); RowE7(); }
  lemma RowsE8() ensures RowsAgree(0xe8, 0xf0) { RowE8(); RowE9(); RowEA(); RowEB(); RowEC(); RowED(); RowEE(); RowEF(); }
  lemma RowsF0() ensures RowsAgree(0xf0, 0xf8) { RowF0(); RowF1(); RowF2(); RowF3(); RowF4(); RowF5(); RowF6(); RowF7(); }
  lemma RowsF8() ensures RowsAgree(0xf8, 0x100) { RowF8(); RowF9(); RowFA(); RowFB(); RowFC(); RowFD(); RowFE(); RowFF(); }

  lemma {:induction false} RowsQuarter0()
    ensures RowsAgree(0x00, 0x40)
  {
    Rows00();
    Rows08();
    Rows10();
    Rows18();
    Rows20();
    Rows28();
    Rows30();
    Rows38();
    RowsAgreeSplit(0x00, 0x08, 0x10);
    RowsAgreeSplit(0x00, 0x10, 0x18);
    RowsAgreeSplit(0x00, 0x18, 0x20);
    RowsAgreeSplit(0x00, 0x20, 0x28);
    RowsAgreeSplit(0x00, 0x28, 0x30);
    RowsAgreeSplit(0x00, 0x30, 0x38);
    RowsAgreeSplit(0x00, 0x38, 0x40);
  }

  lemma {:induction false} RowsQuarter1()
    ensures RowsAgree(0x40, 0x80)
  {
    Rows40();
    Rows48();
    Rows50();
    Rows58();
    Rows60();
    Rows68();
    Rows70();
    Rows78();
    RowsAgreeSplit(0x40, 0x48, 0x50);
    RowsAgreeSplit(0x40, 0x50, 0x58);
    RowsAgreeSplit(0x40, 0x58, 0x60);
    RowsAgreeSplit(0x40, 0x60, 0x68);
    RowsAgreeSplit(0x40, 0x68, 0x70);
    RowsAgreeSplit(0x40, 0x70, 0x78);
    RowsAgreeSplit(0x40, 0x78, 0x80);
  }

  lemma {:induction false} RowsQuarter2()
    ensures RowsAgree(0x80, 0xc0)
  {
    Rows80();
    Rows88();
    Rows90();
    Rows98();
    RowsA0();
    RowsA8();
    RowsB0();
    RowsB8();
    RowsAgreeSplit(0x80, 0x88, 0x90);
    RowsAgreeSplit(0x80, 0x90, 0x98);
    RowsAgreeSplit(0x80, 0x98, 0xa0);
    RowsAgreeSplit(0x80, 0xa0, 0xa8);
    RowsAgreeSplit(0x80, 0xa8, 0xb0);
    RowsAgreeSplit(0x80, 0xb0, 0xb8);
    RowsAgreeSplit(0x80, 0xb8, 0xc0);
  }

  lemma {:induction false} RowsQuarter3()
    ensures RowsAgree(0xc0, 0x100)
  {
    RowsC0();
    RowsC8();
    RowsD0();
    RowsD8();
    RowsE0();
    RowsE8();
    RowsF0();
    RowsF8();
    RowsAgreeSplit(0xc0, 0xc8, 0xd0);
    RowsAgreeSplit(0xc0, 0xd0, 0xd8);
    RowsAgreeSplit(0xc0, 0xd8, 0xe0);
    RowsAgreeSplit(0xc0, 0xe0, 0xe8);
    RowsAgreeSplit(0xc0, 0xe8, 0xf0);
    RowsAgreeSplit(0xc0, 0xf0, 0xf8);
    RowsAgreeSplit(0xc0, 0xf8, 0x100);
  }

  /** `CPU::decode` accepts exactly the bytes `Instruction::decode_inst`
      accepts, with the same operation; the addressing modes agree except
      at 0xB6 and 0xBE (see `LdxZeroPageDiffers` and `LdxAbsoluteDiffers`). */
  lemma {:induction false} AgreesWithRust(byte: int)
    requires 0x00 <= byte < 0x100
    ensures Decode(byte).Some? <==> RustInstructions.DecodeInst(byte).Some?
    ensures Decode(byte).Some? ==>
      && Decode(byte).value.op == RustInstructions.DecodeInst(byte).value.operation
      && (byte !in {0xB6, 0xBE} ==> ModeOf(Decode(byte).value) == RustInstructions.DecodeInst(byte).value.mode)
  {
    RowsQuarter0();
    RowsQuarter1();
    RowsQuarter2();
    RowsQuarter3();
    RowsAgreeSplit(0x00, 0x40, 0x80);
    RowsAgreeSplit(0x00, 0x80, 0xc0);
    RowsAgreeSplit(0x00, 0xc0, 0x100);
    RowsAgreeElement(0x00, 0x100, byte);
  }

  /** The first LDX row on which the decoders disagree: zero page,Y here,
      zero page,X in the Rust table. */
  lemma LdxZeroPageDiffers()
    ensures Decode(0xB6) == Some(Entry(LDX, ZeroY)) && ModeOf(Decode(0xB6).value) == ZeroPageY
    ensures RustInstructions.DecodeInst(0xB6) == Some(Instruction(LDX, ZeroPageX))
  {
  }

  /** The second: absolute,Y here, absolute,X in the Rust table. */
  lemma LdxAbsoluteDiffers()
    ensures Decode(0xBE) == Some(Entry(LDX, AbsY)) && ModeOf(Decode(0xBE).value) == AbsoluteY
    ensures RustInstructions.DecodeInst(0xBE) == Some(Instruction(LDX, AbsoluteX))
  {
  }

  /** `decode` accepts exactly 151 bytes. */
  lemma AcceptedCount()
    ensures |set b | 0x00 <= b < 0x100 && Decode(b).Some?| == 151
  {
    RustInstructions.AcceptedCount();
    forall b | 0x00 <= b < 0x100
      ensures Decode(b).Some? <==> b in RustInstructions.Accepted
    {
      AgreesWithRust(b);
    }
    assert (set b | 0x00 <= b < 0x100 && Decode(b).Some?) == RustInstructions.Accepted;
  }
}
