// The 6502 instruction set shared by the C++ core (src/cpu.h, src/cpu.cpp)
// and the Rust rewrite (src/instructions.rs): operation mnemonics,
// addressing modes and the decoded (operation, mode) pair.
module Isa {

  /** The 56 documented 6502 operations. `NMI` and `IRQ` are the two
      pseudo-operations the C++ core uses to run an interrupt sequence
      through the same state machine; no opcode byte decodes to them. */
  datatype Operation =
    | ADC | AND | ASL | BCC | BCS | BEQ | BIT | BMI | BNE | BPL | BRK | BVC
    | BVS | CLC | CLD | CLI | CLV | CMP | CPX | CPY | DEC | DEX | DEY | EOR
    | INC | INX | INY | JMP | JSR | LDA | LDX | LDY | LSR | NOP | ORA | PHA
    | PHP | PLA | PLP | ROL | ROR | RTI | RTS | SBC | SEC | SED | SEI | STA
    | STX | STY | TAX | TAY | TSX | TXA | TXS | TYA
    | NMI | IRQ

  datatype AddressingMode =
    | Implicit
    | Accumulator
    | Immediate
    | ZeroPage
    | ZeroPageX
    | ZeroPageY
    | Relative
    | Absolute
    | AbsoluteX
    | AbsoluteY
    | Indirect
    | IndexedIndirect
    | IndirectIndexed

  datatype Instruction = Instruction(operation: Operation, mode: AddressingMode)

  datatype Option<T> = None | Some(value: T)

  /** The eight conditional branches. */
  predicate IsBranch(o: Operation)
  {
    o in {BCC, BCS, BEQ, BMI, BNE, BPL, BVC, BVS}
  }

  /** The shifts and rotates, the only operations with an accumulator form. */
  predicate IsShift(o: Operation)
  {
    o in {ASL, LSR, ROL, ROR}
  }

  /** The read-modify-write operations on a memory byte. */
  predicate IsReadModifyWrite(o: Operation)
  {
    o in {ASL, LSR, ROL, ROR, INC, DEC}
  }

  /** The register stores. */
  predicate IsStore(o: Operation)
  {
    o in {STA, STX, STY}
  }
}
