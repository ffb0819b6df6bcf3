/** The per-cycle behaviour of the C++ CPU (`src/cpu.cpp`) as functions on a
    snapshot of its fields. Each function here is the specification of the
    `CPU` member function of the same name in `CpuClass`; `Step` is one call
    of `doCycle`. `None` stands for the `exit(1)` of an error branch. The bus
    behind `memory.read`/`memory.write` is a flat 64 KB store whose reads
    have no side effects, so the dummy reads the source performs for their
    bus timing are not modelled. */
module CpuSpec {
  import opened Isa
  import opened Bytes
  import opened StatusFlags
  import opened Alu
  import opened CpuDecode

  /** The fields of `CPU` that `doCycle` reads or writes, and the memory. */
  datatype Machine = Machine(
    ra: Byte,
    rx: Byte,
    ry: Byte,
    pc: Word,
    sp: Byte,
    rf: Flags,
    state: State,
    op: Operation,
    addr: Word,
    value: Byte,
    nmi: bool,
    irq: bool,
    dmaCycles: int,
    dmaAddr: Word,
    cycle: int,
    mem: Memory)

  /** `++` and `--` on a `uint16_t`. */
  function Inc16(w: Word): Word
  {
    (w + 1) % 0x10000
  }

  function Dec16(w: Word): Word
  {
    (w + 0xFFFF) % 0x10000
  }

  lemma Inc16Thrice(w: Word)
    ensures Inc16(Inc16(Inc16(w))) == (w + 3) % 0x10000
  {
    if w < 0xFFFD {
    } else {
    }
  }

  /** An 8-bit decrement followed by an increment is the identity. */
  lemma DownUp(s: Byte)
    ensures ((s + 0xFF) % 0x100 + 1) % 0x100 == s
  {
    if s == 0 {
    } else {
    }
  }

  /** `pc += static_cast<int8_t>(value)`. */
  function AddSigned(w: Word, b: Byte): Word
  {
    (w + Signed(b)) % 0x10000
  }

  /** `CPU::CPU` followed by `reset`: the registers are cleared, the stack
      pointer wraps from 0 to 0xFD, interrupts are disabled and the cycle
      counter starts at 7. `resetPC` is not defined in the sources; the
      program counter it loads is the parameter `start`. Fields the
      constructor leaves uninitialised start at zero. */
  function PowerOn(mem: Memory, start: Word): (m: Machine)
    ensures m.state == Fetch && m.sp == 0xFD && m.rf.irqDisable && m.cycle == 7
    ensures m.ra == 0 && m.rx == 0 && m.ry == 0 && m.pc == start && m.mem == mem
    ensures !m.nmi && !m.irq
  {
    Machine(0, 0, 0, start, (0 - 3) % 0x100, Default().(irqDisable := true),
            Fetch, NOP, 0, 0, false, false, 0, 0, 7, mem)
  }

  /** The status byte `getStatus` returns, as a number. */
  function StatusByte(f: Flags): Byte
  {
    GetStatus(f) as int
  }

  /** `setStatus` of a stack byte. */
  function FromStatusByte(b: Byte): Flags
  {
    SetStatus(b as bv8)
  }

  /** The stack address `0x100 | sp`. */
  function StackAddr(sp: Byte): (a: Word)
    ensures 0x100 <= a <= 0x1FF
  {
    0x100 + sp
  }

  /** `pushStack`: write at `0x100 | sp`, then decrement `sp` modulo 256. */
  function Push(m: Machine, v: Byte): (r: Machine)
    ensures r == m.(mem := r.mem, sp := r.sp)
    ensures r.mem[StackAddr(m.sp)] == v && (r.sp + 1) % 0x100 == m.sp
    ensures forall a :: 0 <= a < 0x10000 && a != StackAddr(m.sp) ==> r.mem[a] == m.mem[a]
  {
    m.(mem := m.mem[StackAddr(m.sp) := v], sp := (m.sp + 0xFF) % 0x100)
  }

  /** `popStack`: the byte at `0x100 | sp`; the callers increment `sp`
      themselves, before the first pull. */
  function Top(m: Machine): Byte
  {
    m.mem[StackAddr(m.sp)]
  }

  function IncSp(m: Machine): Machine
  {
    m.(sp := (m.sp + 1) % 0x100)
  }

  /** Where an addressing sequence goes once the effective address is known:
      read-modify-write operations stall twice, stores execute, everything
      else reads the operand first. */
  function AfterAddress(op: Operation): State
  {
    if IsReadModifyWrite(op) then RMWStall1
    else if IsStore(op) then Execute1
    else Read
  }

  /** The operations that only read an operand into a register or flags. */
  predicate IsRegisterOp(op: Operation)
  {
    op in {ADC, AND, BIT, CMP, CPX, CPY, EOR, LDA, LDX, LDY, ORA, SBC}
  }

  /** `ADC(val)` .. `SBC(val)`: the register and flag updates of an
      operation reading the operand `v`; nothing else changes. */
  function RegisterOp(m: Machine, v: Byte): (r: Machine)
    requires IsRegisterOp(m.op)
    ensures r == m.(ra := r.ra, rx := r.rx, ry := r.ry, rf := r.rf)
    ensures m.op in {LDA, LDX, LDY} ==> r.rf == WithZeroSign(m.rf, v)
    ensures m.op == LDA ==> r.ra == v && r.rx == m.rx && r.ry == m.ry
    ensures m.op == LDX ==> r.rx == v && r.ra == m.ra && r.ry == m.ry
    ensures m.op == LDY ==> r.ry == v && r.ra == m.ra && r.rx == m.rx
    ensures m.op in {BIT, CMP, CPX, CPY} ==> r.ra == m.ra && r.rx == m.rx && r.ry == m.ry
  {
    match m.op
    case ADC => var o := Adc(m.ra, v, m.rf); m.(ra := o.result, rf := o.flags)
    case AND => var o := And(m.ra, v, m.rf); m.(ra := o.result, rf := o.flags)
    case BIT => m.(rf := Alu.Bit(m.ra, v, m.rf))
    case CMP => m.(rf := Compare(m.ra, v, m.rf))
    case CPX => m.(rf := Compare(m.rx, v, m.rf))
    case CPY => m.(rf := Compare(m.ry, v, m.rf))
    case EOR => var o := Eor(m.ra, v, m.rf); m.(ra := o.result, rf := o.flags)
    case LDA => m.(ra := v, rf := WithZeroSign(m.rf, v))
    case LDX => m.(rx := v, rf := WithZeroSign(m.rf, v))
    case LDY => m.(ry := v, rf := WithZeroSign(m.rf, v))
    case ORA => var o := Ora(m.ra, v, m.rf); m.(ra := o.result, rf := o.flags)
    case SBC => var o := Sbc(m.ra, v, m.rf); m.(ra := o.result, rf := o.flags)
  }

  /** `ASL(val)` .. `INC(val)`: the new value and flags. `ROL` and `ROR`
      also read the accumulator `a` for their zero flag. */
  function Modify(op: Operation, a: Byte, v: Byte, f: Flags): Outcome
    requires IsReadModifyWrite(op)
  {
    match op
    case ASL => Asl(v, f)
    case LSR => Lsr(v, f)
    case ROL => Rol(a, v, f)
    case ROR => Ror(a, v, f)
    case DEC => Dec(v, f)
    case INC => Inc(v, f)
  }

  /** The implied operations that finish in their first execute cycle. */
  predicate IsSimpleImplied(op: Operation)
  {
    op in {CLC, SEC, CLI, SEI, DEY, TXA, TYA, TXS, TAY, TAX, CLV, TSX, INY, DEX, CLD, INX, NOP, SED}
  }

  /** The implied operations with sequences of their own. */
  predicate IsStackImplied(op: Operation)
  {
    op in {PHP, PHA, PLP, PLA, RTI, RTS, BRK}
  }

  /** `executeImplicit`: the two-cycle implied operations finish here, touching
      neither memory nor the program counter; the stack operations and `BRK`
      run their own sequences; any other operation is an error. */
  function ExecuteImplicit(m: Machine): (r: Option<Machine>)
    ensures IsSimpleImplied(m.op) ==> r.Some? && r.value.state == Fetch && r.value.mem == m.mem && r.value.pc == m.pc
    ensures !IsSimpleImplied(m.op) && !IsStackImplied(m.op) ==> r.None?
  {
    match m.op
    case CLC => Some(m.(rf := m.rf.(carry := false), state := Fetch))
    case SEC => Some(m.(rf := m.rf.(carry := true), state := Fetch))
    case CLI => Some(m.(rf := m.rf.(irqDisable := false), state := Fetch))
    case SEI => Some(m.(rf := m.rf.(irqDisable := true), state := Fetch))
    case CLV => Some(m.(rf := m.rf.(overflow := false), state := Fetch))
    case CLD => Some(m.(rf := m.rf.(decimalMode := false), state := Fetch))
    case SED => Some(m.(rf := m.rf.(decimalMode := true), state := Fetch))
    case DEY => var o := Dec(m.ry, m.rf); Some(m.(ry := o.result, rf := o.flags, state := Fetch))
    case DEX => var o := Dec(m.rx, m.rf); Some(m.(rx := o.result, rf := o.flags, state := Fetch))
    case INY => var o := Inc(m.ry, m.rf); Some(m.(ry := o.result, rf := o.flags, state := Fetch))
    case INX => var o := Inc(m.rx, m.rf); Some(m.(rx := o.result, rf := o.flags, state := Fetch))
    case TXA => Some(m.(ra := m.rx, rf := WithZeroSign(m.rf, m.rx), state := Fetch))
    case TYA => Some(m.(ra := m.ry, rf := WithZeroSign(m.rf, m.ry), state := Fetch))
    case TAX => Some(m.(rx := m.ra, rf := WithZeroSign(m.rf, m.ra), state := Fetch))
    case TAY => Some(m.(ry := m.ra, rf := WithZeroSign(m.rf, m.ra), state := Fetch))
    case TSX => Some(m.(rx := m.sp, rf := WithZeroSign(m.rf, m.sp), state := Fetch))
    case TXS => Some(m.(sp := m.rx, state := Fetch))
    case NOP => Some(m.(state := Fetch))
    case PHP => Php(m)
    case PHA => Pha(m)
    case PLP => Plp(m)
    case PLA => Pla(m)
    case RTI => Rti(m)
    case RTS => Rts(m)
    case BRK => Brk(m)
    case _ => None
  }

  /** `executeAccumulator`: a shift or rotate of the accumulator. */
  function ExecuteAccumulator(m: Machine): (r: Option<Machine>)
    ensures r.Some? <==> IsShift(m.op)
  {
    if IsShift(m.op) then
      var o := Modify(m.op, m.ra, m.ra, m.rf);
      Some(m.(ra := o.result, rf := o.flags, state := Fetch))
    else None
  }

  /** `executeImmediate`: the operand is the byte after the opcode. */
  function ExecuteImmediate(m: Machine): (r: Option<Machine>)
    ensures r.Some? <==> IsRegisterOp(m.op) && m.op != BIT
  {
    var v := m.mem[m.pc];
    if IsRegisterOp(m.op) && m.op != BIT then
      Some(RegisterOp(m.(pc := Inc16(m.pc)), v).(state := Fetch))
    else None
  }

  /** `executeBranch`: in state `Branch` it only evaluates the condition;
      in `Execute1` it adds the offset, unless the low byte of the program
      counter plus the signed offset exceeds 0xFF, in which case the addition
      waits for `Execute2`. The flag is the condition, and false after the
      later cycles. */
  function ExecuteBranch(m: Machine): (r: Option<(Machine, bool)>)
  {
    if m.state == State.Branch then
      match Condition(m.op, m.rf)
      case None => None
      case Some(taken) => Some((m, taken))
    else if m.state == Execute1 then
      if Lo(m.pc) + Signed(m.value) > 0xFF then Some((m.(state := Execute2), false))
      else Some((m.(pc := AddSigned(m.pc, m.value), state := Fetch), false))
    else if m.state == Execute2 then
      Some((m.(pc := AddSigned(m.pc, m.value), state := Fetch), false))
    else None
  }

  /** `executeInstruction`: the last cycle of an instruction, with `value`
      and `addr` already set, or one cycle of a longer sequence. */
  function ExecuteInstruction(m: Machine): (r: Option<Machine>)
  {
    match m.op
    case ADC | AND | BIT | CMP | CPX | CPY | EOR | LDA | LDX | LDY | ORA | SBC =>
      Some(RegisterOp(m, m.value).(state := Fetch))
    case ASL | LSR | ROL | ROR | DEC | INC =>
      var o := Modify(m.op, m.ra, m.value, m.rf);
      Some(m.(mem := m.mem[m.addr := o.result], rf := o.flags, state := Fetch))
    case STA => Some(m.(mem := m.mem[m.addr := m.ra], state := Fetch))
    case STX => Some(m.(mem := m.mem[m.addr := m.rx], state := Fetch))
    case STY => Some(m.(mem := m.mem[m.addr := m.ry], state := Fetch))
    case JMP => Some(m.(pc := m.addr, state := Fetch))
    case JSR => Jsr(m)
    case CLC | SEC | CLI | SEI | DEY | TXA | TYA | TXS | TAY | TAX | CLV | TSX | INY | DEX | CLD
       | INX | NOP | SED | PHP | PHA | PLP | PLA | RTI | RTS | BRK =>
      ExecuteImplicit(m)
    case BCC | BCS | BEQ | BMI | BNE | BPL | BVC | BVS =>
      (match ExecuteBranch(m)
       case None => None
       case Some(p) => Some(p.0))
    case NMI | IRQ => Interrupt(m)
  }

  /** `JSR`: the low byte of the target, a dummy stack read, the return
      address minus one pushed high byte first, then the high byte of the
      target. */
  function Jsr(m: Machine): Option<Machine>
  {
    match m.state
    case Execute1 => Some(m.(addr := m.mem[m.pc], pc := Inc16(m.pc), state := Execute2))
    case Execute2 => Some(m.(state := Execute3))
    case Execute3 => Some(Push(m, Hi(m.pc)).(state := Execute4))
    case Execute4 => Some(Push(m, Lo(m.pc)).(state := Execute5))
    case Execute5 =>
      var target := OrHigh(m.addr, m.mem[m.pc]);
      Some(m.(addr := target, pc := target, state := Fetch))
    case _ => None
  }

  /** `PHA`: a dummy read, then the accumulator is pushed. */
  function Pha(m: Machine): Option<Machine>
  {
    match m.state
    case Execute1 => Some(m.(state := Execute2))
    case Execute2 => Some(Push(m, m.ra).(state := Fetch))
    case _ => None
  }

  /** `PHP`: the status is pushed with the break flag set, and the flag is
      cleared again afterwards. */
  function Php(m: Machine): Option<Machine>
  {
    match m.state
    case Execute1 => Some(m.(state := Execute2))
    case Execute2 =>
      var f := m.rf.(breakFlag := true);
      Some(Push(m.(rf := f), StatusByte(f)).(rf := f.(breakFlag := false), state := Fetch))
    case _ => None
  }

  /** `PLA`: the stack pointer is incremented, then the accumulator pulled. */
  function Pla(m: Machine): Option<Machine>
  {
    match m.state
    case Execute1 => Some(m.(state := Execute2))
    case Execute2 => Some(IncSp(m).(state := Execute3))
    case Execute3 => Some(m.(ra := Top(m), rf := WithZeroSign(m.rf, Top(m)), state := Fetch))
    case _ => None
  }

  /** `PLP`: the same, pulling the status. */
  function Plp(m: Machine): Option<Machine>
  {
    match m.state
    case Execute1 => Some(m.(state := Execute2))
    case Execute2 => Some(IncSp(m).(state := Execute3))
    case Execute3 => Some(m.(rf := FromStatusByte(Top(m)), state := Fetch))
    case _ => None
  }

  /** `RTI`: pulls the status, then the program counter low and high byte. */
  function Rti(m: Machine): Option<Machine>
  {
    match m.state
    case Execute1 => Some(m.(state := Execute2))
    case Execute2 => Some(IncSp(m).(state := Execute3))
    case Execute3 => Some(IncSp(m.(rf := FromStatusByte(Top(m)))).(state := Execute4))
    case Execute4 => Some(IncSp(m.(pc := Top(m))).(state := Execute5))
    case Execute5 => Some(m.(pc := OrHigh(m.pc, Top(m)), state := Fetch))
    case _ => None
  }

  /** `RTS`: pulls the program counter low and high byte and adds one. */
  function Rts(m: Machine): Option<Machine>
  {
    match m.state
    case Execute1 => Some(m.(state := Execute2))
    case Execute2 => Some(IncSp(m).(state := Execute3))
    case Execute3 => Some(IncSp(m.(pc := Top(m))).(state := Execute4))
    case Execute4 => Some(m.(pc := OrHigh(m.pc, Top(m)), state := Execute5))
    case Execute5 => Some(m.(pc := Inc16(m.pc), state := Fetch))
    case _ => None
  }

  /** `BRK`: skips the padding byte, pushes the program counter and the
      status with the break flag set (and left set), then loads the program
      counter from 0xFFFE/0xFFFF. */
  function Brk(m: Machine): Option<Machine>
  {
    match m.state
    case Execute1 => Some(m.(pc := Inc16(m.pc), state := Execute2))
    case Execute2 => Some(Push(m, Hi(m.pc)).(state := Execute3))
    case Execute3 => Some(Push(m, Lo(m.pc)).(state := Execute4))
    case Execute4 =>
      var f := m.rf.(breakFlag := true);
      Some(Push(m.(rf := f), StatusByte(f)).(state := Execute5))
    case Execute5 => Some(m.(pc := m.mem[0xFFFE], state := Execute6))
    case Execute6 => Some(m.(pc := OrHigh(m.pc, m.mem[0xFFFF]), state := Fetch))
    case _ => None
  }

  /** The last cycle of `INT` (`Execute6`): the high vector byte is shifted
      into place and the low byte is dropped; an NMI is acknowledged. */
  function InterruptHigh(m: Machine): Machine
  {
    var high := if m.op == NMI then m.mem[0xFFFB] else m.mem[0xFFFF];
    m.(nmi := if m.op == NMI then false else m.nmi, pc := Join(0, high), state := Fetch)
  }

  /** `Execute5` of `INT`, which falls through into `Execute6`. */
  function InterruptLow(m: Machine): Machine
  {
    var low := if m.op == NMI then m.mem[0xFFFA] else m.mem[0xFFFE];
    InterruptHigh(m.(rf := if m.op == IRQ then m.rf.(irqDisable := true) else m.rf, pc := low))
  }

  /** `INT`: the NMI and IRQ sequence; `Execute4` pushes the status with the
      break flag clear and falls through to the end in the same cycle. */
  function Interrupt(m: Machine): Option<Machine>
  {
    match m.state
    case Execute1 => Some(m.(state := Execute2))
    case Execute2 => Some(Push(m, Hi(m.pc)).(state := Execute3))
    case Execute3 => Some(Push(m, Lo(m.pc)).(state := Execute4))
    case Execute4 =>
      var f := m.rf.(breakFlag := false);
      Some(InterruptLow(Push(m.(rf := f), StatusByte(f))))
    case Execute5 => Some(InterruptLow(m))
    case Execute6 => Some(InterruptHigh(m))
    case _ => None
  }

  /** The `Fetch` case of `doCycle`: a pending NMI, then an enabled IRQ, then
      a pending sprite DMA (entered on even cycles only) take precedence over
      decoding the next opcode. */
  function FetchCycle(m: Machine): Option<Machine>
  {
    if m.nmi then Some(m.(op := NMI, state := Execute1))
    else if m.irq && !m.rf.irqDisable then Some(m.(op := IRQ, state := Execute1))
    else if m.dmaCycles > 0 then Some(if m.cycle % 2 == 0 then m.(state := OamDma) else m)
    else
      match Decode(m.mem[m.pc])
      case None => None
      case Some(e) => Some(m.(pc := Inc16(m.pc), op := e.op, state := e.state))
  }

  /** The `switch` of `doCycle`, one case per state; `OamDma` has none. */
  function Cycle(m: Machine): Option<Machine>
  {
    match m.state
    case Fetch => FetchCycle(m)
    case Accumulator => ExecuteAccumulator(m)
    case Immediate => ExecuteImmediate(m)
    case Branch =>
      (match ExecuteBranch(m.(value := m.mem[m.pc], pc := Inc16(m.pc)))
       case None => None
       case Some(p) => Some(p.0.(state := if p.1 then Execute1 else Fetch)))
    case Zero => Some(m.(addr := m.mem[m.pc], pc := Inc16(m.pc), state := AfterAddress(m.op)))
    case ZeroX => Some(m.(pc := Inc16(m.pc), state := ZeroXY, value := m.rx))
    case ZeroY => Some(m.(pc := Inc16(m.pc), state := ZeroXY, value := m.ry))
    case ZeroXY => Some(m.(addr := (m.mem[Dec16(m.pc)] + m.value) % 0x100, state := AfterAddress(m.op)))
    case Abs1 => Some(m.(addr := m.mem[m.pc], pc := Inc16(m.pc), state := Abs2))
    case Abs2 =>
      var m1 := m.(addr := OrHigh(m.addr, m.mem[m.pc]), pc := Inc16(m.pc));
      if m.op == JMP then ExecuteInstruction(m1) else Some(m1.(state := AfterAddress(m.op)))
    case RMWStall1 => Some(m.(value := m.mem[m.addr], state := RMWStall2))
    case RMWStall2 => Some(m.(mem := m.mem[m.addr := m.value], state := Execute1))
    case AbsX => Some(m.(addr := m.mem[m.pc], pc := Inc16(m.pc), state := AbsXY, value := m.rx))
    case AbsY => Some(m.(addr := m.mem[m.pc], pc := Inc16(m.pc), state := AbsXY, value := m.ry))
    case AbsXY =>
      // or-ing in the high byte keeps the low byte (`OrHighParts`), so the
      // page-crossing test reads it from `addr` directly
      var a := OrHigh(m.addr, m.mem[m.pc]);
      if Lo(m.addr) + m.value > 0xFF || IsStore(m.op) || IsReadModifyWrite(m.op) then
        Some(m.(addr := a, pc := Inc16(m.pc), state := AbsFix))
      else
        Some(m.(addr := (a + m.value) % 0x10000, pc := Inc16(m.pc), state := Read))
    case AbsFix => Some(m.(addr := (m.addr + m.value) % 0x10000, state := AfterAddress(m.op)))
    case Indexed1 => Some(m.(value := m.mem[m.pc], pc := Inc16(m.pc), state := Indexed2))
    case Indexed2 => Some(m.(value := (m.value + m.rx) % 0x100, state := Indexed3))
    case Indexed3 => Some(m.(addr := m.mem[m.value], state := Indexed4))
    case Indexed4 =>
      Some(m.(addr := OrHigh(m.addr, m.mem[(m.value + 1) % 0x100]), state := if m.op == STA then Execute1 else Read))
    case IndirectIndexed1 => Some(m.(value := m.mem[m.pc], pc := Inc16(m.pc), state := IndirectIndexed2))
    case IndirectIndexed2 => Some(m.(addr := m.mem[m.value], state := IndirectIndexed3))
    case IndirectIndexed3 =>
      var a := OrHigh(m.addr, m.mem[(m.value + 1) % 0x100]);
      if Lo(m.addr) + m.ry > 0xFF || m.op == STA then Some(m.(addr := a, state := IndirectIndexedFix))
      else Some(m.(addr := (a + m.ry) % 0x10000, state := Read))
    case IndirectIndexedFix => Some(m.(addr := (m.addr + m.ry) % 0x10000, state := Read))
    case Indirect1 => Some(m.(addr := m.mem[m.pc], pc := Inc16(m.pc), state := Indirect2))
    case Indirect2 => Some(m.(addr := OrHigh(m.addr, m.mem[m.pc]), pc := Inc16(m.pc), state := Indirect3))
    case Indirect3 => Some(m.(value := m.mem[m.addr], state := Indirect4))
    case Indirect4 =>
      Some(m.(pc := Join(m.value, m.mem[Join((m.addr + 1) % 0x100, Hi(m.addr))]), state := Fetch))
    case Read => ExecuteInstruction(m.(value := m.mem[m.addr], state := Execute1))
    case Execute1 | Execute2 | Execute3 | Execute4 | Execute5 | Execute6 => ExecuteInstruction(m)
    case OamDma => None
  }

  /** `doCycle`: one cycle of the state machine, after which the cycle
      counter has advanced by one. */
  function Step(m: Machine): Option<Machine>
  {
    match Cycle(m)
    case None => None
    case Some(m1) => Some(m1.(cycle := m1.cycle + 1))
  }

  /** `executeDMA`: on even counts a byte is read from the DMA address, on
      odd counts it is written to the sprite data port 0x2004; the count
      falls by one and the CPU resumes fetching when it reaches zero. */
  function ExecuteDma(m: Machine): (r: Option<Machine>)
    ensures r.Some? <==> m.state == OamDma
    ensures r.Some? ==> r.value.dmaCycles == m.dmaCycles - 1
  {
    if m.state != OamDma then None
    else
      var m1 := if m.dmaCycles % 2 == 0 then m.(value := m.mem[m.dmaAddr], dmaAddr := Inc16(m.dmaAddr))
                else m.(mem := m.mem[0x2004 := m.value]);
      Some(m1.(dmaCycles := m.dmaCycles - 1, state := if m.dmaCycles - 1 == 0 then Fetch else OamDma))
  }

  /** `n` applications of a cycle function `f`, or `None` as soon as one
      of them exits. */
  function Iterate(f: Machine -> Option<Machine>, m: Machine, n: nat): Option<Machine>
    decreases n
  {
    if n == 0 then Some(m)
    else
      match f(m)
      case None => None
      case Some(p) => Iterate(f, p, n - 1)
  }

  /** Under `f`, the instruction in progress at `m` is back in `Fetch` after
      exactly `n` cycles and not before. */
  predicate Completes(f: Machine -> Option<Machine>, m: Machine, n: nat)
    decreases n
  {
    && n > 0
    && f(m).Some?
    && (if n == 1 then f(m).value.state == Fetch
        else f(m).value.state != Fetch && Completes(f, f(m).value, n - 1))
  }

  /** `Completes` in terms of `Iterate`: the `n`-th cycle ends in `Fetch`,
      none of the earlier ones does. */
  lemma {:induction false} CompletesIterate(f: Machine -> Option<Machine>, m: Machine, n: nat)
    requires Completes(f, m, n)
    ensures Iterate(f, m, n).Some? && Iterate(f, m, n).value.state == Fetch
    ensures forall k :: 0 < k < n ==> Iterate(f, m, k).Some? && Iterate(f, m, k).value.state != Fetch
    decreases n
  {
    var p := f(m).value;
    if n > 1 {
      CompletesIterate(f, p, n - 1);
      forall k | 0 < k < n
        ensures Iterate(f, m, k).Some? && Iterate(f, m, k).value.state != Fetch
      {
        if k > 1 {
          assert Iterate(f, m, k) == Iterate(f, p, k - 1);
        }
      }
    }
  }

  /** Iterating `a` cycles and then `b` more is iterating `a + b` cycles. */
  lemma {:induction false} IterateAdd(f: Machine -> Option<Machine>, m: Machine, a: nat, b: nat)
    ensures Iterate(f, m, a + b) == (match Iterate(f, m, a) case None => None case Some(p) => Iterate(f, p, b))
    decreases a
  {
    if a > 0 && f(m).Some? {
      IterateAdd(f, f(m).value, a - 1, b);
    }
  }

  /** `n` calls of `doCycle`. */
  function Run(m: Machine, n: nat): Option<Machine>
  {
    Iterate(Step, m, n)
  }

  /** The instruction in progress at `m` takes exactly `n` more cycles. */
  predicate Takes(m: Machine, n: nat)
  {
    Completes(Step, m, n)
  }

  /** Under `f`, the instruction in progress at `m` ends after exactly `n`
      cycles, in the machine `r`. */
  predicate EndsUnder(f: Machine -> Option<Machine>, m: Machine, n: nat, r: Machine)
    decreases n
  {
    && n > 0
    && f(m).Some?
    && (if n == 1 then f(m).value == r && r.state == Fetch
        else f(m).value.state != Fetch && EndsUnder(f, f(m).value, n - 1, r))
  }

  lemma {:induction false} EndsUnderMeans(f: Machine -> Option<Machine>, m: Machine, n: nat, r: Machine)
    requires EndsUnder(f, m, n, r)
    ensures Completes(f, m, n) && Iterate(f, m, n) == Some(r)
    decreases n
  {
    if n > 1 {
      EndsUnderMeans(f, f(m).value, n - 1, r);
    }
  }

  /** One cycle that ends the instruction. */
  lemma EndsUnderLast(f: Machine -> Option<Machine>, m: Machine, r: Machine)
    requires f(m) == Some(r) && r.state == Fetch
    ensures EndsUnder(f, m, 1, r)
  {
  }

  /** One cycle that does not. */
  lemma EndsUnderNext(f: Machine -> Option<Machine>, m: Machine, p: Machine, n: nat, r: Machine)
    requires f(m) == Some(p) && p.state != Fetch && EndsUnder(f, p, n, r)
    ensures EndsUnder(f, m, n + 1, r)
  {
  }

  /** Two instructions in a row. */
  lemma {:induction false} EndsUnderThen(f: Machine -> Option<Machine>, m: Machine, a: nat, r: Machine, b: nat, s: Machine)
    requires EndsUnder(f, m, a, r) && EndsUnder(f, r, b, s)
    ensures Iterate(f, m, a + b) == Some(s)
  {
    EndsUnderMeans(f, m, a, r);
    EndsUnderMeans(f, r, b, s);
    IterateAdd(f, m, a, b);
  }

  /** The instruction in progress at `m` ends after exactly `n` cycles, in
      the machine `r`. */
  predicate Ends(m: Machine, n: nat, r: Machine)
  {
    EndsUnder(Step, m, n, r)
  }

  /** `Ends` means what it says: `Takes` and `Run` agree with it. */
  lemma EndsMeans(m: Machine, n: nat, r: Machine)
    requires Ends(m, n, r)
    ensures Takes(m, n) && Run(m, n) == Some(r)
  {
    EndsUnderMeans(Step, m, n, r);
  }

  /** About to fetch an opcode, with no interrupt and no DMA pending. */
  predicate Ready(m: Machine)
  {
    m.state == Fetch && !m.nmi && !(m.irq && !m.rf.irqDisable) && m.dmaCycles <= 0
  }

  /** Only `doCycle` itself advances the cycle counter: one cycle per call. */
  lemma StepCounts(m: Machine)
    requires Step(m).Some?
    ensures Step(m).value.cycle == m.cycle + 1
  {
    match m.state
    case Fetch =>
    case Branch =>
    case Abs2 =>
      if m.op == JMP {
      }
    case Read =>
      InstructionKeepsCounter(m.(value := m.mem[m.addr], state := Execute1));
    case Execute1 => InstructionKeepsCounter(m);
    case Execute2 => InstructionKeepsCounter(m);
    case Execute3 => InstructionKeepsCounter(m);
    case Execute4 => InstructionKeepsCounter(m);
    case Execute5 => InstructionKeepsCounter(m);
    case Execute6 => InstructionKeepsCounter(m);
    case _ =>
  }

  lemma InstructionKeepsCounter(m: Machine)
    requires ExecuteInstruction(m).Some?
    ensures ExecuteInstruction(m).value.cycle == m.cycle
  {
    if IsSimpleImplied(m.op) || IsStackImplied(m.op) {
      ImplicitKeepsCounter(m);
    } else if IsBranch(m.op) {
    } else if m.op in {NMI, IRQ} {
    } else if m.op == JSR {
    }
  }

  lemma ImplicitKeepsCounter(m: Machine)
    requires ExecuteImplicit(m).Some?
    ensures ExecuteImplicit(m).value.cycle == m.cycle
  {
    match m.op
    case PHP =>
    case PHA =>
    case PLP =>
    case PLA =>
    case RTI =>
    case RTS =>
    case BRK =>
    case _ =>
  }
}
