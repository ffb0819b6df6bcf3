/** The C++ `CPU` class (`src/cpu.cpp`): the registers and the state of the
    cycle-by-cycle state machine are fields that the member functions update
    in place, and the bus is a 64 KB array shared with whoever created the
    CPU. Every method is proved against the function of the same name in
    `CpuSpec`: `Spec(old(Snapshot())) == if ok then Some(Snapshot()) else
    None` says that the method fails (the source's `exit(1)`) exactly when
    the function gives `None`, and otherwise leaves the fields and the
    memory as the function's result describes. The `switch` statements of
    the source are split into one method per group of cases. */
module CpuClass {
  import opened Isa
  import opened Bytes
  import opened StatusFlags
  import opened Alu
  import opened CpuDecode
  import opened CpuSpec

  /** The result of `ASL` .. `INC` on memory in `executeInstruction`. */
  function ModifyResult(m: Machine): Machine
    requires IsReadModifyWrite(m.op)
  {
    var o := Modify(m.op, m.ra, m.value, m.rf);
    m.(mem := m.mem[m.addr := o.result], rf := o.flags, state := Fetch)
  }

  /** The result of `STA`, `STX` and `STY` in `executeInstruction`. */
  function StoreResult(m: Machine): Machine
    requires IsStore(m.op)
  {
    var v := if m.op == STA then m.ra else if m.op == STX then m.rx else m.ry;
    m.(mem := m.mem[m.addr := v], state := Fetch)
  }

  lemma InstructionOfArithmetic(m: Machine)
    requires m.op in {ADC, SBC, AND, EOR, ORA}
    ensures CpuSpec.ExecuteInstruction(m) == Some(RegisterOp(m, m.value).(state := Fetch))
  {
    match m.op {
      case ADC => case SBC => case AND => case EOR => case ORA =>
    }
  }

  lemma InstructionOfTest(m: Machine)
    requires m.op in {BIT, CMP, CPX, CPY}
    ensures CpuSpec.ExecuteInstruction(m) == Some(RegisterOp(m, m.value).(state := Fetch))
  {
    match m.op {
      case BIT => case CMP => case CPX => case CPY =>
    }
  }

  lemma InstructionOfLoad(m: Machine)
    requires m.op in {LDA, LDX, LDY}
    ensures CpuSpec.ExecuteInstruction(m) == Some(RegisterOp(m, m.value).(state := Fetch))
  {
    match m.op {
      case LDA => case LDX => case LDY =>
    }
  }

  lemma InstructionOfShift(m: Machine)
    requires IsShift(m.op)
    ensures CpuSpec.ExecuteInstruction(m) == Some(ModifyResult(m))
  {
    match m.op {
      case ASL => case LSR => case ROL => case ROR =>
    }
  }

  lemma InstructionOfCount(m: Machine)
    requires m.op in {DEC, INC}
    ensures CpuSpec.ExecuteInstruction(m) == Some(ModifyResult(m))
  {
    match m.op {
      case DEC => case INC =>
    }
  }

  lemma InstructionOfStore(m: Machine)
    requires IsStore(m.op)
    ensures CpuSpec.ExecuteInstruction(m) == Some(StoreResult(m))
  {
    match m.op {
      case STA => case STX => case STY =>
    }
  }

  lemma InstructionOfJmp(m: Machine)
    requires m.op == JMP
    ensures CpuSpec.ExecuteInstruction(m) == Some(m.(pc := m.addr, state := Fetch))
  {
  }

  /** The target of `JMP (ind)`: the pointer's page does not carry into the
      high byte. */
  function IndirectTarget(m: Machine): Word
  {
    Join(m.value, m.mem[Join((m.addr + 1) % 0x100, Hi(m.addr))])
  }

  lemma CycleOfIndirect4(m: Machine)
    requires m.state == Indirect4
    ensures Cycle(m) == Some(m.(pc := IndirectTarget(m), state := Fetch))
  {
  }

  class Cpu {
    var ra: Byte
    var rx: Byte
    var ry: Byte
    var pc: Word
    var sp: Byte
    var rf: Flags
    var state: State
    var op: Operation
    var addr: Word
    var value: Byte
    var nmi: bool
    var irq: bool
    var dmaCycles: int
    var dmaAddr: Word
    var cycle: int
    /** The bus behind `memory.read` and `memory.write`. */
    const memory: array<Byte>

    predicate Valid()
    {
      memory.Length == 0x10000
    }

    /** The fields and the memory as a `Machine`. */
    function Snapshot(): (m: Machine)
      requires Valid()
      reads this, memory
      ensures m.mem == memory[..] && m.pc == pc && m.state == state
    {
      Machine(ra, rx, ry, pc, sp, rf, state, op, addr, value, nmi, irq,
              dmaCycles, dmaAddr, cycle, memory[..])
    }

    /** `CPU::CPU` followed by `reset`: the registers start at zero, the
        cycle counter at 7, and the program counter at `start`, the address
        the reset vector names. The CPU works on the caller's memory. */
    constructor (bus: array<Byte>, start: Word)
      requires bus.Length == 0x10000
      ensures Valid() && memory == bus
      ensures Snapshot() == PowerOn(bus[..], start)
    {
      ra, rx, ry, sp := 0, 0, 0, 0;
      rf := Default();
      state := Fetch;
      op, addr, value := NOP, 0, 0;
      nmi, irq := false, false;
      dmaCycles, dmaAddr := 0, 0;
      cycle := 7;
      memory := bus;
      new;
      Reset(start);
    }

    /** `reset`: interrupts are disabled, the stack pointer drops by three
        and the program counter is loaded from the reset vector. */
    method Reset(start: Word)
      requires Valid()
      modifies this
      ensures Snapshot() == old(Snapshot()).(rf := old(rf).(irqDisable := true), sp := (old(sp) + 0x100 - 3) % 0x100, pc := start)
    {
      rf := rf.(irqDisable := true);
      sp := (sp + 0x100 - 3) % 0x100;
      pc := start;
    }

    /** `decode`: the operation and entry state of an opcode byte. */
    method Decode(byte: Byte) returns (ok: bool)
      requires Valid()
      modifies this
      ensures ok <==> CpuDecode.Decode(byte).Some?
      ensures ok ==> Snapshot() == old(Snapshot()).(op := CpuDecode.Decode(byte).value.op, state := CpuDecode.Decode(byte).value.state)
      ensures !ok ==> Snapshot() == old(Snapshot())
    {
      match CpuDecode.Decode(byte)
      case None =>
        ok := false;
      case Some(e) =>
        op, state := e.op, e.state;
        ok := true;
    }

    /** `pushStack`: write at `0x100 | sp`, then decrement `sp`. */
    method PushStack(v: Byte)
      requires Valid()
      modifies this, memory
      ensures Snapshot() == Push(old(Snapshot()), v)
    {
      memory[StackAddr(sp)] := v;
      sp := (sp + 0xFF) % 0x100;
    }

    /** `popStack`: read at `0x100 | sp`; the callers move `sp`. */
    method PopStack() returns (v: Byte)
      requires Valid()
      ensures v == Top(Snapshot())
    {
      v := memory[StackAddr(sp)];
    }

    // ------------------------------------------------ ADC .. SBC, ASL .. INC

    /** `ADC`, `SBC`, `AND`, `EOR` and `ORA`: the accumulator and the flags. */
    method Arithmetic(val: Byte)
      requires Valid() && op in {ADC, SBC, AND, EOR, ORA}
      modifies this
      ensures Snapshot() == RegisterOp(old(Snapshot()), val)
    {
      var o := match op
        case ADC => Adc(ra, val, rf)
        case SBC => Sbc(ra, val, rf)
        case AND => And(ra, val, rf)
        case EOR => Eor(ra, val, rf)
        case ORA => Ora(ra, val, rf);
      ra, rf := o.result, o.flags;
    }

    /** `BIT` and `__compare` for `CMP`, `CPX` and `CPY`: only the flags. */
    method Test(val: Byte)
      requires Valid() && op in {BIT, CMP, CPX, CPY}
      modifies this
      ensures Snapshot() == RegisterOp(old(Snapshot()), val)
    {
      rf := match op
        case BIT => Alu.Bit(ra, val, rf)
        case CMP => Compare(ra, val, rf)
        case CPX => Compare(rx, val, rf)
        case CPY => Compare(ry, val, rf);
    }

    /** `LDA`, `LDX` and `LDY`. */
    method Load(val: Byte)
      requires Valid() && op in {LDA, LDX, LDY}
      modifies this
      ensures Snapshot() == RegisterOp(old(Snapshot()), val)
    {
      if op == LDA {
        ra := val;
      } else if op == LDX {
        rx := val;
      } else {
        ry := val;
      }
      rf := WithZeroSign(rf, val);
    }

    /** `ADC` .. `SBC` applied to `val`, as `executeImmediate` and
        `executeInstruction` dispatch on `op`. */
    method RegisterOperation(val: Byte)
      requires Valid() && IsRegisterOp(op)
      modifies this
      ensures Snapshot() == RegisterOp(old(Snapshot()), val)
    {
      if op in {ADC, SBC, AND, EOR, ORA} {
        Arithmetic(val);
      } else if op in {BIT, CMP, CPX, CPY} {
        Test(val);
      } else {
        Load(val);
      }
    }

    /** `ASL` .. `INC` on `val`: the flags change and the new value is
        returned to the caller, which stores it. */
    method ModifyOperation(val: Byte) returns (result: Byte)
      requires Valid() && IsReadModifyWrite(op)
      modifies this
      ensures result == Modify(old(op), old(ra), val, old(rf)).result
      ensures Snapshot() == old(Snapshot()).(rf := Modify(old(op), old(ra), val, old(rf)).flags)
    {
      var o := Modify(op, ra, val, rf);
      rf := o.flags;
      result := o.result;
    }

    // ------------------------------------------------------ executeImplicit

    /** `CLC`, `CLI`, `CLV` and `CLD`, then back to `Fetch`. */
    method ClearFlag()
      requires Valid() && op in {CLC, CLI, CLV, CLD}
      modifies this
      ensures CpuSpec.ExecuteImplicit(old(Snapshot())) == Some(Snapshot())
    {
      rf := match op
        case CLC => rf.(carry := false)
        case CLI => rf.(irqDisable := false)
        case CLV => rf.(overflow := false)
        case CLD => rf.(decimalMode := false);
      state := Fetch;
    }

    /** `SEC`, `SEI` and `SED`, then back to `Fetch`. */
    method SetFlag()
      requires Valid() && op in {SEC, SEI, SED}
      modifies this
      ensures CpuSpec.ExecuteImplicit(old(Snapshot())) == Some(Snapshot())
    {
      rf := match op
        case SEC => rf.(carry := true)
        case SEI => rf.(irqDisable := true)
        case SED => rf.(decimalMode := true);
      state := Fetch;
    }

    /** `DEX` and `INX`, which go through `DEC` and `INC`. */
    method CountX()
      requires Valid() && op in {DEX, INX}
      modifies this
      ensures CpuSpec.ExecuteImplicit(old(Snapshot())) == Some(Snapshot())
    {
      var o := if op == DEX then Dec(rx, rf) else Inc(rx, rf);
      rx, rf, state := o.result, o.flags, Fetch;
    }

    /** `DEY` and `INY`. */
    method CountY()
      requires Valid() && op in {DEY, INY}
      modifies this
      ensures CpuSpec.ExecuteImplicit(old(Snapshot())) == Some(Snapshot())
    {
      var o := if op == DEY then Dec(ry, rf) else Inc(ry, rf);
      ry, rf, state := o.result, o.flags, Fetch;
    }

    /** `TXA` and `TYA`. */
    method TransferToA()
      requires Valid() && op in {TXA, TYA}
      modifies this
      ensures CpuSpec.ExecuteImplicit(old(Snapshot())) == Some(Snapshot())
    {
      var v := if op == TXA then rx else ry;
      ra, rf, state := v, WithZeroSign(rf, v), Fetch;
    }

    /** `TAX` and `TSX`. */
    method TransferToX()
      requires Valid() && op in {TAX, TSX}
      modifies this
      ensures CpuSpec.ExecuteImplicit(old(Snapshot())) == Some(Snapshot())
    {
      var v := if op == TAX then ra else sp;
      rx, rf, state := v, WithZeroSign(rf, v), Fetch;
    }

    /** `TAY`. */
    method TransferToY()
      requires Valid() && op == TAY
      modifies this
      ensures CpuSpec.ExecuteImplicit(old(Snapshot())) == Some(Snapshot())
    {
      ry, rf, state := ra, WithZeroSign(rf, ra), Fetch;
    }

    /** `TXS`, which sets no flag, and `NOP`. */
    method TransferToSp()
      requires Valid() && op in {TXS, NOP}
      modifies this
      ensures CpuSpec.ExecuteImplicit(old(Snapshot())) == Some(Snapshot())
    {
      if op == TXS {
        sp := rx;
      }
      state := Fetch;
    }

    /** The two-cycle implied operations of `executeImplicit`. */
    method SimpleImplied()
      requires Valid() && IsSimpleImplied(op)
      modifies this
      ensures CpuSpec.ExecuteImplicit(old(Snapshot())) == Some(Snapshot())
    {
      if op in {CLC, CLI, CLV, CLD} {
        ClearFlag();
      } else if op in {SEC, SEI, SED} {
        SetFlag();
      } else if op in {DEX, INX} {
        CountX();
      } else if op in {DEY, INY} {
        CountY();
      } else if op in {TXA, TYA} {
        TransferToA();
      } else if op in {TAX, TSX} {
        TransferToX();
      } else if op == TAY {
        TransferToY();
      } else {
        TransferToSp();
      }
    }

    /** `PHP`, `PHA` and `BRK` of `executeImplicit`, which push. */
    method PushImplied() returns (ok: bool)
      requires Valid() && op in {PHP, PHA, BRK}
      modifies this, memory
      ensures CpuSpec.ExecuteImplicit(old(Snapshot())) == if ok then Some(Snapshot()) else None
    {
      if op == PHP {
        ok := Php();
      } else if op == PHA {
        ok := Pha();
      } else {
        ok := Brk();
      }
    }

    /** `PLP` and `PLA` of `executeImplicit`. */
    method PullImplied() returns (ok: bool)
      requires Valid() && op in {PLP, PLA}
      modifies this
      ensures CpuSpec.ExecuteImplicit(old(Snapshot())) == if ok then Some(Snapshot()) else None
    {
      if op == PLP {
        ok := Plp();
      } else {
        ok := Pla();
      }
    }

    /** `RTI` and `RTS` of `executeImplicit`. */
    method ReturnImplied() returns (ok: bool)
      requires Valid() && op in {RTI, RTS}
      modifies this
      ensures CpuSpec.ExecuteImplicit(old(Snapshot())) == if ok then Some(Snapshot()) else None
    {
      if op == RTI {
        ok := Rti();
      } else {
        ok := Rts();
      }
    }

    /** `executeImplicit`. */
    method ExecuteImplicit() returns (ok: bool)
      requires Valid()
      modifies this, memory
      ensures CpuSpec.ExecuteImplicit(old(Snapshot())) == if ok then Some(Snapshot()) else None
    {
      if IsSimpleImplied(op) {
        SimpleImplied();
        ok := true;
      } else if op in {PHP, PHA, BRK} {
        ok := PushImplied();
      } else if op in {PLP, PLA} {
        ok := PullImplied();
      } else if op in {RTI, RTS} {
        ok := ReturnImplied();
      } else {
        ok := false;
      }
    }

    /** `executeAccumulator`: a shift or rotate of `ra`. */
    method ExecuteAccumulator() returns (ok: bool)
      requires Valid()
      modifies this
      ensures CpuSpec.ExecuteAccumulator(old(Snapshot())) == if ok then Some(Snapshot()) else None
    {
      if !IsShift(op) {
        return false;
      }
      ra := ModifyOperation(ra);
      state := Fetch;
      ok := true;
    }

    /** `executeImmediate`: the operand is read at `pc++`. */
    method ExecuteImmediate() returns (ok: bool)
      requires Valid()
      modifies this
      ensures CpuSpec.ExecuteImmediate(old(Snapshot())) == if ok then Some(Snapshot()) else None
    {
      var val := memory[pc];
      pc := Inc16(pc);
      if !IsRegisterOp(op) || op == BIT {
        return false;
      }
      RegisterOperation(val);
      state := Fetch;
      ok := true;
    }

    /** `executeBranch`: in `Branch` the condition of `op`; in `Execute1`
        and `Execute2` the offset in `value` is added to `pc`. */
    method ExecuteBranch() returns (ok: bool, taken: bool)
      requires Valid()
      modifies this
      ensures CpuSpec.ExecuteBranch(old(Snapshot())) == if ok then Some((Snapshot(), taken)) else None
    {
      ok, taken := true, false;
      if state == State.Branch {
        match Condition(op, rf) {
          case None => ok := false;
          case Some(c) => taken := c;
        }
      } else if state == Execute1 {
        if Lo(pc) + Signed(value) > 0xFF {
          state := Execute2;
        } else {
          pc, state := AddSigned(pc, value), Fetch;
        }
      } else if state == Execute2 {
        pc, state := AddSigned(pc, value), Fetch;
      } else {
        ok := false;
      }
    }

    // --------------------------------------------------- executeInstruction

    /** The register operations of `executeInstruction`, on `value`. */
    method RegisterInstruction()
      requires Valid() && IsRegisterOp(op)
      modifies this
      ensures Snapshot() == RegisterOp(old(Snapshot()), old(value)).(state := Fetch)
    {
      RegisterOperation(value);
      state := Fetch;
    }

    /** `ASL` .. `INC` on memory: the result is written back to `addr`. */
    method ModifyInstruction()
      requires Valid() && IsReadModifyWrite(op)
      modifies this, memory
      ensures Snapshot() == ModifyResult(old(Snapshot()))
    {
      var result := ModifyOperation(value);
      memory[addr] := result;
      state := Fetch;
    }

    /** `STA`, `STX` and `STY`. */
    method StoreInstruction()
      requires Valid() && IsStore(op)
      modifies this, memory
      ensures Snapshot() == StoreResult(old(Snapshot()))
    {
      memory[addr] := if op == STA then ra else if op == STX then rx else ry;
      state := Fetch;
    }

    /** `executeInstruction`: the operation in `op` on `value` and `addr`. */
    method ExecuteInstruction() returns (ok: bool)
      requires Valid()
      modifies this, memory
      ensures CpuSpec.ExecuteInstruction(old(Snapshot())) == if ok then Some(Snapshot()) else None
    {
      ghost var m := Snapshot();
      ok := true;
      if op in {ADC, SBC, AND, EOR, ORA} {
        InstructionOfArithmetic(m);
        RegisterInstruction();
      } else if op in {BIT, CMP, CPX, CPY} {
        InstructionOfTest(m);
        RegisterInstruction();
      } else if op in {LDA, LDX, LDY} {
        InstructionOfLoad(m);
        RegisterInstruction();
      } else if IsShift(op) {
        InstructionOfShift(m);
        ModifyInstruction();
      } else if op in {DEC, INC} {
        InstructionOfCount(m);
        ModifyInstruction();
      } else if IsStore(op) {
        InstructionOfStore(m);
        StoreInstruction();
      } else if op == JMP {
        pc, state := addr, Fetch;
      } else if op == JSR {
        ok := Jsr();
      } else if IsSimpleImplied(op) || IsStackImplied(op) {
        ok := ExecuteImplicit();
      } else if IsBranch(op) {
        var taken;
        ok, taken := ExecuteBranch();
      } else {
        ok := Interrupt();
      }
    }

    // ------------------------------------- JSR and the implied stack sequences

    /** `JSR` in `Execute1`: the low byte of the target. */
    method JsrTargetLow()
      requires Valid() && state == Execute1
      modifies this
      ensures CpuSpec.Jsr(old(Snapshot())) == Some(Snapshot())
    {
      addr, pc, state := memory[pc], Inc16(pc), Execute2;
    }

    /** `JSR` in `Execute3` and `Execute4`: the return address is pushed,
        high byte first. */
    method JsrPush()
      requires Valid() && state in {Execute3, Execute4}
      modifies this, memory
      ensures CpuSpec.Jsr(old(Snapshot())) == Some(Snapshot())
    {
      if state == Execute3 {
        PushStack(Hi(pc));
        state := Execute4;
      } else {
        PushStack(Lo(pc));
        state := Execute5;
      }
    }

    /** `JSR` in `Execute5`: the high byte of the target, and the jump. */
    method JsrTargetHigh()
      requires Valid() && state == Execute5
      modifies this
      ensures CpuSpec.Jsr(old(Snapshot())) == Some(Snapshot())
    {
      addr := OrHigh(addr, memory[pc]);
      pc, state := addr, Fetch;
    }

    /** `JSR`, one cycle per call. */
    method Jsr() returns (ok: bool)
      requires Valid()
      modifies this, memory
      ensures CpuSpec.Jsr(old(Snapshot())) == if ok then Some(Snapshot()) else None
    {
      ok := true;
      if state == Execute1 {
        JsrTargetLow();
      } else if state == Execute2 {
        state := Execute3;
      } else if state in {Execute3, Execute4} {
        JsrPush();
      } else if state == Execute5 {
        JsrTargetHigh();
      } else {
        ok := false;
      }
    }

    /** `PHA`. */
    method Pha() returns (ok: bool)
      requires Valid()
      modifies this, memory
      ensures CpuSpec.Pha(old(Snapshot())) == if ok then Some(Snapshot()) else None
    {
      ok := true;
      if state == Execute1 {
        state := Execute2;
      } else if state == Execute2 {
        PushStack(ra);
        state := Fetch;
      } else {
        ok := false;
      }
    }

    /** `PHP` in `Execute2`: the status is pushed with the break flag set,
        and the flag is cleared again. */
    method PhpPush()
      requires Valid() && state == Execute2
      modifies this, memory
      ensures CpuSpec.Php(old(Snapshot())) == Some(Snapshot())
    {
      ghost var m := Snapshot();
      var f := rf.(breakFlag := true);
      var b := StatusByte(f);
      assert b == StatusByte(m.rf.(breakFlag := true));
      rf := f;
      PushStack(b);
      rf, state := f.(breakFlag := false), Fetch;
    }

    /** `PHP`. */
    method Php() returns (ok: bool)
      requires Valid()
      modifies this, memory
      ensures CpuSpec.Php(old(Snapshot())) == if ok then Some(Snapshot()) else None
    {
      ok := true;
      if state == Execute1 {
        state := Execute2;
      } else if state == Execute2 {
        PhpPush();
      } else {
        ok := false;
      }
    }

    /** `PLA` in `Execute3`: the accumulator is pulled. */
    method PlaPull()
      requires Valid() && state == Execute3
      modifies this
      ensures CpuSpec.Pla(old(Snapshot())) == Some(Snapshot())
    {
      var v := PopStack();
      ra, rf, state := v, WithZeroSign(rf, v), Fetch;
    }

    /** `PLA`. */
    method Pla() returns (ok: bool)
      requires Valid()
      modifies this
      ensures CpuSpec.Pla(old(Snapshot())) == if ok then Some(Snapshot()) else None
    {
      ok := true;
      if state == Execute1 {
        state := Execute2;
      } else if state == Execute2 {
        sp, state := (sp + 1) % 0x100, Execute3;
      } else if state == Execute3 {
        PlaPull();
      } else {
        ok := false;
      }
    }

    /** `PLP` in `Execute3`: the status is pulled. */
    method PlpPull()
      requires Valid() && state == Execute3
      modifies this
      ensures CpuSpec.Plp(old(Snapshot())) == Some(Snapshot())
    {
      var b := PopStack();
      rf, state := FromStatusByte(b), Fetch;
    }

    /** `PLP`. */
    method Plp() returns (ok: bool)
      requires Valid()
      modifies this
      ensures CpuSpec.Plp(old(Snapshot())) == if ok then Some(Snapshot()) else None
    {
      ok := true;
      if state == Execute1 {
        state := Execute2;
      } else if state == Execute2 {
        sp, state := (sp + 1) % 0x100, Execute3;
      } else if state == Execute3 {
        PlpPull();
      } else {
        ok := false;
      }
    }

    /** `RTI` in `Execute3`: the status is pulled. */
    method RtiStatus()
      requires Valid() && state == Execute3
      modifies this
      ensures CpuSpec.Rti(old(Snapshot())) == Some(Snapshot())
    {
      ghost var m := Snapshot();
      var b := PopStack();
      var f := FromStatusByte(b);
      assert f == FromStatusByte(Top(m));
      rf, sp, state := f, (sp + 1) % 0x100, Execute4;
    }

    /** `RTI` in `Execute4`: the low byte of the program counter. */
    method RtiLow()
      requires Valid() && state == Execute4
      modifies this
      ensures CpuSpec.Rti(old(Snapshot())) == Some(Snapshot())
    {
      var b := PopStack();
      pc, sp, state := b, (sp + 1) % 0x100, Execute5;
    }

    /** `RTI` in `Execute5`: the high byte of the program counter. */
    method RtiHigh()
      requires Valid() && state == Execute5
      modifies this
      ensures CpuSpec.Rti(old(Snapshot())) == Some(Snapshot())
    {
      var b := PopStack();
      pc, state := OrHigh(pc, b), Fetch;
    }

    /** `RTI`. */
    method Rti() returns (ok: bool)
      requires Valid()
      modifies this
      ensures CpuSpec.Rti(old(Snapshot())) == if ok then Some(Snapshot()) else None
    {
      ok := true;
      if state == Execute1 {
        state := Execute2;
      } else if state == Execute2 {
        sp, state := (sp + 1) % 0x100, Execute3;
      } else if state == Execute3 {
        RtiStatus();
      } else if state == Execute4 {
        RtiLow();
      } else if state == Execute5 {
        RtiHigh();
      } else {
        ok := false;
      }
    }

    /** `RTS` in `Execute3`: the low byte of the return address. */
    method RtsLow()
      requires Valid() && state == Execute3
      modifies this
      ensures CpuSpec.Rts(old(Snapshot())) == Some(Snapshot())
    {
      var b := PopStack();
      pc, sp, state := b, (sp + 1) % 0x100, Execute4;
    }

    /** `RTS` in `Execute4`: the high byte of the return address. */
    method RtsHigh()
      requires Valid() && state == Execute4
      modifies this
      ensures CpuSpec.Rts(old(Snapshot())) == Some(Snapshot())
    {
      var b := PopStack();
      pc, state := OrHigh(pc, b), Execute5;
    }

    /** `RTS`. */
    method Rts() returns (ok: bool)
      requires Valid()
      modifies this
      ensures CpuSpec.Rts(old(Snapshot())) == if ok then Some(Snapshot()) else None
    {
      ok := true;
      if state == Execute1 {
        state := Execute2;
      } else if state == Execute2 {
        sp, state := (sp + 1) % 0x100, Execute3;
      } else if state == Execute3 {
        RtsLow();
      } else if state == Execute4 {
        RtsHigh();
      } else if state == Execute5 {
        pc, state := Inc16(pc), Fetch;
      } else {
        ok := false;
      }
    }

    /** `BRK` in `Execute2` .. `Execute4`: the program counter and the
        status with the break flag set (and left set) are pushed. */
    method BrkPush()
      requires Valid() && state in {Execute2, Execute3, Execute4}
      modifies this, memory
      ensures CpuSpec.Brk(old(Snapshot())) == Some(Snapshot())
    {
      if state == Execute2 {
        PushStack(Hi(pc));
        state := Execute3;
      } else if state == Execute3 {
        PushStack(Lo(pc));
        state := Execute4;
      } else {
        rf := rf.(breakFlag := true);
        PushStack(StatusByte(rf));
        state := Execute5;
      }
    }

    /** `BRK` in `Execute5` and `Execute6`: the vector at 0xFFFE. */
    method BrkVector()
      requires Valid() && state in {Execute5, Execute6}
      modifies this
      ensures CpuSpec.Brk(old(Snapshot())) == Some(Snapshot())
    {
      if state == Execute5 {
        pc, state := memory[0xFFFE], Execute6;
      } else {
        pc, state := OrHigh(pc, memory[0xFFFF]), Fetch;
      }
    }

    /** `BRK`. */
    method Brk() returns (ok: bool)
      requires Valid()
      modifies this, memory
      ensures CpuSpec.Brk(old(Snapshot())) == if ok then Some(Snapshot()) else None
    {
      ok := true;
      if state == Execute1 {
        pc, state := Inc16(pc), Execute2;
      } else if state in {Execute2, Execute3, Execute4} {
        BrkPush();
      } else if state in {Execute5, Execute6} {
        BrkVector();
      } else {
        ok := false;
      }
    }

    // ----------------------------------------------------------------- INT

    /** `INT` in `Execute2` and `Execute3`: the program counter is pushed. */
    method InterruptPush()
      requires Valid() && state in {Execute2, Execute3}
      modifies this, memory
      ensures CpuSpec.Interrupt(old(Snapshot())) == Some(Snapshot())
    {
      if state == Execute2 {
        PushStack(Hi(pc));
        state := Execute3;
      } else {
        PushStack(Lo(pc));
        state := Execute4;
      }
    }

    /** `INT` in `Execute6`: the high vector byte is shifted into place,
        replacing the whole program counter, and an NMI is acknowledged. */
    method InterruptHigh()
      requires Valid()
      modifies this
      ensures Snapshot() == CpuSpec.InterruptHigh(old(Snapshot()))
    {
      if op == NMI {
        nmi := false;
      }
      var high := if op == NMI then memory[0xFFFB] else memory[0xFFFF];
      pc, state := Join(0, high), Fetch;
    }

    /** `INT` in `Execute5`, falling through into `Execute6`. */
    method InterruptLow()
      requires Valid()
      modifies this
      ensures Snapshot() == CpuSpec.InterruptLow(old(Snapshot()))
    {
      ghost var m := Snapshot();
      ghost var low := if m.op == NMI then m.mem[0xFFFA] else m.mem[0xFFFE];
      if op == IRQ {
        rf := rf.(irqDisable := true);
      }
      pc := if op == NMI then memory[0xFFFA] else memory[0xFFFE];
      assert Snapshot() == m.(rf := if m.op == IRQ then m.rf.(irqDisable := true) else m.rf, pc := low);
      InterruptHigh();
    }

    /** `INT` in `Execute4`: the status is pushed with the break flag clear,
        and the case falls through `Execute5` and `Execute6`. */
    method InterruptStatus()
      requires Valid() && state == Execute4
      modifies this, memory
      ensures CpuSpec.Interrupt(old(Snapshot())) == Some(Snapshot())
    {
      rf := rf.(breakFlag := false);
      PushStack(StatusByte(rf));
      InterruptLow();
    }

    /** `INT`: the NMI and IRQ sequence. */
    method Interrupt() returns (ok: bool)
      requires Valid()
      modifies this, memory
      ensures CpuSpec.Interrupt(old(Snapshot())) == if ok then Some(Snapshot()) else None
    {
      ok := true;
      if state == Execute1 {
        state := Execute2;
      } else if state in {Execute2, Execute3} {
        InterruptPush();
      } else if state == Execute4 {
        InterruptStatus();
      } else if state == Execute5 {
        InterruptLow();
      } else if state == Execute6 {
        InterruptHigh();
      } else {
        ok := false;
      }
    }

    /** `executeDMA`: one cycle of a sprite DMA transfer. */
    method ExecuteDma() returns (ok: bool)
      requires Valid()
      modifies this, memory
      ensures CpuSpec.ExecuteDma(old(Snapshot())) == if ok then Some(Snapshot()) else None
    {
      if state != OamDma {
        return false;
      }
      if dmaCycles % 2 == 0 {
        value := memory[dmaAddr];
        dmaAddr := Inc16(dmaAddr);
      } else {
        memory[0x2004] := value;
      }
      dmaCycles := dmaCycles - 1;
      if dmaCycles == 0 {
        state := Fetch;
      }
      ok := true;
    }

    // -------------------------------------------------------------- doCycle

    /** The `Fetch` case of `doCycle`. */
    method FetchCycle() returns (ok: bool)
      requires Valid() && state == Fetch
      modifies this
      ensures CpuSpec.FetchCycle(old(Snapshot())) == if ok then Some(Snapshot()) else None
    {
      ok := true;
      if nmi {
        op, state := NMI, Execute1;
      } else if irq && !rf.irqDisable {
        op, state := IRQ, Execute1;
      } else if dmaCycles > 0 {
        if cycle % 2 == 0 {
          state := OamDma;
        }
      } else {
        var byte := memory[pc];
        pc := Inc16(pc);
        ok := Decode(byte);
      }
    }

    /** The `Branch` case: the offset is read and the condition decides
        whether the branch goes on to `Execute1`. */
    method BranchCycle() returns (ok: bool)
      requires Valid() && state == State.Branch
      modifies this
      ensures Cycle(old(Snapshot())) == if ok then Some(Snapshot()) else None
    {
      value, pc := memory[pc], Inc16(pc);
      var taken;
      ok, taken := ExecuteBranch();
      state := if taken then Execute1 else Fetch;
    }

    /** `Zero` and `ZeroXY`: the zero-page address is complete. */
    method ZeroPageCycle()
      requires Valid() && state in {Zero, ZeroXY}
      modifies this
      ensures Cycle(old(Snapshot())) == Some(Snapshot())
    {
      if state == Zero {
        addr, pc, state := memory[pc], Inc16(pc), AfterAddress(op);
      } else {
        addr, state := (memory[Dec16(pc)] + value) % 0x100, AfterAddress(op);
      }
    }

    /** `ZeroX` and `ZeroY`: the index is kept in `value`. */
    method ZeroIndexCycle()
      requires Valid() && state in {ZeroX, ZeroY}
      modifies this
      ensures Cycle(old(Snapshot())) == Some(Snapshot())
    {
      value := if state == ZeroX then rx else ry;
      pc, state := Inc16(pc), ZeroXY;
    }

    /** The absolute cases; `JMP` executes as soon as its address is
        complete. */
    method AbsoluteCycle() returns (ok: bool)
      requires Valid() && state == Abs2
      modifies this, memory
      ensures Cycle(old(Snapshot())) == if ok then Some(Snapshot()) else None
    {
      ghost var m := Snapshot();
      var a := OrHigh(addr, memory[pc]);
      assert a == OrHigh(m.addr, m.mem[m.pc]);
      addr, pc := a, Inc16(pc);
      if op == JMP {
        InstructionOfJmp(Snapshot());
        ok := ExecuteInstruction();
      } else {
        state := AfterAddress(op);
        ok := true;
      }
    }

    /** The two stall cycles of a read-modify-write operation: the operand
        is read, then written back unchanged. */
    method StallCycle()
      requires Valid() && state in {RMWStall1, RMWStall2}
      modifies this, memory
      ensures Cycle(old(Snapshot())) == Some(Snapshot())
    {
      if state == RMWStall1 {
        value, state := memory[addr], RMWStall2;
      } else {
        memory[addr] := value;
        state := Execute1;
      }
    }

    /** `AbsX` and `AbsY`: the low address byte, and the index kept in
        `value`. */
    method AbsIndexCycle()
      requires Valid() && state in {AbsX, AbsY}
      modifies this
      ensures Cycle(old(Snapshot())) == Some(Snapshot())
    {
      value := if state == AbsX then rx else ry;
      addr, pc, state := memory[pc], Inc16(pc), AbsXY;
    }

    /** `AbsXY`: the high address byte; the high byte is fixed up in
        `AbsFix` when the low byte carries, and always for stores and
        read-modify-write operations. */
    method AbsHighCycle()
      requires Valid() && state == AbsXY
      modifies this
      ensures Cycle(old(Snapshot())) == Some(Snapshot())
    {
      ghost var m := Snapshot();
      var a := OrHigh(addr, memory[pc]);
      assert a == OrHigh(m.addr, m.mem[m.pc]);
      if Lo(addr) + value > 0xFF || IsStore(op) || IsReadModifyWrite(op) {
        addr, pc, state := a, Inc16(pc), AbsFix;
      } else {
        addr, pc, state := (a + value) % 0x10000, Inc16(pc), Read;
      }
    }

    /** `(zp,X)` in `Indexed1` and `Indexed2`: the pointer is read and
        indexed within page zero. */
    method IndexedPointerCycle()
      requires Valid() && state in {Indexed1, Indexed2}
      modifies this
      ensures Cycle(old(Snapshot())) == Some(Snapshot())
    {
      if state == Indexed1 {
        value, pc, state := memory[pc], Inc16(pc), Indexed2;
      } else {
        value, state := (value + rx) % 0x100, Indexed3;
      }
    }

    /** `(zp,X)` in `Indexed3`: the low address byte through the pointer. */
    method IndexedLowCycle()
      requires Valid() && state == Indexed3
      modifies this
      ensures Cycle(old(Snapshot())) == Some(Snapshot())
    {
      addr, state := memory[value], Indexed4;
    }

    /** `(zp,X)` in `Indexed4`: the high address byte, read from the next
        byte of page zero. */
    method IndexedHighCycle()
      requires Valid() && state == Indexed4
      modifies this
      ensures Cycle(old(Snapshot())) == Some(Snapshot())
    {
      ghost var m := Snapshot();
      var a := OrHigh(addr, memory[(value + 1) % 0x100]);
      assert a == OrHigh(m.addr, m.mem[(m.value + 1) % 0x100]);
      addr, state := a, if op == STA then Execute1 else Read;
    }

    /** `(zp),Y` in `IndirectIndexed1` and `IndirectIndexed2`: the pointer
        and the low address byte. */
    method IndirectIndexedLowCycle()
      requires Valid() && state in {IndirectIndexed1, IndirectIndexed2}
      modifies this
      ensures Cycle(old(Snapshot())) == Some(Snapshot())
    {
      if state == IndirectIndexed1 {
        value, pc, state := memory[pc], Inc16(pc), IndirectIndexed2;
      } else {
        addr, state := memory[value], IndirectIndexed3;
      }
    }

    /** `(zp),Y` in `IndirectIndexed3`: the high address byte, and the fix-up
        cycle when `Y` carries out of the low byte and always for `STA`. */
    method IndirectIndexedHighCycle()
      requires Valid() && state == IndirectIndexed3
      modifies this
      ensures Cycle(old(Snapshot())) == Some(Snapshot())
    {
      ghost var m := Snapshot();
      var a := OrHigh(addr, memory[(value + 1) % 0x100]);
      assert a == OrHigh(m.addr, m.mem[(m.value + 1) % 0x100]);
      if Lo(addr) + ry > 0xFF || op == STA {
        assert Cycle(m) == Some(m.(addr := a, state := IndirectIndexedFix));
        addr, state := a, IndirectIndexedFix;
      } else {
        assert Cycle(m) == Some(m.(addr := (a + ry) % 0x10000, state := Read));
        addr, state := (a + ry) % 0x10000, Read;
      }
    }

    /** `JMP (ind)` in `Indirect1` and `Indirect2`: the pointer. */
    method IndirectPointerCycle()
      requires Valid() && state in {Indirect1, Indirect2}
      modifies this
      ensures Cycle(old(Snapshot())) == Some(Snapshot())
    {
      if state == Indirect1 {
        addr, pc, state := memory[pc], Inc16(pc), Indirect2;
      } else {
        addr, pc, state := OrHigh(addr, memory[pc]), Inc16(pc), Indirect3;
      }
    }

    /** `JMP (ind)` in `Indirect3`: the low byte of the target. */
    method IndirectLowCycle()
      requires Valid() && state == Indirect3
      modifies this
      ensures Cycle(old(Snapshot())) == Some(Snapshot())
    {
      value, state := memory[addr], Indirect4;
    }

    /** `JMP (ind)` in `Indirect4`: the high byte of the target, read from
        the pointer's own page. */
    method IndirectHighCycle()
      requires Valid() && state == Indirect4
      modifies this
      ensures Snapshot() == old(Snapshot()).(pc := IndirectTarget(old(Snapshot())), state := Fetch)
    {
      pc, state := Join(value, memory[Join((addr + 1) % 0x100, Hi(addr))]), Fetch;
    }

    /** The `Read` case: the operand is read, then executed. */
    method ReadCycle() returns (ok: bool)
      requires Valid() && state == Read
      modifies this, memory
      ensures Cycle(old(Snapshot())) == if ok then Some(Snapshot()) else None
    {
      value, state := memory[addr], Execute1;
      ok := ExecuteInstruction();
    }

    /** The zero-page and absolute cases of `doCycle`, and the stall cycles
        of read-modify-write operations. */
    method DirectCycle() returns (ok: bool)
      requires Valid() && state in {Zero, ZeroX, ZeroY, ZeroXY, Abs1, Abs2, RMWStall1, RMWStall2}
      modifies this, memory
      ensures Cycle(old(Snapshot())) == if ok then Some(Snapshot()) else None
    {
      ok := true;
      if state in {Zero, ZeroXY} {
        ZeroPageCycle();
      } else if state in {ZeroX, ZeroY} {
        ZeroIndexCycle();
      } else if state == Abs1 {
        addr, pc, state := memory[pc], Inc16(pc), Abs2;
      } else if state == Abs2 {
        ok := AbsoluteCycle();
      } else {
        StallCycle();
      }
    }

    /** The absolute indexed cases of `doCycle`. */
    method AbsIndexedCycle()
      requires Valid() && state in {AbsX, AbsY, AbsXY, AbsFix}
      modifies this
      ensures Cycle(old(Snapshot())) == Some(Snapshot())
    {
      if state in {AbsX, AbsY} {
        AbsIndexCycle();
      } else if state == AbsXY {
        AbsHighCycle();
      } else {
        addr, state := (addr + value) % 0x10000, AfterAddress(op);
      }
    }

    /** The `(zp,X)` cases of `doCycle`. */
    method IndexedCycle()
      requires Valid() && state in {Indexed1, Indexed2, Indexed3, Indexed4}
      modifies this
      ensures Cycle(old(Snapshot())) == Some(Snapshot())
    {
      if state in {Indexed1, Indexed2} {
        IndexedPointerCycle();
      } else if state == Indexed3 {
        IndexedLowCycle();
      } else {
        IndexedHighCycle();
      }
    }

    /** The `(zp),Y` cases of `doCycle`. */
    method IndirectIndexedCycle()
      requires Valid() && state in {IndirectIndexed1, IndirectIndexed2, IndirectIndexed3, IndirectIndexedFix}
      modifies this
      ensures Cycle(old(Snapshot())) == Some(Snapshot())
    {
      if state in {IndirectIndexed1, IndirectIndexed2} {
        IndirectIndexedLowCycle();
      } else if state == IndirectIndexed3 {
        IndirectIndexedHighCycle();
      } else {
        addr, state := (addr + ry) % 0x10000, Read;
      }
    }

    /** The `JMP (ind)` cases of `doCycle`. */
    method IndirectCycle()
      requires Valid() && state in {Indirect1, Indirect2, Indirect3, Indirect4}
      modifies this
      ensures Cycle(old(Snapshot())) == Some(Snapshot())
    {
      if state in {Indirect1, Indirect2} {
        IndirectPointerCycle();
      } else if state == Indirect3 {
        IndirectLowCycle();
      } else {
        CycleOfIndirect4(Snapshot());
        IndirectHighCycle();
      }
    }

    /** The `switch (state)` of `doCycle`. */
    method SwitchOnState() returns (ok: bool)
      requires Valid()
      modifies this, memory
      ensures Cycle(old(Snapshot())) == if ok then Some(Snapshot()) else None
    {
      ok := true;
      if state == Fetch {
        ok := FetchCycle();
      } else if state == State.Accumulator {
        ok := ExecuteAccumulator();
      } else if state == State.Immediate {
        ok := ExecuteImmediate();
      } else if state == State.Branch {
        ok := BranchCycle();
      } else if state in {Zero, ZeroX, ZeroY, ZeroXY, Abs1, Abs2, RMWStall1, RMWStall2} {
        ok := DirectCycle();
      } else if state in {AbsX, AbsY, AbsXY, AbsFix} {
        AbsIndexedCycle();
      } else if state in {Indexed1, Indexed2, Indexed3, Indexed4} {
        IndexedCycle();
      } else if state in {IndirectIndexed1, IndirectIndexed2, IndirectIndexed3, IndirectIndexedFix} {
        IndirectIndexedCycle();
      } else if state in {Indirect1, Indirect2, Indirect3, Indirect4} {
        IndirectCycle();
      } else if state == Read {
        ok := ReadCycle();
      } else if state in {Execute1, Execute2, Execute3, Execute4, Execute5, Execute6} {
        ok := ExecuteInstruction();
      } else {
        ok := false;
      }
    }

    /** `doCycle`: one cycle, then `++cycle`. */
    method DoCycle() returns (ok: bool)
      requires Valid()
      modifies this, memory
      ensures Step(old(Snapshot())) == if ok then Some(Snapshot()) else None
    {
      ok := SwitchOnState();
      if ok {
        cycle := cycle + 1;
      }
    }
  }
}
