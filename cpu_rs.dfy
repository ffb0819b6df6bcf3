/** The status byte of the Rust CPU (`Flags` in `cpu.rs`). `#[bitfield(u8)]`
    lays the eight one-bit fields out from the least significant bit in
    declaration order, so a `Flags` value is one byte and every field is a
    bit of it. */
module RustFlags {
  import StatusFlags

  type Flags = bv8

  const CarryBit: nat := 0
  const ZeroBit: nat := 1
  const IrqDisableBit: nat := 2
  const DecimalModeBit: nat := 3
  const BreakBit: nat := 4
  const UnusedBit: nat := 5
  const OverflowBit: nat := 6
  const SignedBit: nat := 7

  /** The mask of field `k`. */
  function Mask(k: nat): (m: bv8)
    requires k < 8
  {
    match k
    case 0 => 0x01
    case 1 => 0x02
    case 2 => 0x04
    case 3 => 0x08
    case 4 => 0x10
    case 5 => 0x20
    case 6 => 0x40
    case 7 => 0x80
  }

  /** The getter the bitfield macro generates for field `k`. */
  predicate Get(f: Flags, k: nat)
    requires k < 8
  {
    f & Mask(k) != 0
  }

  /** The setter the bitfield macro generates for field `k`: it sets that
      field to `b` and leaves the other seven bits alone. */
  function Set(f: Flags, k: nat, b: bool): (g: Flags)
    requires k < 8
    ensures Get(g, k) == b
    ensures forall j :: 0 <= j < 8 && j != k ==> Get(g, j) == Get(f, j)
  {
    var g := if b then f | Mask(k) else f & !Mask(k);
    assert forall j :: 0 <= j < 8 && j != k ==> Get(g, j) == Get(f, j) by {
      forall j | 0 <= j < 8 && j != k
        ensures Get(g, j) == Get(f, j)
      {
        MaskedByOther(f, Mask(k), Mask(j), b);
      }
    }
    g
  }

  /** Or-ing in or masking out one bit leaves every other bit alone. */
  lemma MaskedByOther(f: Flags, bit: bv8, other: bv8, b: bool)
    requires bit == 0x01 || bit == 0x02 || bit == 0x04 || bit == 0x08 || bit == 0x10 || bit == 0x20 || bit == 0x40 || bit == 0x80
    requires other & bit == 0
    ensures ((if b then f | bit else f & !bit) & other != 0) == (f & other != 0)
  {
  }

  /** Two flag bytes that agree on every field are the same byte. */
  lemma FieldsDetermineByte(f: Flags, g: Flags)
    requires forall k :: 0 <= k < 8 ==> Get(f, k) == Get(g, k)
    ensures f == g
  {
    assert Get(f, 0) == Get(g, 0) && Get(f, 1) == Get(g, 1);
    assert Get(f, 2) == Get(g, 2) && Get(f, 3) == Get(g, 3);
    assert Get(f, 4) == Get(g, 4) && Get(f, 5) == Get(g, 5);
    assert Get(f, 6) == Get(g, 6) && Get(f, 7) == Get(g, 7);
  }

  /** `Flags::default()`: every field false except the unused bit, whose
      declared default is `true`; so the byte is 0x20. */
  function Default(): (f: Flags)
    ensures Get(f, UnusedBit)
    ensures forall k :: 0 <= k < 8 && k != UnusedBit ==> !Get(f, k)
    ensures f == 0x20
  {
    Set(0, UnusedBit, true)
  }

  /** The Rust and C++ status bytes have the same layout: the default flags
      give the same byte. */
  lemma DefaultAgreesWithCpp()
    ensures Default() == StatusFlags.GetStatus(StatusFlags.Default())
  {
    var c := StatusFlags.GetStatus(StatusFlags.Default());
    forall k | 0 <= k < 8
      ensures Get(Default(), k) == Get(c, k)
    {
    }
    FieldsDetermineByte(Default(), c);
  }

  /** Setting the zero field of the Rust byte is setting `zero` in the C++
      flags and packing them. */
  lemma SetZeroAgreesWithCpp(f: StatusFlags.Flags, b: bool)
    ensures Set(StatusFlags.GetStatus(f), ZeroBit, b) == StatusFlags.GetStatus(f.(zero := b))
  {
    var r := Set(StatusFlags.GetStatus(f), ZeroBit, b);
    var c := StatusFlags.GetStatus(f.(zero := b));
    forall k | 0 <= k < 8
      ensures Get(r, k) == Get(c, k)
    {
    }
    FieldsDetermineByte(r, c);
  }
}

/** The Rust CPU of `cpu.rs`: registers, a 64 KB memory array and the
    `Fetch`/`Execute(n)` countdown, with the stack, flag, branch and compare
    helpers that the instruction bodies would call. The `u8`/`u16` fields
    are integers in range, and every `wrapping_add`/`wrapping_sub` is a
    `%` on them. */
module RustCpu {
  import opened RustFlags
  import opened Isa
  import opened Bytes
  import RustInstructions
  import RustUtils
  import StatusFlags
  import Alu
  import CpuSpec

  datatype CpuState = Fetch | Execute(remaining: Byte)

  /** `0x0100 | stack_pointer`: always in page one. */
  function StackAddress(sp: Byte): (a: Word)
    ensures 0x100 <= a < 0x200 && Lo(a) == sp
  {
    0x100 + sp
  }

  /** `utils::offset_to_addr`, which is not part of this model: taken as the
      sign extension of the branch offset to sixteen bits. */
  function OffsetToAddr(offset: Byte): (w: Word)
    ensures w == (Signed(offset) + 0x10000) % 0x10000
  {
    if offset >= 0x80 then 0xFF00 + offset else offset
  }

  /** The Rust branch target, `program_counter.wrapping_add(offset_to_addr(offset))`,
      agrees with the C++ one: a wrapping add of the signed offset. */
  lemma BranchTargetAgreesWithCpp(pc: Word, offset: Byte)
    ensures (pc + OffsetToAddr(offset)) % 0x10000 == CpuSpec.AddSigned(pc, offset)
  {
    if offset >= 0x80 {
      assert pc + OffsetToAddr(offset) == (pc + Signed(offset)) + 0x10000;
    }
  }

  /** The flags `compare` leaves: signed, then zero, from the wrapped
      difference, then the carry from the unsigned comparison. */
  function CompareFlags(f: Flags, byte: Byte, mem: Byte): (g: Flags)
    ensures Get(g, CarryBit) <==> byte >= mem
    ensures Get(g, ZeroBit) <==> byte == mem
    ensures Get(g, SignedBit) <==> (byte - mem) % 0x100 >= 0x80
    ensures forall k :: 0 <= k < 8 && k != CarryBit && k != ZeroBit && k != SignedBit ==> Get(g, k) == Get(f, k)
  {
    var result := (byte - mem) % 0x100;
    Set(Set(Set(f, SignedBit, result >= 0x80), ZeroBit, result == 0), CarryBit, byte >= mem)
  }

  /** `compare` agrees with the C++ `CMP`/`CPX`/`CPY` flag update. */
  lemma CompareAgreesWithCpp(f: StatusFlags.Flags, byte: Byte, mem: Byte)
    ensures CompareFlags(StatusFlags.GetStatus(f), byte, mem)
         == StatusFlags.GetStatus(Alu.Compare(byte, mem, f))
  {
    var r := CompareFlags(StatusFlags.GetStatus(f), byte, mem);
    var c := StatusFlags.GetStatus(Alu.Compare(byte, mem, f));
    forall k | 0 <= k < 8
      ensures Get(r, k) == Get(c, k)
    {
    }
    FieldsDetermineByte(r, c);
  }

  /** One `do_cycle` step of the state machine, given the byte at the program
      counter and the decoded instruction's `execute_cycles`; `None` where the
      Rust code panics (an illegal opcode, or `execute_cycles - 1` on zero). */
  function Next(s: CpuState, opcode: Byte, executeCycles: Byte): (r: Option<CpuState>)
    ensures s.Execute? ==> r.Some?
    ensures s.Fetch? ==> (r.Some? <==> RustInstructions.DecodeInst(opcode).Some? && executeCycles > 0)
    ensures r.Some? ==> (r.value.Fetch? <==> s.Execute? && s.remaining == 0)
    ensures r.Some? && r.value.Execute? ==> r.value.remaining == (if s.Fetch? then executeCycles else s.remaining) - 1
  {
    match s
    case Fetch =>
      if RustInstructions.DecodeInst(opcode).None? || executeCycles == 0 then None
      else Some(Execute(executeCycles - 1))
    case Execute(x) =>
      if x > 0 then Some(Execute(x - 1)) else Some(Fetch)
  }

  /** `n` steps of `Next` from `s`, the opcode and cycle count fixed. */
  function Run(s: CpuState, opcode: Byte, executeCycles: Byte, n: nat): Option<CpuState>
    decreases n
  {
    if n == 0 then Some(s)
    else match Next(s, opcode, executeCycles)
      case None => None
      case Some(t) => Run(t, opcode, executeCycles, n - 1)
  }

  /** From `Execute(x)` the machine is back in `Fetch` after exactly `x + 1`
      cycles, and in `Execute` at every cycle before that. */
  lemma {:induction false} ExecuteDrains(x: Byte, opcode: Byte, executeCycles: Byte, k: nat)
    requires k <= x + 1
    ensures Run(Execute(x), opcode, executeCycles, k) == Some(if k == x + 1 then Fetch else Execute(x - k))
    decreases k
  {
    if k > 0 {
      if x > 0 {
        ExecuteDrains(x - 1, opcode, executeCycles, k - 1);
      } else {
        assert Run(Fetch, opcode, executeCycles, 0) == Some(Fetch);
      }
    }
  }

  /** An instruction whose `execute_cycles` is `n` occupies `n + 1`
      `do_cycle` calls, the fetch included: `Fetch` comes back after `n + 1`
      steps and not before. */
  lemma InstructionTakesExecuteCyclesPlusFetch(opcode: Byte, n: Byte)
    requires RustInstructions.DecodeInst(opcode).Some? && n > 0
    ensures Run(Fetch, opcode, n, n + 1) == Some(Fetch)
    ensures forall k :: 0 < k <= n ==> Run(Fetch, opcode, n, k) != Some(Fetch)
  {
    assert Next(Fetch, opcode, n) == Some(Execute(n - 1));
    assert Run(Fetch, opcode, n, n + 1) == Run(Execute(n - 1), opcode, n, n);
    ExecuteDrains(n - 1, opcode, n, n);
    forall k | 0 < k <= n
      ensures Run(Fetch, opcode, n, k) != Some(Fetch)
    {
      assert Run(Fetch, opcode, n, k) == Run(Execute(n - 1), opcode, n, k - 1);
      ExecuteDrains(n - 1, opcode, n, k - 1);
    }
  }

  /** `push` then `pop` does not give back the pushed byte: `push` leaves the
      stack pointer where it was and `pop` reads the cell above it. */
  lemma PushThenPopReadsAbove(sp: Byte, mem: seq<Byte>, byte: Byte)
    requires |mem| == 0x10000
    ensures mem[StackAddress(sp) := byte][StackAddress((sp + 1) % 0x100)] == mem[StackAddress((sp + 1) % 0x100)]
  {
    assert StackAddress(sp) != StackAddress((sp + 1) % 0x100);
  }

  class Cpu {
    var accumulator: Byte
    var regX: Byte
    var regY: Byte
    var programCounter: Word
    var stackPointer: Byte
    var statusFlags: Flags
    const memory: array<Byte>
    var state: CpuState
    var inst: Option<Instruction>
    var cycle: nat

    predicate Valid()
      reads this
    {
      memory.Length == 0x10000
    }

    /** `CPU::new`. */
    constructor ()
      ensures Valid() && fresh(memory)
      ensures accumulator == 0 && regX == 0 && regY == 0
      ensures programCounter == 0xFFFC && stackPointer == 0xFD
      ensures statusFlags == Default() && state == Fetch && inst == None && cycle == 0
      ensures forall a :: 0 <= a < 0x10000 ==> memory[a] == 0
    {
      accumulator, regX, regY := 0, 0, 0;
      programCounter := 0xFFFC;
      stackPointer := 0xFD;
      statusFlags := Default();
      memory := new Byte[0x10000](_ => 0);
      state := Fetch;
      inst := None;
      cycle := 0;
    }

    /** `write_memory`. */
    method WriteMemory(address: Word, value: Byte)
      requires Valid()
      modifies memory
      ensures memory[..] == old(memory[..])[address := value]
    {
      memory[address] := value;
    }

    /** `read_memory`. */
    method ReadMemory(address: Word) returns (value: Byte)
      requires Valid()
      ensures value == memory[address]
    {
      value := memory[address];
    }

    /** `fetch`: the byte at the program counter, which stays where it is. */
    method FetchByte() returns (byte: Byte)
      requires Valid()
      ensures byte == memory[programCounter]
    {
      byte := ReadMemory(programCounter);
    }

    /** `reset`: the reset vector is read through `convert_addr` from the
        slice `memory[0xFFFC..0xFFFD]`, which holds one byte, so the
        conversion panics (`ok` is false) before the program counter or the
        interrupt-disable flag is touched. */
    method Reset() returns (ok: bool)
      requires Valid()
      ensures ok <==> RustUtils.ConvertAddr(memory[0xFFFC..0xFFFD]).Some?
      ensures !ok
    {
      var vector := RustUtils.ConvertAddr(memory[0xFFFC..0xFFFD]);
      ok := vector.Some?;
    }

    /** `init_memory`: the program is copied so that its last byte sits at
        0xFFFF (the slice length must equal `program_size`, and the start
        index must not underflow), then `reset` runs, which panics. */
    method InitMemory(programRom: seq<Byte>, programSize: nat) returns (ok: bool)
      requires Valid()
      modifies memory
      ensures programSize > 0x10000 || |programRom| != programSize ==> memory[..] == old(memory[..])
      ensures programSize <= 0x10000 && |programRom| == programSize ==>
                memory[..] == old(memory[..])[..0x10000 - programSize] + programRom
      ensures !ok
    {
      if programSize > 0x10000 || |programRom| != programSize {
        return false;
      }
      var start := 0x10000 - programSize;
      forall i | 0 <= i < programSize {
        memory[start + i] := programRom[i];
      }
      assert memory[..] == old(memory[..])[..start] + programRom;
      ok := Reset();
    }

    /** `push`: writes at `0x0100 | stack_pointer`. The `wrapping_sub` result
        is discarded, so the stack pointer is left unchanged. */
    method Push(byte: Byte)
      requires Valid()
      modifies memory
      ensures memory[..] == old(memory[..])[StackAddress(stackPointer) := byte]
    {
      WriteMemory(StackAddress(stackPointer), byte);
    }

    /** `pop`: increments the stack pointer with wrap-around, then reads at
        `0x0100 | stack_pointer`. */
    method Pop() returns (byte: Byte)
      requires Valid()
      modifies this
      ensures stackPointer == (old(stackPointer) + 1) % 0x100
      ensures byte == memory[StackAddress(stackPointer)]
      ensures unchanged(this`accumulator, this`regX, this`regY, this`programCounter, this`statusFlags)
      ensures unchanged(this`state, this`inst, this`cycle)
    {
      stackPointer := (stackPointer + 1) % 0x100;
      byte := ReadMemory(StackAddress(stackPointer));
    }

    /** `pop_addr`: two pops, the first giving the low byte. */
    method PopAddr() returns (address: Word)
      requires Valid()
      modifies this
      ensures stackPointer == (old(stackPointer) + 2) % 0x100
      ensures address == Join(memory[StackAddress((old(stackPointer) + 1) % 0x100)],
                              memory[StackAddress((old(stackPointer) + 2) % 0x100)])
      ensures unchanged(this`accumulator, this`regX, this`regY, this`programCounter, this`statusFlags)
      ensures unchanged(this`state, this`inst, this`cycle)
    {
      ghost var sp0: int := stackPointer;
      var lo := Pop();
      assert lo == memory[StackAddress((sp0 + 1) % 0x100)];
      var hi := Pop();
      assert stackPointer == (sp0 + 2) % 0x100;
      assert hi == memory[StackAddress((sp0 + 2) % 0x100)];
      var r := RustUtils.ConvertAddr([lo, hi]);
      assert [lo, hi][0] == lo && [lo, hi][1] == hi;
      address := r.value;
    }

    /** `push_addr`: pushes the high byte, then the low byte. Since `push`
        does not move the stack pointer, the low byte lands on the high one
        and only the low byte is kept. */
    method PushAddr(address: Word)
      requires Valid()
      modifies memory
      ensures memory[..] == old(memory[..])[StackAddress(stackPointer) := Lo(address)]
    {
      Push(Hi(address));
      Push(Lo(address));
    }

    /** `set_zero`. */
    method SetZero(byte: Byte)
      modifies this
      ensures statusFlags == Set(old(statusFlags), ZeroBit, byte == 0)
      ensures unchanged(this`accumulator, this`regX, this`regY, this`programCounter, this`stackPointer)
      ensures unchanged(this`state, this`inst, this`cycle)
    {
      statusFlags := Set(statusFlags, ZeroBit, byte == 0);
    }

    /** `set_signed`: `(byte as i8) < 0`, that is, bit 7 is set. */
    method SetSigned(byte: Byte)
      modifies this
      ensures statusFlags == Set(old(statusFlags), SignedBit, Signed(byte) < 0)
      ensures unchanged(this`accumulator, this`regX, this`regY, this`programCounter, this`stackPointer)
      ensures unchanged(this`state, this`inst, this`cycle)
    {
      statusFlags := Set(statusFlags, SignedBit, Signed(byte) < 0);
    }

    /** `branch`: moves the program counter by the signed offset (wrapping)
        only when `cond` holds, and reports `cond`. */
    method Branch(cond: bool, offset: Byte) returns (taken: bool)
      modifies this
      ensures taken == cond
      ensures programCounter == if cond then CpuSpec.AddSigned(old(programCounter), offset) else old(programCounter)
      ensures unchanged(this`accumulator, this`regX, this`regY, this`stackPointer, this`statusFlags)
      ensures unchanged(this`state, this`inst, this`cycle)
    {
      if cond {
        BranchTargetAgreesWithCpp(programCounter, offset);
        programCounter := (programCounter + OffsetToAddr(offset)) % 0x10000;
      }
      taken := cond;
    }

    /** `compare`: flags from `byte` against the byte at `address`; registers
        and memory are unchanged. */
    method Compare(byte: Byte, address: Word)
      requires Valid()
      modifies this
      ensures statusFlags == CompareFlags(old(statusFlags), byte, memory[address])
      ensures unchanged(this`accumulator, this`regX, this`regY, this`programCounter, this`stackPointer)
      ensures unchanged(this`state, this`inst, this`cycle)
    {
      var memByte := ReadMemory(address);
      var result := (byte - memByte) % 0x100;
      SetSigned(result);
      SetZero(result);
      statusFlags := Set(statusFlags, CarryBit, byte >= memByte);
    }

    /** `do_cycle`, with `execute_cycles` of the decoded instruction passed
        in and `execute` (not part of this model) taken to change nothing.
        `ok` is false where the Rust code panics. */
    method DoCycle(executeCycles: Byte) returns (ok: bool)
      requires Valid()
      modifies this
      ensures var n := Next(old(state), memory[old(programCounter)], executeCycles);
              ok == n.Some? && (ok ==> state == n.value && cycle == old(cycle) + 1)
      ensures ok && old(state).Fetch? ==> inst == RustInstructions.DecodeInst(memory[old(programCounter)])
      ensures unchanged(this`accumulator, this`regX, this`regY, this`programCounter, this`stackPointer)
      ensures unchanged(this`statusFlags)
    {
      match state {
        case Fetch =>
          var opcode := FetchByte();
          var decoded := RustInstructions.DecodeInst(opcode);
          if decoded.None? || executeCycles == 0 {
            return false;
          }
          inst := decoded;
          state := Execute(executeCycles - 1);
        case Execute(x) =>
          if x > 0 {
            state := Execute(x - 1);
          } else {
            state := Fetch;
          }
      }
      cycle := cycle + 1;
      ok := true;
    }
  }
}
