# NES emulator core in Dafny

This project models the core of an NES emulator. The repository has two
halves:

- a C++ emulator:
  - the cycle-stepped 6502 CPU (`cpu.cpp`, `cpu.h`);
  - the CPU memory map and iNES loader (`nesMemory.cpp`);
  - the PPU register file and VRAM address mirroring (`ppu.cpp`);
  - the string helpers (`utils.h`);
- a partial Rust rewrite:
  - the opcode table (`instructions.rs`);
  - the CPU skeleton with its `Flags` bitfield (`cpu.rs`);
  - the split CPU/PPU memories (`memory.rs`);
  - the iNES header reader (`main.rs`);
  - `convert_addr` (`utils.rs`).

## Modules

Pure code becomes datatypes, functions and lemmas. Code that updates fields
in place becomes classes with `modifies` clauses.

- `Bytes`: byte and word helpers shared by everything else. Bytes and words
  are integers below 0x100 and 0x10000, and every wrap-around is an explicit
  `%`. The ALU's bitwise operators `&`, `|` and `^` are computed bit by bit
  on these integers (`Bitwise`). The address step `addr |= hi << 8` or-s the
  high byte in as an 8-bit vector (`OrHigh`).
- `StatusFlags`: the C++ `StatusFlags` struct and `getStatus`.
- `Alu`: the C++ ALU operations as functions from operand and flags to
  result and flags.
- `Isa`, `CpuDecode`: the operation set and the C++ `decode` table.
- `CpuSpec`: the whole C++ CPU as a pure machine.
  - `Step` is one `doCycle` call on a `Machine` record.
  - `None` stands for the `exit(1)` branches.
- `CpuClass.Cpu`: the C++ `CPU` class.
  - Every member function that changes the CPU is a method that takes one
    cycle or one case of a cycle.
  - Each method ensures that its new state is what the `CpuSpec` function of
    the same name computes from the old state, so
    `DoCycle` is proved against `Step`.
- `CpuTiming`: whole instructions run through `Step`. It proves cycle counts
  and results for:
  - the stack and control sequences JSR, RTS, PHA, PLA, PHP, PLP, BRK and RTI,
    with the round trips JSR then RTS, PHA then PLA, PHP then PLP, and BRK,
    NMI or IRQ then RTI;
  - the branches, taken or not, with and without a page crossing;
  - NMI and IRQ;
  - LDA zp,X, LDA (zp,X), LDA (zp),Y, JMP (ind), LDA abs,X, STA abs,X and
    ASL abs, one instruction for each of these addressing modes;
  - the defects these runs expose.

  The other addressing modes have per-cycle lemmas but no whole-instruction
  timing.
- `RustInstructions`: `decode_inst` and its inverse `Encode`, plus the
  properties of the table.
- `RustFlags`, `RustCpu`: the Rust `Flags` bitfield and the `CPU` struct, with
  the `do_cycle` countdown.
- `RustMemory`: `CPU_Memory`, `PPU_Memory` and `Memory` as classes over
  arrays.
- `RustHeader`: `parse_header` and the mapper check of `main`.
- `NesMemoryMap`: the C++ `operator[]` and `loadRom`.
- `Ppu`: the C++ `mapAddr` and the register reads and writes of `PPU`.
- `Utils`, `RustUtils`: `to_hex`, `is_in` and `convert_addr`.

## Behaviour kept as written

Where the code does something its authors evidently did not intend, the model
keeps the behaviour of the code and a lemma exhibits it:

- ROL and ROR set the zero flag from the accumulator rather than from the
  result (`Alu.RolZeroFlagDefect`).
- A backward branch that crosses a page is charged no extra cycle
  (`CpuTiming.BackwardCrossNotCharged`).
- `INT` replaces the whole program counter with the high vector byte
  (`CpuTiming.InterruptDropsLowByte`).
- `BRK` leaves the break flag set (`CpuTiming.BrkPushesBreak`).
- `PHP` pushes the status with the break bit set, so `PLP` right after it
  leaves the break flag set (`CpuTiming.PhpThenPlp`), as does `RTI` after
  `BRK` (`CpuTiming.BrkThenRti`); this rests on `setStatus` being the
  inverse of `getStatus`.
- The C++ decoder gives LDX 0xB6 and 0xBE the Y-indexed modes; the Rust table
  gives them X-indexed ones (`CpuDecode.LdxZeroPageDiffers`).
- `doCycle` has no case for the DMA state (`CpuTiming.DmaHalts`).
- In Rust:
  - `push` never moves the stack pointer (`RustCpu.PushThenPopReadsAbove`).
  - `reset` always panics on its one-byte slice
    (`RustUtils.ConvertAddrShortSlice`).
  - An instruction takes one cycle more than its `execute_cycles`
    (`RustCpu.InstructionTakesExecuteCyclesPlusFetch`).
- C++ and Rust name the mirroring of header bit 0 oppositely
  (`NesMemoryMap.MirroringDisagreesWithRust`).
- `operator[]` divides by zero without a ROM bank
  (`NesMemoryMap.RomIndexInBoundsIff`).
- `mapAddr` is not idempotent above 0x4000
  (`Ppu.MapAddrNotIdempotentAbove`).

## Model

| member | source | states |
|---|---|---|
| StatusFlags.Default | src/cpu.h:85-104 | the default flags have only the unused bit set |
| StatusFlags.GetStatus | src/cpu.h:139-143 | bit k of the status byte is exactly the k-th flag: carry bit 0 … sign bit 7 |
| StatusFlags.SetStatus | src/cpu.h:139-143 | unpacking a byte gives flags that `getStatus` packs back to the same byte |
| StatusFlags.UnpackPack | src/cpu.h:85-104 | the status byte determines the flags: unpacking a packed byte gives the flags back |
| StatusFlags.DefaultStatus | src/cpu.h:85-104 | the default flags pack to 0x20 |
| StatusFlags.WithZero | src/cpu.h:145 | `setZero(v)` sets zero iff v = 0 and changes no other flag |
| StatusFlags.WithSign | src/cpu.h:146 | `setSign(v)` sets sign iff bit 7 of v is set and changes no other flag |
| StatusFlags.WithZeroSign | src/cpu.h:145-146 | `setZero` then `setSign`: zero iff v = 0, sign iff v ≥ 0x80, other flags kept |
| StatusFlags.CarryIsBit0 | src/cpu.h:139-143 | changing carry changes only bit 0 of the status byte |
| StatusFlags.ZeroIsBit1 | src/cpu.h:139-143 | changing zero changes only bit 1 |
| StatusFlags.IrqDisableIsBit2 | src/cpu.h:139-143 | changing interrupt-disable changes only bit 2 |
| StatusFlags.DecimalIsBit3 | src/cpu.h:139-143 | changing decimal mode changes only bit 3 |
| StatusFlags.BreakIsBit4 | src/cpu.h:139-143 | changing break changes only bit 4 |
| StatusFlags.OverflowIsBit6 | src/cpu.h:139-143 | changing overflow changes only bit 6 |
| StatusFlags.SignIsBit7 | src/cpu.h:139-143 | changing sign changes only bit 7 |
| Bytes.JoinParts | src/cpu.cpp:1125-1137 | a word built from two bytes has them as its low and high bytes |
| Bytes.SplitJoin | src/cpu.cpp:1125-1137 | every word is the join of its low and high bytes |
| Bytes.Signed | src/cpu.cpp:841-892 | the two's-complement reading of a byte lies in -128..127 and is congruent to it |
| Bytes.OrHighParts | src/cpu.cpp:1126 | or-ing a high byte into an address keeps its low byte, and equals the join when the high byte was 0 |
| Bytes.OrHighOfByte | src/cpu.cpp:1126 | `lo \| hi << 8` is the join of lo and hi |
| Bytes.BitwiseBit | src/cpu.cpp:1286 | bit k of a bitwise combination is the gate applied to bit k of each operand |
| Bytes.AndMask | src/cpu.cpp:1294 | and-ing with a single-bit mask keeps exactly that bit |
| Bytes.BitAndBit | src/cpu.cpp:1286 | bit k of `a & b` is set iff it is set in both |
| Bytes.BitXorBit | src/cpu.cpp:1308 | bit k of `a ^ b` is set iff it is set in exactly one |
| Bytes.BitOrBit | src/cpu.cpp:1332 | bit k of `a \| b` is set iff it is set in either |
| Alu.Adc | src/cpu.cpp:1272-1283 | A + v + C = 256·C' + result; zero and sign from the result; other flags kept |
| Alu.AdcOverflow | src/cpu.cpp:1272-1283 | V is set iff the signed sum A + v + C leaves -128..127 |
| Alu.AdcExample | src/cpu.cpp:1272-1283 | 0x50 + 0x50 gives 0xA0 with overflow and sign set |
| Alu.Sbc | src/cpu.cpp:1337-1348 | A − v − (1 − C) = result − 256·(1 − C'); zero and sign from the result; other flags kept |
| Alu.SbcOverflow | src/cpu.cpp:1337-1348 | V is set iff the signed difference leaves -128..127 |
| Alu.SbcIsAdcOfComplement | src/cpu.cpp:1337-1348 | SBC v gives exactly the A and flags of ADC (v xor 0xFF) |
| Alu.AndBits | src/cpu.cpp:1285-1290 | bit k of the result is set iff bit k is set in both A and v; Z iff the result is 0, N iff it is ≥ 0x80, every other flag kept |
| Alu.EorBits | src/cpu.cpp:1307-1311 | bit k of the result is set iff bit k is set in exactly one of A and v; Z iff the result is 0, N iff it is ≥ 0x80, every other flag kept |
| Alu.OraBits | src/cpu.cpp:1331-1335 | bit k of the result is set iff bit k is set in A or v; Z iff the result is 0, N iff it is ≥ 0x80, every other flag kept |
| Alu.Bit | src/cpu.cpp:1292-1296 | zero iff A and v is 0, overflow is bit 6 of v, sign is bit 7 of v; no other flag changes |
| Alu.Compare | src/cpu.cpp:1298-1305 | C iff first ≥ second, Z iff equal, N is bit 7 of the wrapped difference; no other flag changes |
| Alu.Asl | src/cpu.cpp:1352-1359 | 2·v = 256·C' + result; zero and sign from the result |
| Alu.Lsr | src/cpu.cpp:1361-1368 | v = 2·result + C'; sign is cleared |
| Alu.Rol | src/cpu.cpp:1370-1378 | 2·v + C = 256·C' + result; zero from the accumulator as written; sign from the result |
| Alu.Ror | src/cpu.cpp:1380-1388 | 256·C + v = 2·result + C'; zero from the accumulator as written; sign is the old carry |
| Alu.RorUndoesRol | src/cpu.cpp:1370-1388 | ROR after ROL restores the operand and the carry |
| Alu.RolZeroFlagDefect | src/cpu.cpp:1370-1378 | ROL of 0x80 with A = 1 yields 0 but leaves zero clear |
| Alu.RorZeroFlagDefect | src/cpu.cpp:1380-1388 | ROR of 0x01 with A = 1 yields 0 but leaves zero clear |
| Alu.Dec | src/cpu.cpp:1390-1395 | result + 1 ≡ v (mod 256); zero and sign from the result |
| Alu.Inc | src/cpu.cpp:1397-1402 | result − 1 ≡ v (mod 256); zero and sign from the result |
| Alu.IncDec | src/cpu.cpp:1390-1402 | INC and DEC undo each other |
| Alu.Condition | src/cpu.cpp:1406-1413 | a branch condition exists exactly for the eight branch operations |
| Alu.ConditionPairs | src/cpu.cpp:1406-1413 | BCC/BCS, BNE/BEQ, BPL/BMI and BVC/BVS are complementary |
| Alu.ConditionReadsOneFlag | src/cpu.cpp:1406-1413 | each condition depends only on its own flag |
| CpuDecode.Decode | src/cpu.cpp:33-673 | the `decode` switch as a table from byte to operation and state; `AgreesWithRust`, `AcceptedCount` and `CpuClass.Cpu.Decode` state what it accepts and sets |
| CpuDecode.AgreesWithRust | src/cpu.cpp:33-673 | the C++ `decode` accepts exactly the bytes `decode_inst` accepts, with the same operation, and the same mode except at 0xB6 and 0xBE |
| CpuDecode.LdxZeroPageDiffers | src/cpu.cpp:234-237 | 0xB6 is LDX zero page,Y in C++ but zero page,X in Rust |
| CpuDecode.LdxAbsoluteDiffers | src/cpu.cpp:420-423 | 0xBE is LDX absolute,Y in C++ but absolute,X in Rust |
| CpuDecode.AcceptedCount | src/cpu.cpp:665-671 | `decode` accepts 151 byte values; every other byte reaches the error branch |
| CpuSpec.PowerOn | src/cpu.cpp:10-31 | power-on: A = X = Y = 0, SP = 0xFD, interrupts disabled, cycle 7, PC from the reset vector, state Fetch |
| CpuSpec.StackAddr | src/cpu.cpp:675-677 | every stack address lies in page one |
| CpuSpec.Push | src/cpu.cpp:675 | `pushStack` writes the value at 0x100 \| SP, decrements SP, and changes no other byte or register |
| CpuSpec.RegisterOp | src/cpu.cpp:1272-1348 | LDA/LDX/LDY load one register and set zero and sign; BIT and the compares change no register |
| CpuSpec.ExecuteImplicit | src/cpu.cpp:679-767 | simple implied operations finish in one step without touching memory or PC; a non-implied operation is the error branch |
| CpuSpec.ExecuteAccumulator | src/cpu.cpp:769-793 | accumulator mode succeeds exactly for the four shifts |
| CpuSpec.ExecuteImmediate | src/cpu.cpp:795-839 | immediate mode succeeds exactly for the register operations other than BIT |
| CpuSpec.ExecuteDma | src/cpu.cpp:1023-1040 | the DMA step runs only in the DMA state and counts the remaining cycles down by one |
| CpuSpec.CompletesIterate | src/cpu.cpp:1042-1264 | a run that completes after n steps is back in Fetch at n and not before |
| CpuSpec.IterateAdd | src/cpu.cpp:1042-1264 | running a + b steps is running a steps and then b |
| CpuSpec.EndsMeans | src/cpu.cpp:1042-1264 | an instruction ending in r after n cycles means n `doCycle` calls lead to r, the first reaching Fetch |
| CpuSpec.StepCounts | src/cpu.cpp:1042-1264 | every successful `doCycle` advances the cycle counter by exactly one |
| CpuSpec.InstructionKeepsCounter | src/cpu.cpp:894-1021 | `executeInstruction` does not touch the cycle counter |
| CpuSpec.ImplicitKeepsCounter | src/cpu.cpp:679-767 | `executeImplicit` does not touch the cycle counter |
| CpuSpec.AddSigned | src/cpu.cpp:874-880 | `pc += static_cast<int8_t>(value)` with 16-bit wrap-around; `RustCpu.BranchTargetAgreesWithCpp` relates it to the Rust target |
| CpuSpec.Modify | src/cpu.cpp:935-952 | the read-modify-write dispatch to ASL, LSR, ROL, ROR, DEC and INC, whose contracts are those of `Alu.Asl` … `Alu.Inc` |
| CpuSpec.ExecuteBranch | src/cpu.cpp:841-892 | the branch cycles; `CpuTiming.BranchTiming` and the branch lemmas state their count and target |
| CpuSpec.ExecuteInstruction | src/cpu.cpp:894-1021 | the operand cycle of the memory modes; `InstructionKeepsCounter` and the `CpuClass.InstructionOf…` lemmas state its effect |
| CpuSpec.Jsr | src/cpu.cpp:1430-1458 | the JSR cycles; `CpuTiming.JsrTiming` and `CpuTiming.JsrThenRts` state their effect |
| CpuSpec.Pha | src/cpu.cpp:1525-1540 | the PHA cycles; `CpuTiming.PhaTiming` and `CpuTiming.PhaThenPla` state their effect |
| CpuSpec.Php | src/cpu.cpp:1542-1559 | the PHP cycles; `CpuTiming.PhpTiming` and `CpuTiming.PhpPushesBreak` state their effect |
| CpuSpec.Pla | src/cpu.cpp:1571-1592 | the PLA cycles; `CpuTiming.PlaTiming` and `CpuTiming.PhaThenPla` state their effect |
| CpuSpec.Plp | src/cpu.cpp:1594-1613 | the PLP cycles; `CpuTiming.PlpTiming` and `CpuTiming.PhpThenPlp` state their effect |
| CpuSpec.Rti | src/cpu.cpp:1625-1654 | the RTI cycles; `CpuTiming.RtiTiming`, `CpuTiming.BrkThenRti` and `CpuTiming.InterruptThenRti` state their effect |
| CpuSpec.Rts | src/cpu.cpp:1656-1684 | the RTS cycles; `CpuTiming.RtsTiming` and `CpuTiming.JsrThenRts` state their effect |
| CpuSpec.Brk | src/cpu.cpp:1698-1733 | the BRK cycles; `CpuTiming.BrkTiming`, `BrkPushed` and `BrkPushesBreak` state their effect |
| CpuSpec.InterruptLow | src/cpu.cpp:1754-1757 | the cycle that reads the low vector byte into PC |
| CpuSpec.InterruptHigh | src/cpu.cpp:1758-1768 | the cycle that reads the high vector byte and assigns it to the whole PC |
| CpuSpec.Interrupt | src/cpu.cpp:1736-1770 | the `INT` cycles; `CpuTiming.NmiTiming`, `IrqTiming`, `InterruptDropsLowByte` and `InterruptPushesNoBreak` state their effect |
| CpuSpec.FetchCycle | src/cpu.cpp:1044-1074 | the `Fetch` case: NMI first, then IRQ when enabled, then DMA, else decode; `CpuTiming.FetchStep` and `DmaStarts` state it |
| CpuSpec.Cycle | src/cpu.cpp:1043-1263 | the switch on the CPU state, `None` for the `exit(1)` branches; `CpuClass.Cpu.SwitchOnState` is proved against it |
| CpuSpec.Step | src/cpu.cpp:1042-1264 | one `doCycle` call; `StepCounts` states that it advances the counter by one and `CpuClass.Cpu.DoCycle` is proved against it |
| CpuClass.InstructionOfArithmetic | src/cpu.cpp:894-940 | `executeInstruction` applies the register operations to `value` and returns to Fetch |
| CpuClass.InstructionOfTest | src/cpu.cpp:894-940 | the same for BIT and the compares |
| CpuClass.InstructionOfLoad | src/cpu.cpp:894-940 | the same for the loads |
| CpuClass.InstructionOfShift | src/cpu.cpp:894-1021 | shifts and rotates in memory write their result to `addr` |
| CpuClass.InstructionOfCount | src/cpu.cpp:894-1021 | INC and DEC in memory write their result to `addr` |
| CpuClass.InstructionOfStore | src/cpu.cpp:894-1021 | STA/STX/STY write their register to `addr` |
| CpuClass.InstructionOfJmp | src/cpu.cpp:894-1021 | JMP loads `addr` into PC |
| CpuClass.CycleOfIndirect4 | src/cpu.cpp:1239-1245 | the `Indirect4` cycle jumps to the target read from the pointer's own page |
| CpuClass.Cpu.constructor | src/cpu.cpp:10-24 | the new CPU is the power-on machine on the caller's memory |
| CpuClass.Cpu.Reset | src/cpu.cpp:26-31 | reset sets interrupt-disable, drops SP by three and loads PC |
| CpuClass.Cpu.Decode | src/cpu.cpp:33-673 | sets `op` and `state` from the table exactly when the byte is accepted; otherwise nothing changes |
| CpuClass.Cpu.PushStack | src/cpu.cpp:675 | the new state is `Push` of the old |
| CpuClass.Cpu.PopStack | src/cpu.cpp:677 | returns the byte at 0x100 \| SP |
| CpuClass.Cpu.Arithmetic | src/cpu.cpp:1272-1348 | ADC/SBC/AND/EOR/ORA update the machine as `RegisterOp` says |
| CpuClass.Cpu.Test | src/cpu.cpp:1292-1305 | BIT/CMP/CPX/CPY update the machine as `RegisterOp` says |
| CpuClass.Cpu.Load | src/cpu.cpp:1313-1329 | LDA/LDX/LDY update the machine as `RegisterOp` says |
| CpuClass.Cpu.RegisterOperation | src/cpu.cpp:795-839 | the dispatch on `op` agrees with `RegisterOp` |
| CpuClass.Cpu.ModifyOperation | src/cpu.cpp:1352-1402 | returns the shifted, rotated or counted value and updates only the flags |
| CpuClass.Cpu.ClearFlag | src/cpu.cpp:1468-1471 | CLC/CLD/CLI/CLV step as `ExecuteImplicit` says |
| CpuClass.Cpu.SetFlag | src/cpu.cpp:1479-1481 | SEC/SED/SEI step as `ExecuteImplicit` says |
| CpuClass.Cpu.CountX | src/cpu.cpp:1473-1477 | INX/DEX step as `ExecuteImplicit` says |
| CpuClass.Cpu.CountY | src/cpu.cpp:1473-1477 | INY/DEY step as `ExecuteImplicit` says |
| CpuClass.Cpu.TransferToA | src/cpu.cpp:1501-1513 | TXA/TYA step as `ExecuteImplicit` says |
| CpuClass.Cpu.TransferToX | src/cpu.cpp:1483-1499 | TAX/TSX step as `ExecuteImplicit` says |
| CpuClass.Cpu.TransferToY | src/cpu.cpp:1489-1493 | TAY steps as `ExecuteImplicit` says |
| CpuClass.Cpu.TransferToSp | src/cpu.cpp:1507 | TXS steps as `ExecuteImplicit` says |
| CpuClass.Cpu.SimpleImplied | src/cpu.cpp:679-733 | the one-cycle implied operations step as `ExecuteImplicit` says |
| CpuClass.Cpu.PushImplied | src/cpu.cpp:735-755 | PHP, PHA and BRK (the cases at lines 735-740 and 753-755) step as `ExecuteImplicit` says |
| CpuClass.Cpu.PullImplied | src/cpu.cpp:741-746 | PLP and PLA step as `ExecuteImplicit` says |
| CpuClass.Cpu.ReturnImplied | src/cpu.cpp:747-752 | RTI and RTS step as `ExecuteImplicit` says |
| CpuClass.Cpu.ExecuteImplicit | src/cpu.cpp:679-767 | one call agrees with `ExecuteImplicit`, failing exactly where it does |
| CpuClass.Cpu.ExecuteAccumulator | src/cpu.cpp:769-793 | one call agrees with `ExecuteAccumulator` |
| CpuClass.Cpu.ExecuteImmediate | src/cpu.cpp:795-839 | one call agrees with `ExecuteImmediate` |
| CpuClass.Cpu.ExecuteBranch | src/cpu.cpp:841-892 | one call agrees with `ExecuteBranch`, result included |
| CpuClass.Cpu.RegisterInstruction | src/cpu.cpp:894-940 | applies `RegisterOp` to `value` and returns to Fetch |
| CpuClass.Cpu.ModifyInstruction | src/cpu.cpp:941-1000 | writes the modified value to `addr` and returns to Fetch |
| CpuClass.Cpu.StoreInstruction | src/cpu.cpp:1001-1021 | writes the register to `addr` and returns to Fetch |
| CpuClass.Cpu.ExecuteInstruction | src/cpu.cpp:894-1021 | one call agrees with `ExecuteInstruction` |
| CpuClass.Cpu.JsrTargetLow | src/cpu.cpp:1432-1435 | the first JSR cycle agrees with `Jsr` |
| CpuClass.Cpu.JsrPush | src/cpu.cpp:1440-1447 | the push cycles of JSR agree with `Jsr` |
| CpuClass.Cpu.JsrTargetHigh | src/cpu.cpp:1448-1456 | the last JSR cycle agrees with `Jsr` |
| CpuClass.Cpu.Jsr | src/cpu.cpp:1430-1458 | every JSR cycle agrees with `Jsr` |
| CpuClass.Cpu.Pha | src/cpu.cpp:1525-1540 | every PHA cycle agrees with `Pha` |
| CpuClass.Cpu.PhpPush | src/cpu.cpp:1548-1556 | the push cycle of PHP agrees with `Php` |
| CpuClass.Cpu.Php | src/cpu.cpp:1542-1559 | every PHP cycle agrees with `Php` |
| CpuClass.Cpu.PlaPull | src/cpu.cpp:1581-1590 | the pull cycle of PLA agrees with `Pla` |
| CpuClass.Cpu.Pla | src/cpu.cpp:1571-1592 | every PLA cycle agrees with `Pla` |
| CpuClass.Cpu.PlpPull | src/cpu.cpp:1604-1611 | the pull cycle of PLP agrees with `Plp` |
| CpuClass.Cpu.Plp | src/cpu.cpp:1594-1613 | every PLP cycle agrees with `Plp` |
| CpuClass.Cpu.RtiStatus | src/cpu.cpp:1635-1639 | the status pull of RTI agrees with `Rti` |
| CpuClass.Cpu.RtiLow | src/cpu.cpp:1640-1644 | the low-byte pull of RTI agrees with `Rti` |
| CpuClass.Cpu.RtiHigh | src/cpu.cpp:1645-1652 | the high-byte pull of RTI agrees with `Rti` |
| CpuClass.Cpu.Rti | src/cpu.cpp:1625-1654 | every RTI cycle agrees with `Rti` |
| CpuClass.Cpu.RtsLow | src/cpu.cpp:1666-1670 | the low-byte pull of RTS agrees with `Rts` |
| CpuClass.Cpu.RtsHigh | src/cpu.cpp:1671-1674 | the high-byte pull of RTS agrees with `Rts` |
| CpuClass.Cpu.Rts | src/cpu.cpp:1656-1684 | every RTS cycle agrees with `Rts` |
| CpuClass.Cpu.BrkPush | src/cpu.cpp:1705-1717 | the push cycles of BRK agree with `Brk` |
| CpuClass.Cpu.BrkVector | src/cpu.cpp:1718-1731 | the vector cycles of BRK agree with `Brk` |
| CpuClass.Cpu.Brk | src/cpu.cpp:1698-1733 | every BRK cycle agrees with `Brk` |
| CpuClass.Cpu.InterruptPush | src/cpu.cpp:1742-1749 | the push cycles of `INT` agree with `Interrupt` |
| CpuClass.Cpu.InterruptStatus | src/cpu.cpp:1750-1757 | the status push of `INT` agrees with `Interrupt` |
| CpuClass.Cpu.InterruptLow | src/cpu.cpp:1754-1757 | the low vector byte is read as `InterruptLow` says |
| CpuClass.Cpu.InterruptHigh | src/cpu.cpp:1758-1768 | the high vector byte replaces the whole PC, as `InterruptHigh` says |
| CpuClass.Cpu.Interrupt | src/cpu.cpp:1736-1770 | every `INT` cycle agrees with `Interrupt` |
| CpuClass.Cpu.ExecuteDma | src/cpu.cpp:1023-1040 | one call agrees with `ExecuteDma` |
| CpuClass.Cpu.FetchCycle | src/cpu.cpp:1044-1074 | the fetch cycle agrees with `FetchCycle`: interrupts, DMA, or decoding the opcode |
| CpuClass.Cpu.BranchCycle | src/cpu.cpp:1081-1088 | the `Branch` case agrees with `Cycle` |
| CpuClass.Cpu.ZeroPageCycle | src/cpu.cpp:1089-1099 | the `Zero` and `ZeroXY` cases agree with `Cycle` |
| CpuClass.Cpu.ZeroIndexCycle | src/cpu.cpp:1100-1109 | the `ZeroX` and `ZeroY` cases agree with `Cycle` |
| CpuClass.Cpu.AbsoluteCycle | src/cpu.cpp:1125-1137 | the `Abs2` case agrees with `Cycle` |
| CpuClass.Cpu.StallCycle | src/cpu.cpp:1138-1146 | the read-modify-write stall cycles agree with `Cycle` |
| CpuClass.Cpu.AbsIndexCycle | src/cpu.cpp:1147-1156 | the `AbsX` and `AbsY` cases agree with `Cycle` |
| CpuClass.Cpu.AbsHighCycle | src/cpu.cpp:1157-1170 | the `AbsXY` case agrees with `Cycle` |
| CpuClass.Cpu.IndexedPointerCycle | src/cpu.cpp:1184-1192 | `Indexed1` and `Indexed2` agree with `Cycle` |
| CpuClass.Cpu.IndexedLowCycle | src/cpu.cpp:1193-1196 | `Indexed3` agrees with `Cycle` |
| CpuClass.Cpu.IndexedHighCycle | src/cpu.cpp:1197-1204 | `Indexed4` agrees with `Cycle` |
| CpuClass.Cpu.IndirectIndexedLowCycle | src/cpu.cpp:1205-1212 | `IndirectIndexed1` and `IndirectIndexed2` agree with `Cycle` |
| CpuClass.Cpu.IndirectIndexedHighCycle | src/cpu.cpp:1213-1221 | `IndirectIndexed3` agrees with `Cycle` |
| CpuClass.Cpu.IndirectPointerCycle | src/cpu.cpp:1227-1234 | `Indirect1` and `Indirect2` agree with `Cycle` |
| CpuClass.Cpu.IndirectLowCycle | src/cpu.cpp:1235-1238 | `Indirect3` agrees with `Cycle` |
| CpuClass.Cpu.IndirectHighCycle | src/cpu.cpp:1239-1245 | `Indirect4` jumps to the target read within the pointer's page |
| CpuClass.Cpu.ReadCycle | src/cpu.cpp:1246-1249 | the `Read` case agrees with `Cycle` |
| CpuClass.Cpu.DirectCycle | src/cpu.cpp:1089-1146 | the zero-page, absolute and stall cases agree with `Cycle` |
| CpuClass.Cpu.AbsIndexedCycle | src/cpu.cpp:1147-1183 | the absolute indexed cases agree with `Cycle` |
| CpuClass.Cpu.IndexedCycle | src/cpu.cpp:1184-1204 | the `(zp,X)` cases agree with `Cycle` |
| CpuClass.Cpu.IndirectIndexedCycle | src/cpu.cpp:1205-1226 | the `(zp),Y` cases agree with `Cycle` |
| CpuClass.Cpu.IndirectCycle | src/cpu.cpp:1227-1245 | the `JMP (ind)` cases agree with `Cycle` |
| CpuClass.Cpu.SwitchOnState | src/cpu.cpp:1043-1263 | the switch of `doCycle` agrees with `Cycle` |
| CpuClass.Cpu.DoCycle | src/cpu.cpp:1042-1264 | one `doCycle` call is one `Step`: the new state is `Step` of the old, and it fails exactly where `Step` exits |
| CpuTiming.ZeroXYCycle | src/cpu.cpp:1110-1120 | the zero-page indexed address is the re-read operand plus the index modulo 256; the next state follows the operation |
| CpuTiming.AbsXYNear | src/cpu.cpp:1157-1170 | a read whose index does not carry out of the low byte has its address complete and goes to `Read` |
| CpuTiming.AbsXYFar | src/cpu.cpp:1157-1170 | a store, a read-modify-write or a carrying read keeps the base address and goes to `AbsFix` |
| CpuTiming.Indexed4Cycle | src/cpu.cpp:1197-1204 | the high byte of the `(zp,X)` target comes from the next zero-page cell modulo 256 |
| CpuTiming.IndirectIndexed3Near | src/cpu.cpp:1213-1221 | a `(zp),Y` load that stays in its page has its address complete and goes to `Read` |
| CpuTiming.IndirectIndexed3Far | src/cpu.cpp:1213-1221 | a store or a page-crossing load keeps the base address and goes to `IndirectIndexedFix` |
| CpuTiming.Indirect4Cycle | src/cpu.cpp:1239-1245 | `JMP (ind)` reads the high target byte in the pointer's own page and returns to `Fetch` |
| CpuTiming.RMWStall1Cycle | src/cpu.cpp:1138-1141 | the first stall reads the operand at `addr` |
| CpuTiming.RMWStall2Cycle | src/cpu.cpp:1142-1146 | the second stall writes the operand back unchanged |
| CpuTiming.FetchStep | src/cpu.cpp:1044-1074 | fetching with no interrupt or DMA pending decodes the opcode, advances PC and takes one cycle |
| CpuTiming.JsrTiming | src/cpu.cpp:1430-1458 | JSR takes 6 cycles and ends in `JsrResult` |
| CpuTiming.RtsTiming | src/cpu.cpp:1656-1684 | RTS takes 6 cycles and ends in `RtsResult` |
| CpuTiming.JsrThenRts | src/cpu.cpp:1430-1684 | RTS after JSR resumes at the byte after the JSR operand, with SP restored |
| CpuTiming.PhaTiming | src/cpu.cpp:1525-1540 | PHA takes 3 cycles |
| CpuTiming.PlaTiming | src/cpu.cpp:1571-1592 | PLA takes 4 cycles |
| CpuTiming.PhaThenPla | src/cpu.cpp:1525-1592 | PLA after PHA restores A and SP and sets zero and sign from A |
| CpuTiming.PhpTiming | src/cpu.cpp:1542-1559 | PHP takes 3 cycles |
| CpuTiming.PhpPushesBreak | src/cpu.cpp:1542-1559 | PHP pushes the status with bit 4 set and the other bits unchanged, and leaves the break flag clear |
| CpuTiming.PlpTiming | src/cpu.cpp:1594-1613 | PLP takes 4 cycles and ends in `PlpResult`: SP is incremented first and the status is the byte at 0x100 \| (SP + 1) |
| CpuTiming.PhpThenPlp | src/cpu.cpp:1542-1613 | PLP after PHP restores SP and every flag except break, which is left set by the byte PHP pushed |
| CpuTiming.BrkPushed | src/cpu.cpp:1698-1733 | the pushes of BRK leave the IRQ vector bytes untouched |
| CpuTiming.BrkTiming | src/cpu.cpp:1698-1733 | BRK takes 7 cycles |
| CpuTiming.BrkPushesBreak | src/cpu.cpp:1698-1733 | BRK pushes the status with bit 4 set and the other bits unchanged |
| CpuTiming.RtiTiming | src/cpu.cpp:1625-1654 | RTI takes 6 cycles and ends in `RtiResult`: the status from 0x100 \| (SP + 1), PC joined from the bytes at SP + 2 and SP + 3 with nothing added, and SP up by three |
| CpuTiming.BrkThenRti | src/cpu.cpp:1625-1733 | RTI after BRK returns to the BRK opcode plus two with SP restored and the pushed status, break flag set |
| CpuTiming.BranchCycles | src/cpu.cpp:841-892 | a branch takes 2 to 4 cycles, and 2 exactly when it is not taken |
| CpuTiming.BranchDecides | src/cpu.cpp:1081-1088 | the `Branch` cycle reads the offset and goes on iff the condition holds |
| CpuTiming.BranchSkips | src/cpu.cpp:1081-1088 | an untaken branch is done after reading its offset |
| CpuTiming.BranchTakes | src/cpu.cpp:1081-1088 | a taken branch goes on to `Execute1` |
| CpuTiming.BranchLands | src/cpu.cpp:841-892 | a taken branch without a carry out of the low byte lands in its third cycle |
| CpuTiming.BranchCarries | src/cpu.cpp:841-892 | a taken branch with a carry out of the low byte needs a fourth cycle |
| CpuTiming.BranchLandsLate | src/cpu.cpp:841-892 | the fourth cycle fixes the high byte and lands |
| CpuTiming.BranchTiming | src/cpu.cpp:841-892 | every branch takes `BranchCycles` cycles and ends in `BranchResult` |
| CpuTiming.BackwardCrossNotCharged | src/cpu.cpp:841-892 | a backward branch into the previous page takes only 3 cycles although the page changes |
| CpuTiming.ForwardCrossCharged | src/cpu.cpp:841-892 | a forward branch into the next page takes 4 cycles |
| CpuTiming.LdaZeroXTiming | src/cpu.cpp:1100-1120 | LDA zp,X takes 4 cycles |
| CpuTiming.LdaIndexedTiming | src/cpu.cpp:1184-1204 | LDA (zp,X) takes 6 cycles |
| CpuTiming.IndexedPointerWraps | src/cpu.cpp:1188-1198 | with the pointer at 0xFF the address bytes are read from 0xFF and 0x00 |
| CpuTiming.LdaIndirectYTiming | src/cpu.cpp:1205-1226 | LDA (zp),Y takes 5 cycles, or 6 when Y carries out of the low byte |
| CpuTiming.IndirectYCrossMeansNewPage | src/cpu.cpp:1213-1224 | the carry out of the low byte happens iff the effective address is on another page |
| CpuTiming.JmpIndirectTiming | src/cpu.cpp:1227-1245 | JMP (ind) takes 5 cycles |
| CpuTiming.IndirectPageWrap | src/cpu.cpp:1239-1243 | with the pointer at xxFF the high byte is read from xx00 |
| CpuTiming.IndirectNoWrap | src/cpu.cpp:1239-1243 | otherwise it is read from the next byte |
| CpuTiming.LdaAbsXTiming | src/cpu.cpp:1147-1183 | LDA abs,X takes 4 cycles, or 5 when X carries out of the low byte |
| CpuTiming.StaAbsXTiming | src/cpu.cpp:1157-1170 | STA abs,X always takes 5 cycles |
| CpuTiming.StaThenLda | src/cpu.cpp:1147-1183 | LDA abs,X from the address STA abs,X wrote reads back the stored A |
| CpuTiming.AslAbsTiming | src/cpu.cpp:1121-1146 | ASL abs takes 6 cycles, the two stall cycles included |
| CpuTiming.AslAbsDoubles | src/cpu.cpp:1352-1359 | ASL abs doubles the byte at the address, the carry taking bit 8, and changes no other byte |
| CpuTiming.NmiTiming | src/cpu.cpp:1736-1770 | a pending NMI is taken in 5 cycles |
| CpuTiming.IrqTiming | src/cpu.cpp:1736-1770 | a pending IRQ with interrupts enabled is taken in 5 cycles |
| CpuTiming.InterruptDropsLowByte | src/cpu.cpp:1758-1768 | after `INT` the low byte of PC is 0; it equals the vector iff the vector's low byte is 0 |
| CpuTiming.InterruptPushesNoBreak | src/cpu.cpp:1738-1757 | `INT` pushes PC high, PC low, then the status with bit 4 clear |
| CpuTiming.InterruptThenRti | src/cpu.cpp:1625-1770 | RTI after an NMI or IRQ resumes at the interrupted PC with SP and every flag restored, except that the break flag is clear |
| CpuTiming.DmaStarts | src/cpu.cpp:1044-1074 | a pending DMA enters the DMA state on an even cycle and waits one cycle on an odd one |
| CpuTiming.DmaHalts | src/cpu.cpp:1042-1264 | `doCycle` has no case for the DMA state and takes the error exit |
| RustInstructions.DecodeInst | src/instructions.rs:83-350 | `decode_inst` as a table; `DecodeEncode`, `DecodeInjective` and `AcceptedCount` state its properties |
| RustInstructions.Encode | src/instructions.rs:83-350 | the inverse of `decode_inst`; `DecodeEncode` and `EncodeShape` state the round trip |
| RustInstructions.DecodeEncode | src/instructions.rs:83-350 | encoding a decoded instruction gives the byte back |
| RustInstructions.DecodeInjective | src/instructions.rs:86-346 | no two accepted bytes decode to the same operation and mode |
| RustInstructions.EncodeShape | src/instructions.rs:86-346 | every encodable instruction is Relative iff a branch, Accumulator only for the four shifts, Indirect only for JMP |
| RustInstructions.RelativeIffBranch | src/instructions.rs:113-141 | a byte decodes to Relative mode iff its operation is one of the eight branches |
| RustInstructions.AccumulatorOnlyShifts | src/instructions.rs:106 | Accumulator mode comes only from ASL, LSR, ROL, ROR at 0x0A, 0x4A, 0x2A, 0x6A |
| RustInstructions.IndirectOnlyJmp | src/instructions.rs:211 | Indirect mode comes only from JMP at 0x6C |
| RustInstructions.StoresTakeMemory | src/instructions.rs:312-328 | STA/STX/STY never decode to Immediate, Accumulator or Implicit |
| RustInstructions.AcceptedSizeIsCount | src/instructions.rs:83-350 | the set of accepted bytes has as many elements as the count over 0..256 |
| RustInstructions.AcceptedCount | src/instructions.rs:348 | `decode_inst` accepts exactly 151 byte values and panics on the rest |
| RustFlags.Set | src/cpu.rs:9-21 | a setter gives its field the new value and leaves the other seven bits alone |
| RustFlags.MaskedByOther | src/cpu.rs:9-21 | setting or clearing one bit leaves every other bit alone |
| RustFlags.FieldsDetermineByte | src/cpu.rs:9-21 | two flag bytes that agree on every field are equal |
| RustFlags.Default | src/cpu.rs:9-21 | `Flags::default()` has only the unused bit set, so it is 0x20 |
| RustFlags.DefaultAgreesWithCpp | src/cpu.rs:9-21 | the Rust default equals the C++ default status byte |
| RustFlags.SetZeroAgreesWithCpp | src/cpu.rs:146-148 | setting the zero field matches `setZero` on the C++ flags |
| RustCpu.StackAddress | src/cpu.rs:127-135 | `0x0100 \| sp` lies in page one and keeps SP as its low byte |
| RustCpu.OffsetToAddr | src/cpu.rs:156-161 | the branch offset is sign-extended to 16 bits |
| RustCpu.BranchTargetAgreesWithCpp | src/cpu.rs:156-161 | the Rust branch target equals the C++ one |
| RustCpu.CompareFlags | src/cpu.rs:164-170 | C iff byte ≥ mem, Z iff equal, N is bit 7 of the wrapped difference; other bits kept |
| RustCpu.CompareAgreesWithCpp | src/cpu.rs:164-170 | `compare` matches the C++ compare on the packed status byte |
| RustCpu.Next | src/cpu.rs:86-105 | one countdown step: fetch panics exactly on an illegal opcode or zero cycles; `Execute(0)` returns to Fetch, `Execute(x)` counts down |
| RustCpu.Run | src/cpu.rs:86-105 | repeated `do_cycle` calls with the opcode and cycle count fixed; `ExecuteDrains` and `InstructionTakesExecuteCyclesPlusFetch` state how long an instruction runs |
| RustCpu.ExecuteDrains | src/cpu.rs:86-105 | from `Execute(x)` the machine is back in Fetch after exactly x + 1 steps |
| RustCpu.InstructionTakesExecuteCyclesPlusFetch | src/cpu.rs:86-105 | an instruction with `execute_cycles` n occupies n + 1 `do_cycle` calls |
| RustCpu.PushThenPopReadsAbove | src/cpu.rs:127-135 | `pop` after `push` reads the cell above the pushed one, not the pushed byte |
| RustCpu.Cpu.constructor | src/cpu.rs:54-68 | A = X = Y = 0, SP = 0xFD, PC = 0xFFFC, flags 0x20, state Fetch, cycle 0, memory zeroed |
| RustCpu.Cpu.WriteMemory | src/cpu.rs:75-77 | only the addressed byte changes, to the value |
| RustCpu.Cpu.ReadMemory | src/cpu.rs:79-81 | returns the addressed byte |
| RustCpu.Cpu.FetchByte | src/cpu.rs:123-125 | returns the byte at PC |
| RustCpu.Cpu.Reset | src/cpu.rs:109-115 | reset panics because the reset-vector slice holds one byte |
| RustCpu.Cpu.InitMemory | src/cpu.rs:70-73 | the program is right-aligned to end at 0xFFFF when the size fits and matches; then reset panics |
| RustCpu.Cpu.Push | src/cpu.rs:127-130 | writes the byte at 0x100 \| SP and leaves SP unchanged |
| RustCpu.Cpu.Pop | src/cpu.rs:132-135 | increments SP with wrap-around and returns the byte at the new stack address |
| RustCpu.Cpu.PopAddr | src/cpu.rs:137-139 | two pops give the word, low byte first; SP rises by two |
| RustCpu.Cpu.PushAddr | src/cpu.rs:141-144 | only the low byte stays, written over the high one |
| RustCpu.Cpu.SetZero | src/cpu.rs:146-148 | sets the zero field iff the byte is 0 and nothing else |
| RustCpu.Cpu.SetSigned | src/cpu.rs:150-152 | sets the signed field iff bit 7 is set and nothing else |
| RustCpu.Cpu.Branch | src/cpu.rs:156-161 | returns `cond` and moves PC by the signed offset only when `cond` holds |
| RustCpu.Cpu.Compare | src/cpu.rs:164-170 | flags as `CompareFlags`; registers and memory unchanged |
| RustCpu.Cpu.DoCycle | src/cpu.rs:86-105 | the new state is `Next` of the old, fetch decodes the opcode, and the cycle counter rises by one |
| RustMemory.CpuCellOf | src/memory.rs:32-89 | each CPU address range maps to its array with an in-bounds index |
| RustMemory.CpuAliasing | src/memory.rs:32-89 | two addresses share a cell iff equal, both PPU registers, or internal RAM 0x800 apart |
| RustMemory.InternalRamMirrors | src/memory.rs:35-38 | internal RAM repeats every 0x800 bytes below 0x2000 |
| RustMemory.PpuCellOf | src/memory.rs:114-151 | pattern table, nametable (mod 0x1000), palette (mod 0x20), or invalid |
| RustMemory.PpuMirrors | src/memory.rs:133-151 | 0x3000..0x3EFF reads 0x2000..0x2EFF; the palette repeats every 0x20 |
| RustMemory.CpuMemory.Read | src/memory.rs:59-89 | reads each range from its array; the PPU registers read 0 |
| RustMemory.CpuMemory.constructor | src/memory.rs:19-30 | everything zero except the program, whose last byte sits at 0xFFFF |
| RustMemory.CpuMemory.Write | src/memory.rs:32-57 | exactly the addresses sharing the written cell read the new byte; a PPU-register write changes nothing |
| RustMemory.PpuMemory.Read | src/memory.rs:133-151 | reads each range from its array; invalid addresses read 0 |
| RustMemory.PpuMemory.constructor | src/memory.rs:99-112 | the character ROM at the start of the pattern table, zeros elsewhere |
| RustMemory.PpuMemory.Write | src/memory.rs:114-131 | exactly the addresses sharing the written cell read the new byte; an invalid write changes nothing |
| RustMemory.Memory.constructor | src/memory.rs:166-171 | the two ROM slices after the header land in the two memories |
| RustMemory.Memory.Request | src/memory.rs:173-187 | the CPU request, then the PPU one; a response exactly for a read |
| RustHeader.MapperNumber | src/main.rs:66 | the high nibble is that of flags 7, the low nibble the high nibble of flags 6 |
| RustHeader.ParseHeader | src/main.rs:54-82 | defined iff there are at least 9 bytes; the sizes are 0x4000·bytes[4] and 0x2000·bytes[5] |
| RustHeader.EncodeHeader | src/main.rs:30-50 | nine bytes starting with the iNES magic |
| RustHeader.LowFlagBits | src/main.rs:73-78 | four flags packed in bits 3..0 read back as those flags |
| RustHeader.HighNibbleKeepsLowBits | src/main.rs:66-78 | a high nibble added above the flags leaves their bits alone |
| RustHeader.FlagBits | src/main.rs:66-78 | a byte from a nibble and four flags reads back as both |
| RustHeader.ParseEncodeRoundTrip | src/main.rs:54-82 | parsing an encoded header gives it back |
| RustHeader.ParseIgnoresTail | src/main.rs:54-82 | bytes after the ninth do not matter |
| RustHeader.CheckMapper | src/main.rs:99-101 | only mapper 0 passes `main`'s check |
| RustHeader.ProgramSlice | src/main.rs:95-111 | the program slice handed to `init_memory` exists iff the header parses, the mapper is 0 and the file is long enough; it is bytes 16.. of the file |
| NesMemoryMap.Locate | src/nesMemory.cpp:86-115 | undefined iff i ≥ 0x8000 with no ROM bank; RAM and APU/IO indices in bounds |
| NesMemoryMap.PpuWindowAliasesRamZero | src/nesMemory.cpp:91-94 | all of 0x2000..0x3FFF aliases internal RAM byte 0 |
| NesMemoryMap.InternalRamMirrors | src/nesMemory.cpp:87-89 | internal RAM repeats every 0x800 bytes |
| NesMemoryMap.SingleBankMirrors | src/nesMemory.cpp:108-111 | with one bank, 0x8000 + k and 0xC000 + k are the same byte |
| NesMemoryMap.RamAndRomDisjoint | src/nesMemory.cpp:104-111 | cartridge RAM indices lie below ROMLOCATION and ROM indices at or above it |
| NesMemoryMap.WordIndexInBounds | src/nesMemory.cpp:86-115 | every 16-bit index lands in bounds once there is a ROM bank |
| NesMemoryMap.RomIndexInBoundsIff | src/nesMemory.cpp:108-111 | every index ≥ 0x8000 stays in bounds iff there are one or two banks |
| NesMemoryMap.Mapper | src/nesMemory.cpp:57 | the mapper number's nibbles are the high nibbles of flags 6 and 7 |
| NesMemoryMap.CheckRom | src/nesMemory.cpp:36-80 | success requires the magic, no VS System bit, mapper 0 and at most two banks; each failed check rejects |
| NesMemoryMap.MapperAgreesWithRust | src/nesMemory.cpp:57 | the C++ and Rust readers compute the same mapper number |
| NesMemoryMap.MirroringDisagreesWithRust | src/nesMemory.cpp:47 | C++ calls a set bit 0 Horizontal, Rust calls it Vertical |
| NesMemoryMap.NesMemory.constructor | src/nesMemory.h:16-39 | arrays of the declared sizes, no ROM bank |
| NesMemoryMap.NesMemory.At | src/nesMemory.cpp:117-146 | the byte `operator[]` refers to: RAM mod 0x800 below 0x2000, RAM byte 0 for the PPU window, `APUIOMemory[i − 0x4000]` for 0x4000..0x401F, `cpuMemory[i − 0x4020]` for 0x4020..0x7FFF, and from 0x8000 `cpuMemory[ROMLOCATION + (i − 0x8000) mod (banks · 0x4000)]`, which with one bank mirrors 0x8000..0xBFFF at 0xC000 |
| NesMemoryMap.NesMemory.LoadRom | src/nesMemory.cpp:20-83 | the outcome is `CheckRom`; header fields assigned as read; on success exactly the program banks are copied to ROMLOCATION |
| Ppu.MapAddr | src/ppu.cpp:215-254 | every result is below 0x4000, so indexing `memory` is in bounds |
| Ppu.PaletteMirroring | src/ppu.cpp:216-231 | on 0x3F00..0x4000 the result is 0x3F00 + (a − 0x3F00) mod 0x20, so 0x4000 maps to 0x3F00 |
| Ppu.NametableMirroring | src/ppu.cpp:234-253 | on 0x2000..0x2FFF horizontal clears bit 10 and vertical clears bit 11 |
| Ppu.NametableAliasing | src/ppu.cpp:234-253 | two nametable addresses alias iff they differ only in the mirrored bit |
| Ppu.MapAddrIdempotent | src/ppu.cpp:215-254 | mapping twice equals mapping once for a ≤ 0x4000 |
| Ppu.MapAddrNotIdempotentAbove | src/ppu.cpp:215-218 | 0x6400 maps to 0x2400, which maps on to 0x2000 |
| Ppu.ScrollFirst | src/ppu.cpp:147-151 | the first scroll write puts val bits 3..7 in rt bits 0..4 and keeps the rest |
| Ppu.ScrollSecond | src/ppu.cpp:152-157 | the second puts val bits 0..2 in rt bits 12..14 and bits 3..7 in bits 5..9 |
| Ppu.ScrollPair | src/ppu.cpp:145-158 | two scroll writes set coarse X, fine Y and coarse Y from the two bytes |
| Ppu.AddrFirst | src/ppu.cpp:163-164 | the first address write sets rt bits 8..13 from val bits 0..5, clears bits 14..15 and keeps the low byte |
| Ppu.AddrSecond | src/ppu.cpp:165-167 | the second sets the low byte and keeps bits 8..14 |
| Ppu.AddrPair | src/ppu.cpp:160-170 | two address writes give ((hi & 0x3F) << 8) \| lo, below 0x4000 |
| Ppu.CtrlNametable | src/ppu.cpp:106-110 | `writectrl` sets rt bits 10..11 from val bits 0..1 and keeps the rest |
| Ppu.StatusRead | src/ppu.cpp:77-82 | bits 5..7 from the status, bits 0..4 from the latch |
| Ppu.ClearVblank | src/ppu.cpp:79 | clears bit 7 and keeps the rest |
| Ppu.FineX | src/ppu.cpp:150 | fine X is below 8 and is the written value modulo 8 |
| Ppu.DecodeMask | src/ppu.cpp:120-131 | each mask flag is its bit of val |
| Ppu.MaskRoundTrip | src/ppu.cpp:120-131 | decoding an encoded mask gives it back, and encoding a decoded byte gives the byte |
| Ppu.DecodeControl | src/ppu.cpp:106-118 | increment 32 iff bit 2 and 1 otherwise; pattern tables 0x1000 iff bits 3, 4; the flags from bits 5..7 |
| Ppu.ControlKeepsHighBits | src/ppu.cpp:106-118 | decoding is reachable, and encoding it back keeps exactly bits 2..7 of val |
| Ppu.ControlFromEncoding | src/ppu.cpp:106-118 | a reachable control is the decoding of its encoding |
| Ppu.Ppu.constructor | src/ppu.cpp:21-32 | status 0xA0, OAM address, data, rv, rt and rx zero, and the given arrangement |
| Ppu.Ppu.ReadStatus | src/ppu.cpp:77-82 | returns and latches `StatusRead`, clears vblank, resets the write toggle, nothing else |
| Ppu.Ppu.ReadLatch | src/ppu.cpp:74-75 | the write-only registers (`readctrl`, `readmask`, `readOAMAddr`, `readscroll`, `readaddr`, `readOAMDMA`) return the latch |
| Ppu.Ppu.ReadData | src/ppu.cpp:95-101 | returns the buffered byte, buffers the byte at `mapAddr(rv)` and advances rv by the increment |
| Ppu.Ppu.WriteCtrl | src/ppu.cpp:106-118 | latches val, sets rt's nametable bits, decodes the control flags |
| Ppu.Ppu.WriteMask | src/ppu.cpp:120-131 | latches val and decodes the mask flags |
| Ppu.Ppu.WriteStatus | src/ppu.cpp:133 | only latches val |
| Ppu.Ppu.WriteOamAddr | src/ppu.cpp:135-138 | latches val and sets the OAM address |
| Ppu.Ppu.WriteScroll | src/ppu.cpp:145-158 | the first write sets coarse and fine X, the second coarse and fine Y; the toggle flips |
| Ppu.Ppu.WriteAddr | src/ppu.cpp:160-170 | the first write sets the high byte of rt, the second the low byte and copies rt to rv; the toggle flips |
| Ppu.Ppu.WriteData | src/ppu.cpp:172-177 | writes val at `mapAddr(rv)` only and advances rv by the increment |
| Utils.IsIn | src/utils.h:51-54 | true iff x equals one of the arguments; false for none |
| Utils.Digits | src/utils.h:56-62 | exactly `width` characters, each 0-9 or A-F |
| Utils.ToHex8 | src/utils.h:56-62 | two upper-case hex digits whose base-16 value is v |
| Utils.ToHex16 | src/utils.h:56-62 | four upper-case hex digits whose base-16 value is v |
| Utils.HexDigitValue | src/utils.h:56-62 | each digit character reads back as its value |
| Utils.DigitsRoundTrip | src/utils.h:56-62 | parsing the zero-padded digits gives v back |
| Utils.LexLessAppend | src/utils.h:56-62 | lexicographic order of equal-length strings extended by one character |
| Utils.HexDigitOrder | src/utils.h:56-62 | digit characters are ordered as their values |
| Utils.DigitsOrder | src/utils.h:56-62 | fixed-width digit strings are ordered as their values |
| Utils.ToHex8Order | src/utils.h:56-62 | a < b iff `to_hex(a)` < `to_hex(b)` for bytes |
| Utils.ToHex16Order | src/utils.h:56-62 | the same for 16-bit values |
| Utils.ToHex8Padding | src/utils.h:59-60 | values below 16 are padded with a leading 0 |
| RustUtils.ConvertAddr | src/utils.rs:1-3 | defined iff at least two bytes; little-endian b[1]·256 + b[0] |
| RustUtils.ConvertAddrIgnoresTail | src/utils.rs:2 | bytes after index 1 do not matter |
| RustUtils.ConvertAddrRoundTrip | src/utils.rs:2 | converting [a & 0xFF, a >> 8] gives a |
| RustUtils.ConvertAddrShortSlice | src/cpu.rs:111 | the one-byte reset slice has no address, so `reset` panics |

## Left out

- The SDL window, renderer and event loop (`window.cpp`, `window.h`, `window.rs`), and the interactive C++ `main` (`main.cpp`): I/O only.
- The debug output of `cpu.cpp` (`addDebugInfo`, the `dbg*` functions, `opMap`/`stateMap`), the `step` stdin handling in `doCycle`, and `memory.dump()`: logging and I/O.
- The `exit(1)` branches: the model gives `None` (or `ok == false`) where they are reached.
- The dummy bus reads the C++ CPU makes and throws away: memory reads have no side effect in the model.
- `NesMemory::read`/`write`, `setStatus` and `resetPC` are not defined in the files of this model.
  - The CPU reads and writes its 64 KB memory directly.
  - `setStatus` is taken as the inverse of `getStatus`.
  - `resetPC` is taken as loading the program counter from the reset vector, given as `start`.
- The C++ `StatusFlags` bit-field layout is assumed to be carry at bit 0 through sign at bit 7, as `getStatus` packs it.
- `CpuSpec.Machine` keeps the CPU state as `cpu.cpp` uses it. The stale `stage`, `uint8_t addr` and `char* memory` declarations of `cpu.h` are not modelled.
- CpuSpec.PowerOn: the fields the C++ constructor leaves uninitialised (`op`, `addr`, `value`, `OAM_DMA_Cycles` and `OAM_DMA_Addr`, none of which the initialiser list at `cpu.cpp:10-23` mentions) are fixed at `NOP` and zero, where the source leaves them indeterminate. With `OAM_DMA_Cycles` read at the first fetch (`cpu.cpp:1065`), the model promises no DMA at power-on, which the source does not.
- CpuClass.Cpu.constructor: ensures the machine `CpuSpec.PowerOn` gives, so it fixes the same uninitialised fields at `NOP` and zero.
- NesMemoryMap.NesMemory.constructor: the source constructor is `= default` (`nesMemory.h:39`), so the three arrays and `programSize` are indeterminate until `loadRom`; the model zeroes them.
- The NMI and IRQ lines of the C++ CPU are inputs of the machine. Nothing in these files drives them, and nothing sets `OAM_DMA_Cycles`.
- In `cpu.rs`:
  - The `data` field is not modelled.
  - `execute` and `execute_cycles` are not part of this model: `RustCpu.Cpu.DoCycle` takes the cycle count as a parameter and leaves registers and memory unchanged.
  - `utils::offset_to_addr` is not part of this model. It is taken as sign extension.
  - `cycle` is unbounded.
- RustCpu.Cpu.DoCycle: does not model what `execute` does, because that function is missing.
- RustMemory.CpuMemory.constructor: requires `programSize <= 0xBFE0` and a program slice of exactly `programSize` bytes. The source panics otherwise, in the slice `[(0xBFE0 - program_size)..]` or in `copy_from_slice` (`memory.rs:27`). The panics are not modelled.
- RustMemory.PpuMemory.constructor: requires `characterSize <= 0x2000` and a ROM slice of exactly `characterSize` bytes. The source panics otherwise: `todo!` for a larger size (`memory.rs:100-102`) and `copy_from_slice` for a length mismatch (`memory.rs:109`). The panics are not modelled.
- RustMemory.Memory.constructor: requires both ROM slices to lie within `bytes` and each size to be one its side accepts. The source panics on an out-of-range slice (`memory.rs:168-169`) or inside the side's constructor; the panics are not modelled.
- `Memory::request` is modelled on its two memories. The `Request`/`Response` channel types are plain datatypes.
- `main` in `main.rs`: only the header parse, the mapper check and the program slice are modelled. Reading the file and printing are I/O.
- The file and stream I/O of `NesMemory::loadRom` is not modelled. It is modelled on the bytes the file held, and its prints are left out.
- `NesMemory::dump` is left out.
- In `ppu.cpp`:
  - `PPU::loadRom` copies character ROM from a file buffer. The mirroring it sets is a constructor parameter of `Ppu.Ppu`.
  - The render stages, `doCycle` and `dump` do nothing yet.
  - `readOAMData` and `writeOAMData` index the 64-entry OAM array with an 8-bit counter.
- `ppu.h` does not declare `rt`, `rv`, `latch` or `VRamInc`. The model gives `rt`/`rv` 16 bits and `latch` 8 bits.
- The PPU fields the constructor does not initialise (`latch`, `writeLatch`, the control and mask flags) start at arbitrary values.
- The eight mask flags and the control fields of `Ppu.Ppu` are grouped into the `Mask` and `Control` values. Each is assigned as a whole, where `writemask` and `writectrl` assign field by field.
- Ppu.Advance: stated only through its use (a 16-bit wrapping add, as `uint16_t` wraps). It has no contract of its own.
- `ppu.rs` refers to a `Memory::new`/`load_rom` that does not exist. It is not modelled.
- `utils.cpp` repeats `to_hex`; it is modelled once, from `utils.h`.
- The `NotImplemented` class and the `error`/`warning` macros of `utils.h` are diagnostics only.
- Undefined behaviour is modelled as an outcome, not as what a C++ build might do:
  - In `NesMemory::loadRom`, a file of fewer than four bytes, or a ROM copy past the end of either buffer, gives `Undefined`.
  - The division by zero in `operator[]` gives `None`.
