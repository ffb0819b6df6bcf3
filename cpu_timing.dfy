/** Whole instructions of the C++ CPU as sequences of `doCycle` calls: how
    many cycles each takes and what it leaves behind.

    For each instruction, a `...Result` function says what the instruction
    does as a whole and a `...Timing` lemma proves that `doCycle`, started
    in `Fetch` on its opcode, gets back to `Fetch` in exactly the stated
    number of cycles, in that machine. The proofs are built from one lemma
    per case of the `doCycle` switch (on an arbitrary machine in that
    state), the machines part way through an instruction (`...After`), one
    lemma per cycle of the instruction (`...Cycle`) and a walk back from the
    last cycle (`...From`). */
module CpuTiming {
  import opened Isa
  import opened Bytes
  import opened StatusFlags
  import opened Alu
  import opened CpuDecode
  import opened CpuSpec

  /** The byte after the opcode. */
  function Operand(m: Machine): Byte
  {
    m.mem[Inc16(m.pc)]
  }

  /** The little-endian word after the opcode. */
  function Operand16(m: Machine): Word
  {
    Join(m.mem[Inc16(m.pc)], m.mem[Inc16(Inc16(m.pc))])
  }

  /** The 8-bit stack pointer after a push. */
  function Down(s: Byte): Byte
  {
    (s + 0xFF) % 0x100
  }

  /** The 8-bit stack pointer before a pull. */
  function Up(s: Byte): Byte
  {
    (s + 1) % 0x100
  }

  lemma Dec16Inc16(w: Word)
    ensures Dec16(Inc16(w)) == w
  {
    if w == 0xFFFF {
    } else {
    }
  }

  lemma PushIs(m: Machine, v: Byte)
    ensures Push(m, v) == m.(mem := m.mem[StackAddr(m.sp) := v], sp := Down(m.sp))
  {
  }

  lemma IncSpIs(m: Machine)
    ensures IncSp(m) == m.(sp := Up(m.sp))
  {
  }

  /** The `Fetch` cycle with nothing pending decodes the opcode at `pc`. */
  lemma FetchStep(m: Machine, e: Entry)
    requires Ready(m)
    requires Decode(m.mem[m.pc]) == Some(e)
    ensures Step(m) == Some(m.(pc := Inc16(m.pc), op := e.op, state := e.state, cycle := m.cycle + 1))
  {
  }

  // ------------------------------------------------------------------
  // Single cases of the `doCycle` switch.

  /** `ZeroX`: the operand byte is skipped and X becomes the index. */
  lemma ZeroXCycle(p: Machine)
    requires p.state == ZeroX
    ensures Step(p) == Some(p.(pc := Inc16(p.pc), value := p.rx, state := ZeroXY, cycle := p.cycle + 1))
  {
  }

  /** `ZeroXY`: the operand, re-read at `pc - 1`, plus the index modulo 256: a zero-page indexed
      address never leaves page 0. */
  lemma ZeroXYCycle(p: Machine)
    requires p.state == ZeroXY
    ensures Step(p) == Some(p.(addr := (p.mem[Dec16(p.pc)] + p.value) % 0x100, state := AfterAddress(p.op), cycle := p.cycle + 1))
  {
  }

  /** `Abs1`: the low byte of the address. */
  lemma Abs1Cycle(p: Machine)
    requires p.state == Abs1
    ensures Step(p) == Some(p.(addr := p.mem[p.pc], pc := Inc16(p.pc), state := Abs2, cycle := p.cycle + 1))
  {
  }

  /** `Abs2`, for anything but `JMP`: the high byte of the address is or-ed in. */
  lemma Abs2Cycle(p: Machine)
    requires p.state == Abs2 && p.op != JMP
    ensures Step(p) == Some(p.(addr := OrHigh(p.addr, p.mem[p.pc]), pc := Inc16(p.pc), state := AfterAddress(p.op), cycle := p.cycle + 1))
  {
  }

  /** `AbsX`: the low byte of the base address; X becomes the index. */
  lemma AbsXCycle(p: Machine)
    requires p.state == AbsX
    ensures Step(p) == Some(p.(addr := p.mem[p.pc], pc := Inc16(p.pc), value := p.rx, state := AbsXY, cycle := p.cycle + 1))
  {
  }

  /** `AbsXY` for a read whose index does not carry out of the low byte: the indexed address is
      complete. */
  lemma AbsXYNear(p: Machine)
    requires p.state == AbsXY && Lo(p.addr) + p.value <= 0xFF
    requires !IsStore(p.op) && !IsReadModifyWrite(p.op)
    ensures Step(p) == Some(p.(addr := (OrHigh(p.addr, p.mem[p.pc]) + p.value) % 0x10000, pc := Inc16(p.pc), state := Read, cycle := p.cycle + 1))
  {
  }

  /** `AbsXY` otherwise: the base address is kept and fixed up in the next cycle. */
  lemma AbsXYFar(p: Machine)
    requires p.state == AbsXY
    requires Lo(p.addr) + p.value > 0xFF || IsStore(p.op) || IsReadModifyWrite(p.op)
    ensures Step(p) == Some(p.(addr := OrHigh(p.addr, p.mem[p.pc]), pc := Inc16(p.pc), state := AbsFix, cycle := p.cycle + 1))
  {
  }

  /** `AbsFix`: the index is added with its carry. */
  lemma AbsFixCycle(p: Machine)
    requires p.state == AbsFix
    ensures Step(p) == Some(p.(addr := (p.addr + p.value) % 0x10000, state := AfterAddress(p.op), cycle := p.cycle + 1))
  {
  }

  /** `AbsFixCycle`, with the next machine named. */
  lemma AbsFixTo(p: Machine, q: Machine)
    requires p.state == AbsFix
    requires q == p.(addr := (p.addr + p.value) % 0x10000, state := AfterAddress(p.op), cycle := p.cycle + 1)
    ensures Step(p) == Some(q)
  {
    AbsFixCycle(p);
  }

  /** `Indexed1`: the zero-page operand. */
  lemma Indexed1Cycle(p: Machine)
    requires p.state == Indexed1
    ensures Step(p) == Some(p.(value := p.mem[p.pc], pc := Inc16(p.pc), state := Indexed2, cycle := p.cycle + 1))
  {
  }

  /** `Indexed2`: X is added modulo 256. */
  lemma Indexed2Cycle(p: Machine)
    requires p.state == Indexed2
    ensures Step(p) == Some(p.(value := (p.value + p.rx) % 0x100, state := Indexed3, cycle := p.cycle + 1))
  {
  }

  /** `Indexed3`: the low byte of the pointer target. */
  lemma Indexed3Cycle(p: Machine)
    requires p.state == Indexed3
    ensures Step(p) == Some(p.(addr := p.mem[p.value], state := Indexed4, cycle := p.cycle + 1))
  {
  }

  /** `Indexed4`: the high byte, from the next zero-page cell modulo 256. */
  lemma Indexed4Cycle(p: Machine)
    requires p.state == Indexed4
    ensures Step(p) == Some(p.(addr := OrHigh(p.addr, p.mem[(p.value + 1) % 0x100]), state := if p.op == STA then Execute1 else Read, cycle := p.cycle + 1))
  {
  }

  /** `IndirectIndexed1`: the zero-page pointer. */
  lemma IndirectIndexed1Cycle(p: Machine)
    requires p.state == IndirectIndexed1
    ensures Step(p) == Some(p.(value := p.mem[p.pc], pc := Inc16(p.pc), state := IndirectIndexed2, cycle := p.cycle + 1))
  {
  }

  /** `IndirectIndexed2`: the low byte of the base address. */
  lemma IndirectIndexed2Cycle(p: Machine)
    requires p.state == IndirectIndexed2
    ensures Step(p) == Some(p.(addr := p.mem[p.value], state := IndirectIndexed3, cycle := p.cycle + 1))
  {
  }

  /** `IndirectIndexed3` for a load that stays in the page: the high byte comes from the next
      zero-page cell modulo 256 and Y is added. */
  lemma IndirectIndexed3Near(p: Machine)
    requires p.state == IndirectIndexed3
    requires Lo(p.addr) + p.ry <= 0xFF && p.op != STA
    ensures Step(p) == Some(p.(addr := (OrHigh(p.addr, p.mem[(p.value + 1) % 0x100]) + p.ry) % 0x10000, state := Read, cycle := p.cycle + 1))
  {
  }

  /** `IndirectIndexed3Near` for a pointer whose low byte was read into `addr`. */
  lemma IndirectIndexed3NearByte(p: Machine, q: Machine)
    requires p.state == IndirectIndexed3 && p.addr + p.ry <= 0xFF && p.op != STA
    requires q == p.(addr := (Join(p.addr, p.mem[(p.value + 1) % 0x100]) + p.ry) % 0x10000, state := Read, cycle := p.cycle + 1)
    ensures Step(p) == Some(q)
  {
    OrHighOfByte(p.addr, p.mem[(p.value + 1) % 0x100]);
    IndirectIndexed3Near(p);
  }

  /** `IndirectIndexed3` otherwise: the base address waits for the fix-up. */
  lemma IndirectIndexed3Far(p: Machine)
    requires p.state == IndirectIndexed3
    requires Lo(p.addr) + p.ry > 0xFF || p.op == STA
    ensures Step(p) == Some(p.(addr := OrHigh(p.addr, p.mem[(p.value + 1) % 0x100]), state := IndirectIndexedFix, cycle := p.cycle + 1))
  {
  }

  /** `IndirectIndexedFix`: Y is added with its carry. */
  lemma IndirectIndexedFixCycle(p: Machine)
    requires p.state == IndirectIndexedFix
    ensures Step(p) == Some(p.(addr := (p.addr + p.ry) % 0x10000, state := Read, cycle := p.cycle + 1))
  {
  }

  /** `Indirect1` and `Indirect2`: the pointer, low byte first. */
  lemma Indirect1Cycle(p: Machine)
    requires p.state == Indirect1
    ensures Step(p) == Some(p.(addr := p.mem[p.pc], pc := Inc16(p.pc), state := Indirect2, cycle := p.cycle + 1))
  {
  }

  lemma Indirect2Cycle(p: Machine)
    requires p.state == Indirect2
    ensures Step(p) == Some(p.(addr := OrHigh(p.addr, p.mem[p.pc]), pc := Inc16(p.pc), state := Indirect3, cycle := p.cycle + 1))
  {
  }

  /** `Indirect3`: the low byte of the target. */
  lemma Indirect3Cycle(p: Machine)
    requires p.state == Indirect3
    ensures Step(p) == Some(p.(value := p.mem[p.addr], state := Indirect4, cycle := p.cycle + 1))
  {
  }

  /** `Indirect4`: the high byte of the target is read at the pointer's low byte plus one, modulo
      256, in the pointer's own page. */
  lemma Indirect4Cycle(p: Machine)
    requires p.state == Indirect4
    ensures Step(p) == Some(p.(pc := Join(p.value, p.mem[Join((p.addr + 1) % 0x100, Hi(p.addr))]), state := Fetch, cycle := p.cycle + 1))
  {
  }

  /** `RMWStall1` reads the operand, `RMWStall2` writes it back unchanged. */
  lemma RMWStall1Cycle(p: Machine)
    requires p.state == RMWStall1
    ensures Step(p) == Some(p.(value := p.mem[p.addr], state := RMWStall2, cycle := p.cycle + 1))
  {
  }

  lemma RMWStall2Cycle(p: Machine)
    requires p.state == RMWStall2
    ensures Step(p) == Some(p.(mem := p.mem[p.addr := p.value], state := Execute1, cycle := p.cycle + 1))
  {
  }

  /** `Read` of `LDA`: the operand is read and loaded in the same cycle. */
  lemma LdaRead(p: Machine)
    requires p.state == Read && p.op == LDA
    ensures Step(p) == Some(p.(value := p.mem[p.addr], ra := p.mem[p.addr], rf := WithZeroSign(p.rf, p.mem[p.addr]), state := Fetch, cycle := p.cycle + 1))
  {
  }

  /** `Execute1` of `STA`: the accumulator is written. */
  lemma StaExecute(p: Machine)
    requires p.state == Execute1 && p.op == STA
    ensures Step(p) == Some(p.(mem := p.mem[p.addr := p.ra], state := Fetch, cycle := p.cycle + 1))
  {
  }

  /** `Execute1` of `ASL`: the shifted value is written. */
  lemma AslExecute(p: Machine)
    requires p.state == Execute1 && p.op == ASL
    ensures Step(p) == Some(p.(mem := p.mem[p.addr := Asl(p.value, p.rf).result], rf := Asl(p.value, p.rf).flags, state := Fetch, cycle := p.cycle + 1))
  {
  }

  // ---------------------------------------------------------------- JSR

  /** What `JSR abs` at `m.pc` does as a whole: the address of its last
      byte, `pc + 2`, is pushed high byte first, and the program counter is
      loaded with the operand, whose high byte is read after the pushes. */
  function JsrResult(m: Machine): Machine
  {
    var ret := Inc16(Inc16(m.pc));
    var mem1 := m.mem[StackAddr(m.sp) := Hi(ret)][StackAddr(Down(m.sp)) := Lo(ret)];
    var target := Join(Operand(m), mem1[ret]);
    m.(pc := target, addr := target, op := JSR, sp := Down(Down(m.sp)), mem := mem1,
       state := Fetch, cycle := m.cycle + 6)
  }

  /** The machine `k` cycles into a `JSR` fetched at `m`. */
  function JsrAfter(m: Machine, k: nat): Machine
    requires 1 <= k <= 5
  {
    var ret := Inc16(Inc16(m.pc));
    var p := m.(op := JSR, cycle := m.cycle + k);
    if k == 1 then p.(pc := Inc16(m.pc), state := Execute1)
    else
      var q := p.(addr := Operand(m), pc := ret);
      if k == 2 then q.(state := Execute2)
      else if k == 3 then q.(state := Execute3)
      else if k == 4 then q.(mem := m.mem[StackAddr(m.sp) := Hi(ret)], sp := Down(m.sp), state := Execute4)
      else q.(mem := m.mem[StackAddr(m.sp) := Hi(ret)][StackAddr(Down(m.sp)) := Lo(ret)],
              sp := Down(Down(m.sp)), state := Execute5)
  }

  /** `Execute1` reads the low byte of the target. */
  lemma JsrExecute1(p: Machine)
    requires p.op == JSR && p.state == Execute1
    ensures Step(p) == Some(p.(addr := p.mem[p.pc], pc := Inc16(p.pc), state := Execute2, cycle := p.cycle + 1))
  {
  }

  /** `Execute2` is a dummy stack read. */
  lemma JsrExecute2(p: Machine)
    requires p.op == JSR && p.state == Execute2
    ensures Step(p) == Some(p.(state := Execute3, cycle := p.cycle + 1))
  {
  }

  /** `Execute3` and `Execute4` push the high, then the low byte of `pc`. */
  lemma JsrExecute3(p: Machine)
    requires p.op == JSR && p.state == Execute3
    ensures Step(p) == Some(Push(p, Hi(p.pc)).(state := Execute4, cycle := p.cycle + 1))
  {
  }

  lemma JsrExecute4(p: Machine)
    requires p.op == JSR && p.state == Execute4
    ensures Step(p) == Some(Push(p, Lo(p.pc)).(state := Execute5, cycle := p.cycle + 1))
  {
  }

  /** `Execute5` reads the high byte of the target and jumps. */
  lemma JsrExecute5(p: Machine)
    requires p.op == JSR && p.state == Execute5
    ensures Step(p) == Some(p.(addr := OrHigh(p.addr, p.mem[p.pc]), pc := OrHigh(p.addr, p.mem[p.pc]), state := Fetch, cycle := p.cycle + 1))
  {
  }

  lemma JsrCycle1(m: Machine)
    ensures Step(JsrAfter(m, 1)) == Some(JsrAfter(m, 2))
  {
    var p := JsrAfter(m, 1);
    assert JsrAfter(m, 2) == p.(addr := p.mem[p.pc], pc := Inc16(p.pc), state := Execute2, cycle := p.cycle + 1);
    JsrExecute1(p);
  }

  lemma JsrCycle2(m: Machine)
    ensures Step(JsrAfter(m, 2)) == Some(JsrAfter(m, 3))
  {
    var p := JsrAfter(m, 2);
    assert JsrAfter(m, 3) == p.(state := Execute3, cycle := p.cycle + 1);
    JsrExecute2(p);
  }

  lemma JsrCycle3(m: Machine)
    ensures Step(JsrAfter(m, 3)) == Some(JsrAfter(m, 4))
  {
    var p := JsrAfter(m, 3);
    PushIs(p, Hi(p.pc));
    assert JsrAfter(m, 4) == Push(p, Hi(p.pc)).(state := Execute4, cycle := p.cycle + 1);
    JsrExecute3(p);
  }

  lemma JsrCycle4(m: Machine)
    ensures Step(JsrAfter(m, 4)) == Some(JsrAfter(m, 5))
  {
    var p := JsrAfter(m, 4);
    PushIs(p, Lo(p.pc));
    assert JsrAfter(m, 5) == Push(p, Lo(p.pc)).(state := Execute5, cycle := p.cycle + 1);
    JsrExecute4(p);
  }

  lemma JsrCycle5(m: Machine)
    ensures Step(JsrAfter(m, 5)) == Some(JsrResult(m))
  {
    var p := JsrAfter(m, 5);
    OrHighOfByte(p.addr, p.mem[p.pc]);
    assert JsrResult(m) == p.(addr := OrHigh(p.addr, p.mem[p.pc]), pc := OrHigh(p.addr, p.mem[p.pc]), state := Fetch, cycle := p.cycle + 1);
    JsrExecute5(p);
  }

  lemma JsrFrom5(m: Machine)
    ensures Ends(JsrAfter(m, 5), 1, JsrResult(m))
  {
    JsrCycle5(m);
    EndsUnderLast(Step, JsrAfter(m, 5), JsrResult(m));
  }

  lemma JsrFrom4(m: Machine)
    ensures Ends(JsrAfter(m, 4), 2, JsrResult(m))
  {
    JsrFrom5(m);
    JsrCycle4(m);
    EndsUnderNext(Step, JsrAfter(m, 4), JsrAfter(m, 5), 1, JsrResult(m));
  }

  lemma JsrFrom3(m: Machine)
    ensures Ends(JsrAfter(m, 3), 3, JsrResult(m))
  {
    JsrFrom4(m);
    JsrCycle3(m);
    EndsUnderNext(Step, JsrAfter(m, 3), JsrAfter(m, 4), 2, JsrResult(m));
  }

  lemma JsrFrom2(m: Machine)
    ensures Ends(JsrAfter(m, 2), 4, JsrResult(m))
  {
    JsrFrom3(m);
    JsrCycle2(m);
    EndsUnderNext(Step, JsrAfter(m, 2), JsrAfter(m, 3), 3, JsrResult(m));
  }

  lemma JsrFrom1(m: Machine)
    ensures Ends(JsrAfter(m, 1), 5, JsrResult(m))
  {
    JsrFrom2(m);
    JsrCycle1(m);
    EndsUnderNext(Step, JsrAfter(m, 1), JsrAfter(m, 2), 4, JsrResult(m));
  }

  lemma JsrFetch(m: Machine)
    requires Ready(m) && m.mem[m.pc] == 0x20
    ensures Step(m) == Some(JsrAfter(m, 1))
  {
    FetchStep(m, Entry(JSR, Execute1));
  }

  /** `JSR` takes six cycles, fetch included, and ends as `JsrResult` says. */
  lemma JsrTiming(m: Machine)
    requires Ready(m) && m.mem[m.pc] == 0x20
    ensures Ends(m, 6, JsrResult(m))
  {
    JsrFrom1(m);
    JsrFetch(m);
    EndsUnderNext(Step, m, JsrAfter(m, 1), 6 - 1, JsrResult(m));
  }

  // ---------------------------------------------------------------- RTS

  /** What `RTS` does as a whole: two bytes are pulled, low byte first, and
      the program counter continues one past the address they form. */
  function RtsResult(m: Machine): Machine
  {
    var s1 := Up(m.sp);
    m.(op := RTS, pc := Inc16(Join(m.mem[StackAddr(s1)], m.mem[StackAddr(Up(s1))])), sp := Up(s1),
       state := Fetch, cycle := m.cycle + 6)
  }

  /** The machine `k` cycles into an `RTS` fetched at `m`. */
  function RtsAfter(m: Machine, k: nat): Machine
    requires 1 <= k <= 5
  {
    var s1 := Up(m.sp);
    var p := m.(op := RTS, cycle := m.cycle + k);
    if k == 1 then p.(pc := Inc16(m.pc), state := Execute1)
    else if k == 2 then p.(pc := Inc16(m.pc), state := Execute2)
    else if k == 3 then p.(pc := Inc16(m.pc), sp := s1, state := Execute3)
    else if k == 4 then p.(pc := m.mem[StackAddr(s1)], sp := Up(s1), state := Execute4)
    else p.(pc := Join(m.mem[StackAddr(s1)], m.mem[StackAddr(Up(s1))]), sp := Up(s1), state := Execute5)
  }

  /** `Execute1` is a dummy read. */
  lemma RtsExecute1(p: Machine)
    requires p.op == RTS && p.state == Execute1
    ensures Step(p) == Some(p.(state := Execute2, cycle := p.cycle + 1))
  {
  }

  /** `Execute2` increments the stack pointer. */
  lemma RtsExecute2(p: Machine)
    requires p.op == RTS && p.state == Execute2
    ensures Step(p) == Some(IncSp(p).(state := Execute3, cycle := p.cycle + 1))
  {
  }

  /** `Execute3` pulls the low byte and increments the stack pointer. */
  lemma RtsExecute3(p: Machine)
    requires p.op == RTS && p.state == Execute3
    ensures Step(p) == Some(IncSp(p.(pc := Top(p))).(state := Execute4, cycle := p.cycle + 1))
  {
  }

  /** `Execute4` pulls the high byte next to it. */
  lemma RtsExecute4(p: Machine)
    requires p.op == RTS && p.state == Execute4
    ensures Step(p) == Some(p.(pc := OrHigh(p.pc, Top(p)), state := Execute5, cycle := p.cycle + 1))
  {
  }

  /** `Execute5` adds one. */
  lemma RtsExecute5(p: Machine)
    requires p.op == RTS && p.state == Execute5
    ensures Step(p) == Some(p.(pc := Inc16(p.pc), state := Fetch, cycle := p.cycle + 1))
  {
  }

  lemma RtsCycle1(m: Machine)
    ensures Step(RtsAfter(m, 1)) == Some(RtsAfter(m, 2))
  {
    var p := RtsAfter(m, 1);
    assert RtsAfter(m, 2) == p.(state := Execute2, cycle := p.cycle + 1);
    RtsExecute1(p);
  }

  lemma RtsCycle2(m: Machine)
    ensures Step(RtsAfter(m, 2)) == Some(RtsAfter(m, 3))
  {
    var p := RtsAfter(m, 2);
    IncSpIs(p);
    assert RtsAfter(m, 3) == IncSp(p).(state := Execute3, cycle := p.cycle + 1);
    RtsExecute2(p);
  }

  lemma RtsCycle3(m: Machine)
    ensures Step(RtsAfter(m, 3)) == Some(RtsAfter(m, 4))
  {
    var p := RtsAfter(m, 3);
    IncSpIs(p.(pc := Top(p)));
    assert RtsAfter(m, 4) == IncSp(p.(pc := Top(p))).(state := Execute4, cycle := p.cycle + 1);
    RtsExecute3(p);
  }

  lemma RtsCycle4(m: Machine)
    ensures Step(RtsAfter(m, 4)) == Some(RtsAfter(m, 5))
  {
    var p := RtsAfter(m, 4);
    OrHighOfByte(p.pc, Top(p));
    assert RtsAfter(m, 5) == p.(pc := OrHigh(p.pc, Top(p)), state := Execute5, cycle := p.cycle + 1);
    RtsExecute4(p);
  }

  lemma RtsCycle5(m: Machine)
    ensures Step(RtsAfter(m, 5)) == Some(RtsResult(m))
  {
    var p := RtsAfter(m, 5);
    assert RtsResult(m) == p.(pc := Inc16(p.pc), state := Fetch, cycle := p.cycle + 1);
    RtsExecute5(p);
  }

  lemma RtsFrom5(m: Machine)
    ensures Ends(RtsAfter(m, 5), 1, RtsResult(m))
  {
    RtsCycle5(m);
    EndsUnderLast(Step, RtsAfter(m, 5), RtsResult(m));
  }

  lemma RtsFrom4(m: Machine)
    ensures Ends(RtsAfter(m, 4), 2, RtsResult(m))
  {
    RtsFrom5(m);
    RtsCycle4(m);
    EndsUnderNext(Step, RtsAfter(m, 4), RtsAfter(m, 5), 1, RtsResult(m));
  }

  lemma RtsFrom3(m: Machine)
    ensures Ends(RtsAfter(m, 3), 3, RtsResult(m))
  {
    RtsFrom4(m);
    RtsCycle3(m);
    EndsUnderNext(Step, RtsAfter(m, 3), RtsAfter(m, 4), 2, RtsResult(m));
  }

  lemma RtsFrom2(m: Machine)
    ensures Ends(RtsAfter(m, 2), 4, RtsResult(m))
  {
    RtsFrom3(m);
    RtsCycle2(m);
    EndsUnderNext(Step, RtsAfter(m, 2), RtsAfter(m, 3), 3, RtsResult(m));
  }

  lemma RtsFrom1(m: Machine)
    ensures Ends(RtsAfter(m, 1), 5, RtsResult(m))
  {
    RtsFrom2(m);
    RtsCycle1(m);
    EndsUnderNext(Step, RtsAfter(m, 1), RtsAfter(m, 2), 4, RtsResult(m));
  }

  lemma RtsFetch(m: Machine)
    requires Ready(m) && m.mem[m.pc] == 0x60
    ensures Step(m) == Some(RtsAfter(m, 1))
  {
    FetchStep(m, Entry(RTS, Execute1));
  }

  /** `RTS` takes six cycles, fetch included, and ends as `RtsResult` says. */
  lemma RtsTiming(m: Machine)
    requires Ready(m) && m.mem[m.pc] == 0x60
    ensures Ends(m, 6, RtsResult(m))
  {
    RtsFrom1(m);
    RtsFetch(m);
    EndsUnderNext(Step, m, RtsAfter(m, 1), 6 - 1, RtsResult(m));
  }

  /** `RTS` undoes `JSR`: it pulls exactly the two bytes `JSR` pushed, so
      the stack pointer is back where it was and execution resumes at the
      byte after the three-byte `JSR`. */
  lemma JsrThenRts(m: Machine)
    ensures RtsResult(JsrResult(m)).pc == (m.pc + 3) % 0x10000
    ensures RtsResult(JsrResult(m)).sp == m.sp
  {
    var ret := Inc16(Inc16(m.pc));
    var j := JsrResult(m);
    DownUp(m.sp);
    DownUp(Down(m.sp));
    assert Up(j.sp) == Down(m.sp) && Up(Up(j.sp)) == m.sp;
    assert StackAddr(Down(m.sp)) != StackAddr(m.sp);
    assert j.mem[StackAddr(Up(j.sp))] == Lo(ret) && j.mem[StackAddr(Up(Up(j.sp)))] == Hi(ret);
    SplitJoin(ret);
    Inc16Thrice(m.pc);
  }

  // ---------------------------------------------------------- PHA, PLA, PHP

  /** What `PHA` does: the accumulator is pushed. */
  function PhaResult(m: Machine): Machine
  {
    m.(op := PHA, pc := Inc16(m.pc), mem := m.mem[StackAddr(m.sp) := m.ra], sp := Down(m.sp),
       state := Fetch, cycle := m.cycle + 3)
  }

  function PhaAfter(m: Machine, k: nat): Machine
    requires 1 <= k <= 2
  {
    m.(op := PHA, pc := Inc16(m.pc), state := if k == 1 then Execute1 else Execute2, cycle := m.cycle + k)
  }

  /** `Execute1` of `PHA` is a dummy read, `Execute2` pushes. */
  lemma PhaExecute1(p: Machine)
    requires p.op == PHA && p.state == Execute1
    ensures Step(p) == Some(p.(state := Execute2, cycle := p.cycle + 1))
  {
  }

  lemma PhaExecute2(p: Machine)
    requires p.op == PHA && p.state == Execute2
    ensures Step(p) == Some(Push(p, p.ra).(state := Fetch, cycle := p.cycle + 1))
  {
  }

  lemma PhaCycle1(m: Machine)
    ensures Step(PhaAfter(m, 1)) == Some(PhaAfter(m, 2))
  {
    var p := PhaAfter(m, 1);
    assert PhaAfter(m, 2) == p.(state := Execute2, cycle := p.cycle + 1);
    PhaExecute1(p);
  }

  lemma PhaCycle2(m: Machine)
    ensures Step(PhaAfter(m, 2)) == Some(PhaResult(m))
  {
    var p := PhaAfter(m, 2);
    PushIs(p, p.ra);
    assert PhaResult(m) == Push(p, p.ra).(state := Fetch, cycle := p.cycle + 1);
    PhaExecute2(p);
  }

  lemma PhaFrom2(m: Machine)
    ensures Ends(PhaAfter(m, 2), 1, PhaResult(m))
  {
    PhaCycle2(m);
    EndsUnderLast(Step, PhaAfter(m, 2), PhaResult(m));
  }

  lemma PhaFrom1(m: Machine)
    ensures Ends(PhaAfter(m, 1), 2, PhaResult(m))
  {
    PhaFrom2(m);
    PhaCycle1(m);
    EndsUnderNext(Step, PhaAfter(m, 1), PhaAfter(m, 2), 1, PhaResult(m));
  }

  lemma PhaFetch(m: Machine)
    requires Ready(m) && m.mem[m.pc] == 0x48
    ensures Step(m) == Some(PhaAfter(m, 1))
  {
    FetchStep(m, Entry(PHA, Execute1));
  }

  /** `PHA` takes three cycles. */
  lemma PhaTiming(m: Machine)
    requires Ready(m) && m.mem[m.pc] == 0x48
    ensures Ends(m, 3, PhaResult(m))
  {
    PhaFrom1(m);
    PhaFetch(m);
    EndsUnderNext(Step, m, PhaAfter(m, 1), 3 - 1, PhaResult(m));
  }

  /** What `PLA` does: the stack pointer is incremented and the byte there
      loaded into the accumulator, setting zero and sign. */
  function PlaResult(m: Machine): Machine
  {
    var v := m.mem[StackAddr(Up(m.sp))];
    m.(op := PLA, pc := Inc16(m.pc), sp := Up(m.sp), ra := v, rf := WithZeroSign(m.rf, v),
       state := Fetch, cycle := m.cycle + 4)
  }

  function PlaAfter(m: Machine, k: nat): Machine
    requires 1 <= k <= 3
  {
    var p := m.(op := PLA, pc := Inc16(m.pc), cycle := m.cycle + k);
    if k == 1 then p.(state := Execute1)
    else if k == 2 then p.(state := Execute2)
    else p.(sp := Up(m.sp), state := Execute3)
  }

  /** `PLA`: a dummy read, the increment, then the pull. */
  lemma PlaExecute1(p: Machine)
    requires p.op == PLA && p.state == Execute1
    ensures Step(p) == Some(p.(state := Execute2, cycle := p.cycle + 1))
  {
  }

  lemma PlaExecute2(p: Machine)
    requires p.op == PLA && p.state == Execute2
    ensures Step(p) == Some(IncSp(p).(state := Execute3, cycle := p.cycle + 1))
  {
  }

  lemma PlaExecute3(p: Machine)
    requires p.op == PLA && p.state == Execute3
    ensures Step(p) == Some(p.(ra := Top(p), rf := WithZeroSign(p.rf, Top(p)), state := Fetch, cycle := p.cycle + 1))
  {
  }

  lemma PlaCycle1(m: Machine)
    ensures Step(PlaAfter(m, 1)) == Some(PlaAfter(m, 2))
  {
    var p := PlaAfter(m, 1);
    assert PlaAfter(m, 2) == p.(state := Execute2, cycle := p.cycle + 1);
    PlaExecute1(p);
  }

  lemma PlaCycle2(m: Machine)
    ensures Step(PlaAfter(m, 2)) == Some(PlaAfter(m, 3))
  {
    var p := PlaAfter(m, 2);
    IncSpIs(p);
    assert PlaAfter(m, 3) == IncSp(p).(state := Execute3, cycle := p.cycle + 1);
    PlaExecute2(p);
  }

  lemma PlaCycle3(m: Machine)
    ensures Step(PlaAfter(m, 3)) == Some(PlaResult(m))
  {
    var p := PlaAfter(m, 3);
    assert PlaResult(m) == p.(ra := Top(p), rf := WithZeroSign(p.rf, Top(p)), state := Fetch, cycle := p.cycle + 1);
    PlaExecute3(p);
  }

  lemma PlaFrom3(m: Machine)
    ensures Ends(PlaAfter(m, 3), 1, PlaResult(m))
  {
    PlaCycle3(m);
    EndsUnderLast(Step, PlaAfter(m, 3), PlaResult(m));
  }

  lemma PlaFrom2(m: Machine)
    ensures Ends(PlaAfter(m, 2), 2, PlaResult(m))
  {
    PlaFrom3(m);
    PlaCycle2(m);
    EndsUnderNext(Step, PlaAfter(m, 2), PlaAfter(m, 3), 1, PlaResult(m));
  }

  lemma PlaFrom1(m: Machine)
    ensures Ends(PlaAfter(m, 1), 3, PlaResult(m))
  {
    PlaFrom2(m);
    PlaCycle1(m);
    EndsUnderNext(Step, PlaAfter(m, 1), PlaAfter(m, 2), 2, PlaResult(m));
  }

  lemma PlaFetch(m: Machine)
    requires Ready(m) && m.mem[m.pc] == 0x68
    ensures Step(m) == Some(PlaAfter(m, 1))
  {
    FetchStep(m, Entry(PLA, Execute1));
  }

  /** `PLA` takes four cycles. */
  lemma PlaTiming(m: Machine)
    requires Ready(m) && m.mem[m.pc] == 0x68
    ensures Ends(m, 4, PlaResult(m))
  {
    PlaFrom1(m);
    PlaFetch(m);
    EndsUnderNext(Step, m, PlaAfter(m, 1), 4 - 1, PlaResult(m));
  }

  /** `PLA` after `PHA` restores the stack pointer and pulls back the
      accumulator; the byte went through page 1. */
  lemma PhaThenPla(m: Machine)
    ensures PlaResult(PhaResult(m)).ra == m.ra
    ensures PlaResult(PhaResult(m)).sp == m.sp
    ensures PlaResult(PhaResult(m)).rf == WithZeroSign(m.rf, m.ra)
    ensures 0x100 <= StackAddr(m.sp) <= 0x1FF
  {
    DownUp(m.sp);
  }

  /** What `PHP` does: the status is pushed with the break bit set, and the
      break flag is clear afterwards. */
  function PhpResult(m: Machine): Machine
  {
    m.(op := PHP, pc := Inc16(m.pc), mem := m.mem[StackAddr(m.sp) := StatusByte(m.rf.(breakFlag := true))],
       sp := Down(m.sp), rf := m.rf.(breakFlag := false), state := Fetch, cycle := m.cycle + 3)
  }

  function PhpAfter(m: Machine, k: nat): Machine
    requires 1 <= k <= 2
  {
    m.(op := PHP, pc := Inc16(m.pc), state := if k == 1 then Execute1 else Execute2, cycle := m.cycle + k)
  }

  lemma PhpExecute1(p: Machine)
    requires p.op == PHP && p.state == Execute1
    ensures Step(p) == Some(p.(state := Execute2, cycle := p.cycle + 1))
  {
  }

  /** `Execute2` of `PHP` sets the break flag, pushes the status, and clears the flag. */
  lemma PhpExecute2(p: Machine)
    requires p.op == PHP && p.state == Execute2
    ensures Step(p) == Some(Push(p.(rf := p.rf.(breakFlag := true)), StatusByte(p.rf.(breakFlag := true))).(rf := p.rf.(breakFlag := false), state := Fetch, cycle := p.cycle + 1))
  {
  }

  lemma PhpCycle1(m: Machine)
    ensures Step(PhpAfter(m, 1)) == Some(PhpAfter(m, 2))
  {
    var p := PhpAfter(m, 1);
    assert PhpAfter(m, 2) == p.(state := Execute2, cycle := p.cycle + 1);
    PhpExecute1(p);
  }

  lemma PhpCycle2(m: Machine)
    ensures Step(PhpAfter(m, 2)) == Some(PhpResult(m))
  {
    var p := PhpAfter(m, 2);
    PushIs(p.(rf := p.rf.(breakFlag := true)), StatusByte(p.rf.(breakFlag := true)));
    assert PhpResult(m) == Push(p.(rf := p.rf.(breakFlag := true)), StatusByte(p.rf.(breakFlag := true))).(rf := p.rf.(breakFlag := false), state := Fetch, cycle := p.cycle + 1);
    PhpExecute2(p);
  }

  lemma PhpFrom2(m: Machine)
    ensures Ends(PhpAfter(m, 2), 1, PhpResult(m))
  {
    PhpCycle2(m);
    EndsUnderLast(Step, PhpAfter(m, 2), PhpResult(m));
  }

  lemma PhpFrom1(m: Machine)
    ensures Ends(PhpAfter(m, 1), 2, PhpResult(m))
  {
    PhpFrom2(m);
    PhpCycle1(m);
    EndsUnderNext(Step, PhpAfter(m, 1), PhpAfter(m, 2), 1, PhpResult(m));
  }

  lemma PhpFetch(m: Machine)
    requires Ready(m) && m.mem[m.pc] == 0x08
    ensures Step(m) == Some(PhpAfter(m, 1))
  {
    FetchStep(m, Entry(PHP, Execute1));
  }

  /** `PHP` takes three cycles. */
  lemma PhpTiming(m: Machine)
    requires Ready(m) && m.mem[m.pc] == 0x08
    ensures Ends(m, 3, PhpResult(m))
  {
    PhpFrom1(m);
    PhpFetch(m);
    EndsUnderNext(Step, m, PhpAfter(m, 1), 3 - 1, PhpResult(m));
  }

  /** The byte `PHP` pushes is the status with bit 4 set and every other bit
      as `getStatus` had it; the break flag itself ends up clear. */
  lemma PhpPushesBreak(m: Machine)
    ensures var b := GetStatus(m.rf.(breakFlag := true));
            && PhpResult(m).mem[StackAddr(m.sp)] == b as int
            && b & 0x10 != 0
            && b & 0xEF == GetStatus(m.rf) & 0xEF
    ensures !PhpResult(m).rf.breakFlag
  {
    BreakIsBit4(m.rf, true);
  }
  /** What `PLP` does: the stack pointer is incremented and the byte there
      becomes the status. */
  function PlpResult(m: Machine): Machine
  {
    m.(op := PLP, pc := Inc16(m.pc), sp := Up(m.sp), rf := FromStatusByte(m.mem[StackAddr(Up(m.sp))]),
       state := Fetch, cycle := m.cycle + 4)
  }

  function PlpAfter(m: Machine, k: nat): Machine
    requires 1 <= k <= 3
  {
    var p := m.(op := PLP, pc := Inc16(m.pc), cycle := m.cycle + k);
    if k == 1 then p.(state := Execute1)
    else if k == 2 then p.(state := Execute2)
    else p.(sp := Up(m.sp), state := Execute3)
  }

  /** `PLP`: a dummy read, the increment, then the pull. */
  lemma PlpExecute1(p: Machine)
    requires p.op == PLP && p.state == Execute1
    ensures Step(p) == Some(p.(state := Execute2, cycle := p.cycle + 1))
  {
  }

  lemma PlpExecute2(p: Machine)
    requires p.op == PLP && p.state == Execute2
    ensures Step(p) == Some(IncSp(p).(state := Execute3, cycle := p.cycle + 1))
  {
  }

  lemma PlpExecute3(p: Machine)
    requires p.op == PLP && p.state == Execute3
    ensures Step(p) == Some(p.(rf := FromStatusByte(Top(p)), state := Fetch, cycle := p.cycle + 1))
  {
  }

  lemma PlpCycle1(m: Machine)
    ensures Step(PlpAfter(m, 1)) == Some(PlpAfter(m, 2))
  {
    var p := PlpAfter(m, 1);
    assert PlpAfter(m, 2) == p.(state := Execute2, cycle := p.cycle + 1);
    PlpExecute1(p);
  }

  lemma PlpCycle2(m: Machine)
    ensures Step(PlpAfter(m, 2)) == Some(PlpAfter(m, 3))
  {
    var p := PlpAfter(m, 2);
    IncSpIs(p);
    assert PlpAfter(m, 3) == IncSp(p).(state := Execute3, cycle := p.cycle + 1);
    PlpExecute2(p);
  }

  lemma PlpCycle3(m: Machine)
    ensures Step(PlpAfter(m, 3)) == Some(PlpResult(m))
  {
    var p := PlpAfter(m, 3);
    assert PlpResult(m) == p.(rf := FromStatusByte(Top(p)), state := Fetch, cycle := p.cycle + 1);
    PlpExecute3(p);
  }

  lemma PlpFrom3(m: Machine)
    ensures Ends(PlpAfter(m, 3), 1, PlpResult(m))
  {
    PlpCycle3(m);
    EndsUnderLast(Step, PlpAfter(m, 3), PlpResult(m));
  }

  lemma PlpFrom2(m: Machine)
    ensures Ends(PlpAfter(m, 2), 2, PlpResult(m))
  {
    PlpFrom3(m);
    PlpCycle2(m);
    EndsUnderNext(Step, PlpAfter(m, 2), PlpAfter(m, 3), 1, PlpResult(m));
  }

  lemma PlpFrom1(m: Machine)
    ensures Ends(PlpAfter(m, 1), 3, PlpResult(m))
  {
    PlpFrom2(m);
    PlpCycle1(m);
    EndsUnderNext(Step, PlpAfter(m, 1), PlpAfter(m, 2), 2, PlpResult(m));
  }

  lemma PlpFetch(m: Machine)
    requires Ready(m) && m.mem[m.pc] == 0x28
    ensures Step(m) == Some(PlpAfter(m, 1))
  {
    FetchStep(m, Entry(PLP, Execute1));
  }

  /** `PLP` takes four cycles. */
  lemma PlpTiming(m: Machine)
    requires Ready(m) && m.mem[m.pc] == 0x28
    ensures Ends(m, 4, PlpResult(m))
  {
    PlpFrom1(m);
    PlpFetch(m);
    EndsUnderNext(Step, m, PlpAfter(m, 1), 4 - 1, PlpResult(m));
  }

  /** A status byte read back as flags is the flags it was packed from. */
  lemma StatusByteRoundTrip(f: Flags)
    ensures FromStatusByte(StatusByte(f)) == f
  {
    assert (GetStatus(f) as int) as bv8 == GetStatus(f);
    UnpackPack(f);
  }

  /** `PLP` after `PHP` restores the stack pointer and pulls back the
      status byte `PHP` pushed, which has bit 4 set: with `setStatus` the
      inverse of `getStatus`, the break flag is left set and every other
      flag is restored. */
  lemma PhpThenPlp(m: Machine)
    ensures PlpResult(PhpResult(m)).sp == m.sp
    ensures PlpResult(PhpResult(m)).rf == m.rf.(breakFlag := true)
  {
    DownUp(m.sp);
    StatusByteRoundTrip(m.rf.(breakFlag := true));
  }

  // ---------------------------------------------------------------- BRK

  /** What `BRK` does: `pc + 2` is pushed high byte first, then the status
      with the break flag set (and left set), and the program counter is
      loaded from 0xFFFE/0xFFFF. */
  function BrkResult(m: Machine): Machine
  {
    BrkPushed(m).(pc := Join(m.mem[0xFFFE], m.mem[0xFFFF]), state := Fetch, cycle := m.cycle + 7)
  }

  /** The machine once `BRK` has pushed its three bytes; the vector is
      outside page 1 and so still as it was. */
  function BrkPushed(m: Machine): (r: Machine)
    ensures r.mem[0xFFFE] == m.mem[0xFFFE] && r.mem[0xFFFF] == m.mem[0xFFFF]
  {
    var ret := Inc16(Inc16(m.pc));
    var f := m.rf.(breakFlag := true);
    var s1 := Down(m.sp);
    var s2 := Down(s1);
    m.(op := BRK, rf := f, sp := Down(s2),
       mem := m.mem[StackAddr(m.sp) := Hi(ret)][StackAddr(s1) := Lo(ret)][StackAddr(s2) := StatusByte(f)])
  }

  function BrkAfter(m: Machine, k: nat): Machine
    requires 1 <= k <= 6
  {
    var ret := Inc16(Inc16(m.pc));
    var p := m.(op := BRK, cycle := m.cycle + k);
    if k == 1 then p.(pc := Inc16(m.pc), state := Execute1)
    else if k == 2 then p.(pc := ret, state := Execute2)
    else if k == 3 then p.(pc := ret, mem := m.mem[StackAddr(m.sp) := Hi(ret)], sp := Down(m.sp), state := Execute3)
    else if k == 4 then
      p.(pc := ret, mem := m.mem[StackAddr(m.sp) := Hi(ret)][StackAddr(Down(m.sp)) := Lo(ret)], sp := Down(Down(m.sp)),
         state := Execute4)
    else if k == 5 then BrkPushed(m).(pc := ret, state := Execute5, cycle := m.cycle + 5)
    else BrkPushed(m).(pc := m.mem[0xFFFE], state := Execute6, cycle := m.cycle + 6)
  }

  /** `Execute1` of `BRK` skips the padding byte. */
  lemma BrkExecute1(p: Machine)
    requires p.op == BRK && p.state == Execute1
    ensures Step(p) == Some(p.(pc := Inc16(p.pc), state := Execute2, cycle := p.cycle + 1))
  {
  }

  /** `Execute2` and `Execute3` push the high and the low byte of `pc`. */
  lemma BrkExecute2(p: Machine)
    requires p.op == BRK && p.state == Execute2
    ensures Step(p) == Some(Push(p, Hi(p.pc)).(state := Execute3, cycle := p.cycle + 1))
  {
  }

  lemma BrkExecute3(p: Machine)
    requires p.op == BRK && p.state == Execute3
    ensures Step(p) == Some(Push(p, Lo(p.pc)).(state := Execute4, cycle := p.cycle + 1))
  {
  }

  /** `Execute4` sets the break flag and pushes the status. */
  lemma BrkExecute4(p: Machine)
    requires p.op == BRK && p.state == Execute4
    ensures Step(p) == Some(Push(p.(rf := p.rf.(breakFlag := true)), StatusByte(p.rf.(breakFlag := true))).(state := Execute5, cycle := p.cycle + 1))
  {
  }

  /** `Execute5` and `Execute6` read the vector at 0xFFFE. */
  lemma BrkExecute5(p: Machine)
    requires p.op == BRK && p.state == Execute5
    ensures Step(p) == Some(p.(pc := p.mem[0xFFFE], state := Execute6, cycle := p.cycle + 1))
  {
  }

  lemma BrkExecute6(p: Machine)
    requires p.op == BRK && p.state == Execute6
    ensures Step(p) == Some(p.(pc := OrHigh(p.pc, p.mem[0xFFFF]), state := Fetch, cycle := p.cycle + 1))
  {
  }

  lemma BrkCycle1(m: Machine)
    ensures Step(BrkAfter(m, 1)) == Some(BrkAfter(m, 2))
  {
    var p := BrkAfter(m, 1);
    assert BrkAfter(m, 2) == p.(pc := Inc16(p.pc), state := Execute2, cycle := p.cycle + 1);
    BrkExecute1(p);
  }

  lemma BrkCycle2(m: Machine)
    ensures Step(BrkAfter(m, 2)) == Some(BrkAfter(m, 3))
  {
    var p := BrkAfter(m, 2);
    PushIs(p, Hi(p.pc));
    assert BrkAfter(m, 3) == Push(p, Hi(p.pc)).(state := Execute3, cycle := p.cycle + 1);
    BrkExecute2(p);
  }

  lemma BrkCycle3(m: Machine)
    ensures Step(BrkAfter(m, 3)) == Some(BrkAfter(m, 4))
  {
    var p := BrkAfter(m, 3);
    PushIs(p, Lo(p.pc));
    assert BrkAfter(m, 4) == Push(p, Lo(p.pc)).(state := Execute4, cycle := p.cycle + 1);
    BrkExecute3(p);
  }

  lemma BrkCycle4(m: Machine)
    ensures Step(BrkAfter(m, 4)) == Some(BrkAfter(m, 5))
  {
    var p := BrkAfter(m, 4);
    PushIs(p.(rf := p.rf.(breakFlag := true)), StatusByte(p.rf.(breakFlag := true)));
    assert BrkAfter(m, 5) == Push(p.(rf := p.rf.(breakFlag := true)), StatusByte(p.rf.(breakFlag := true))).(state := Execute5, cycle := p.cycle + 1);
    BrkExecute4(p);
  }

  lemma BrkCycle5(m: Machine)
    ensures Step(BrkAfter(m, 5)) == Some(BrkAfter(m, 6))
  {
    var p := BrkAfter(m, 5);
    assert BrkAfter(m, 6) == p.(pc := p.mem[0xFFFE], state := Execute6, cycle := p.cycle + 1);
    BrkExecute5(p);
  }

  lemma BrkCycle6(m: Machine)
    ensures Step(BrkAfter(m, 6)) == Some(BrkResult(m))
  {
    var p := BrkAfter(m, 6);
    OrHighOfByte(p.pc, p.mem[0xFFFF]);
    assert BrkResult(m) == p.(pc := OrHigh(p.pc, p.mem[0xFFFF]), state := Fetch, cycle := p.cycle + 1);
    BrkExecute6(p);
  }

  lemma BrkFrom6(m: Machine)
    ensures Ends(BrkAfter(m, 6), 1, BrkResult(m))
  {
    BrkCycle6(m);
    EndsUnderLast(Step, BrkAfter(m, 6), BrkResult(m));
  }

  lemma BrkFrom5(m: Machine)
    ensures Ends(BrkAfter(m, 5), 2, BrkResult(m))
  {
    BrkFrom6(m);
    BrkCycle5(m);
    EndsUnderNext(Step, BrkAfter(m, 5), BrkAfter(m, 6), 1, BrkResult(m));
  }

  lemma BrkFrom4(m: Machine)
    ensures Ends(BrkAfter(m, 4), 3, BrkResult(m))
  {
    BrkFrom5(m);
    BrkCycle4(m);
    EndsUnderNext(Step, BrkAfter(m, 4), BrkAfter(m, 5), 2, BrkResult(m));
  }

  lemma BrkFrom3(m: Machine)
    ensures Ends(BrkAfter(m, 3), 4, BrkResult(m))
  {
    BrkFrom4(m);
    BrkCycle3(m);
    EndsUnderNext(Step, BrkAfter(m, 3), BrkAfter(m, 4), 3, BrkResult(m));
  }

  lemma BrkFrom2(m: Machine)
    ensures Ends(BrkAfter(m, 2), 5, BrkResult(m))
  {
    BrkFrom3(m);
    BrkCycle2(m);
    EndsUnderNext(Step, BrkAfter(m, 2), BrkAfter(m, 3), 4, BrkResult(m));
  }

  lemma BrkFrom1(m: Machine)
    ensures Ends(BrkAfter(m, 1), 6, BrkResult(m))
  {
    BrkFrom2(m);
    BrkCycle1(m);
    EndsUnderNext(Step, BrkAfter(m, 1), BrkAfter(m, 2), 5, BrkResult(m));
  }

  lemma BrkFetch(m: Machine)
    requires Ready(m) && m.mem[m.pc] == 0x00
    ensures Step(m) == Some(BrkAfter(m, 1))
  {
    FetchStep(m, Entry(BRK, Execute1));
  }

  /** `BRK` takes seven cycles. */
  lemma BrkTiming(m: Machine)
    requires Ready(m) && m.mem[m.pc] == 0x00
    ensures Ends(m, 7, BrkResult(m))
  {
    BrkFrom1(m);
    BrkFetch(m);
    EndsUnderNext(Step, m, BrkAfter(m, 1), 7 - 1, BrkResult(m));
  }

  /** The status byte `BRK` pushes has bit 4 set, the other bits as
      `getStatus` had them. */
  lemma BrkPushesBreak(m: Machine)
    ensures var b := GetStatus(m.rf.(breakFlag := true));
            && BrkResult(m).mem[StackAddr(Down(Down(m.sp)))] == b as int
            && b & 0x10 != 0
            && b & 0xEF == GetStatus(m.rf) & 0xEF
  {
    BreakIsBit4(m.rf, true);
  }
  // ---------------------------------------------------------------- RTI

  /** What `RTI` does as a whole: three bytes are pulled, the status first,
      then the program counter low and high byte; unlike `RTS`, nothing is
      added to the address. */
  function RtiResult(m: Machine): Machine
  {
    var s1 := Up(m.sp);
    var s2 := Up(s1);
    m.(op := RTI, rf := FromStatusByte(m.mem[StackAddr(s1)]),
       pc := Join(m.mem[StackAddr(s2)], m.mem[StackAddr(Up(s2))]), sp := Up(s2),
       state := Fetch, cycle := m.cycle + 6)
  }

  /** The machine `k` cycles into an `RTI` fetched at `m`. */
  function RtiAfter(m: Machine, k: nat): Machine
    requires 1 <= k <= 5
  {
    var s1 := Up(m.sp);
    var s2 := Up(s1);
    var f := FromStatusByte(m.mem[StackAddr(s1)]);
    var p := m.(op := RTI, cycle := m.cycle + k);
    if k == 1 then p.(pc := Inc16(m.pc), state := Execute1)
    else if k == 2 then p.(pc := Inc16(m.pc), state := Execute2)
    else if k == 3 then p.(pc := Inc16(m.pc), sp := s1, state := Execute3)
    else if k == 4 then p.(pc := Inc16(m.pc), rf := f, sp := s2, state := Execute4)
    else p.(pc := m.mem[StackAddr(s2)], rf := f, sp := Up(s2), state := Execute5)
  }

  /** `Execute1` is a dummy read, `Execute2` increments the stack pointer. */
  lemma RtiExecute1(p: Machine)
    requires p.op == RTI && p.state == Execute1
    ensures Step(p) == Some(p.(state := Execute2, cycle := p.cycle + 1))
  {
  }

  lemma RtiExecute2(p: Machine)
    requires p.op == RTI && p.state == Execute2
    ensures Step(p) == Some(IncSp(p).(state := Execute3, cycle := p.cycle + 1))
  {
  }

  /** `Execute3` pulls the status and increments the stack pointer. */
  lemma RtiExecute3(p: Machine)
    requires p.op == RTI && p.state == Execute3
    ensures Step(p) == Some(IncSp(p.(rf := FromStatusByte(Top(p)))).(state := Execute4, cycle := p.cycle + 1))
  {
  }

  /** `Execute4` pulls the low byte and increments the stack pointer. */
  lemma RtiExecute4(p: Machine)
    requires p.op == RTI && p.state == Execute4
    ensures Step(p) == Some(IncSp(p.(pc := Top(p))).(state := Execute5, cycle := p.cycle + 1))
  {
  }

  /** `Execute5` pulls the high byte next to it. */
  lemma RtiExecute5(p: Machine)
    requires p.op == RTI && p.state == Execute5
    ensures Step(p) == Some(p.(pc := OrHigh(p.pc, Top(p)), state := Fetch, cycle := p.cycle + 1))
  {
  }

  lemma RtiCycle1(m: Machine)
    ensures Step(RtiAfter(m, 1)) == Some(RtiAfter(m, 2))
  {
    var p := RtiAfter(m, 1);
    assert RtiAfter(m, 2) == p.(state := Execute2, cycle := p.cycle + 1);
    RtiExecute1(p);
  }

  lemma RtiCycle2(m: Machine)
    ensures Step(RtiAfter(m, 2)) == Some(RtiAfter(m, 3))
  {
    var p := RtiAfter(m, 2);
    IncSpIs(p);
    assert RtiAfter(m, 3) == IncSp(p).(state := Execute3, cycle := p.cycle + 1);
    RtiExecute2(p);
  }

  lemma RtiCycle3(m: Machine)
    ensures Step(RtiAfter(m, 3)) == Some(RtiAfter(m, 4))
  {
    var p := RtiAfter(m, 3);
    IncSpIs(p.(rf := FromStatusByte(Top(p))));
    assert RtiAfter(m, 4) == IncSp(p.(rf := FromStatusByte(Top(p)))).(state := Execute4, cycle := p.cycle + 1);
    RtiExecute3(p);
  }

  lemma RtiCycle4(m: Machine)
    ensures Step(RtiAfter(m, 4)) == Some(RtiAfter(m, 5))
  {
    var p := RtiAfter(m, 4);
    IncSpIs(p.(pc := Top(p)));
    assert RtiAfter(m, 5) == IncSp(p.(pc := Top(p))).(state := Execute5, cycle := p.cycle + 1);
    RtiExecute4(p);
  }

  lemma RtiCycle5(m: Machine)
    ensures Step(RtiAfter(m, 5)) == Some(RtiResult(m))
  {
    var p := RtiAfter(m, 5);
    OrHighOfByte(p.pc, Top(p));
    assert RtiResult(m) == p.(pc := OrHigh(p.pc, Top(p)), state := Fetch, cycle := p.cycle + 1);
    RtiExecute5(p);
  }

  lemma RtiFrom5(m: Machine)
    ensures Ends(RtiAfter(m, 5), 1, RtiResult(m))
  {
    RtiCycle5(m);
    EndsUnderLast(Step, RtiAfter(m, 5), RtiResult(m));
  }

  lemma RtiFrom4(m: Machine)
    ensures Ends(RtiAfter(m, 4), 2, RtiResult(m))
  {
    RtiFrom5(m);
    RtiCycle4(m);
    EndsUnderNext(Step, RtiAfter(m, 4), RtiAfter(m, 5), 1, RtiResult(m));
  }

  lemma RtiFrom3(m: Machine)
    ensures Ends(RtiAfter(m, 3), 3, RtiResult(m))
  {
    RtiFrom4(m);
    RtiCycle3(m);
    EndsUnderNext(Step, RtiAfter(m, 3), RtiAfter(m, 4), 2, RtiResult(m));
  }

  lemma RtiFrom2(m: Machine)
    ensures Ends(RtiAfter(m, 2), 4, RtiResult(m))
  {
    RtiFrom3(m);
    RtiCycle2(m);
    EndsUnderNext(Step, RtiAfter(m, 2), RtiAfter(m, 3), 3, RtiResult(m));
  }

  lemma RtiFrom1(m: Machine)
    ensures Ends(RtiAfter(m, 1), 5, RtiResult(m))
  {
    RtiFrom2(m);
    RtiCycle1(m);
    EndsUnderNext(Step, RtiAfter(m, 1), RtiAfter(m, 2), 4, RtiResult(m));
  }

  lemma RtiFetch(m: Machine)
    requires Ready(m) && m.mem[m.pc] == 0x40
    ensures Step(m) == Some(RtiAfter(m, 1))
  {
    FetchStep(m, Entry(RTI, Execute1));
  }

  /** `RTI` takes six cycles, fetch included, and ends as `RtiResult` says. */
  lemma RtiTiming(m: Machine)
    requires Ready(m) && m.mem[m.pc] == 0x40
    ensures Ends(m, 6, RtiResult(m))
  {
    RtiFrom1(m);
    RtiFetch(m);
    EndsUnderNext(Step, m, RtiAfter(m, 1), 6 - 1, RtiResult(m));
  }

  /** The three stack cells a three-byte push writes are distinct, and three
      increments undo its three decrements. */
  lemma ThreePushes(s: Byte)
    ensures Up(Down(Down(Down(s)))) == Down(Down(s))
    ensures Up(Up(Down(Down(Down(s))))) == Down(s)
    ensures Up(Up(Up(Down(Down(Down(s)))))) == s
    ensures StackAddr(s) != StackAddr(Down(s)) && StackAddr(s) != StackAddr(Down(Down(s)))
    ensures StackAddr(Down(s)) != StackAddr(Down(Down(s)))
  {
    DownUp(s);
    DownUp(Down(s));
    DownUp(Down(Down(s)));
  }

  /** `RTI` run by the handler `BRK` enters returns to the address `BRK`
      pushed, two past its opcode, with the stack pointer restored and the
      status `BRK` pushed, break flag set. */
  lemma BrkThenRti(m: Machine)
    ensures RtiResult(BrkResult(m)).pc == Inc16(Inc16(m.pc))
    ensures RtiResult(BrkResult(m)).sp == m.sp
    ensures RtiResult(BrkResult(m)).rf == m.rf.(breakFlag := true)
  {
    var ret := Inc16(Inc16(m.pc));
    var b := BrkResult(m);
    ThreePushes(m.sp);
    assert b.mem[StackAddr(Up(b.sp))] == StatusByte(m.rf.(breakFlag := true));
    assert b.mem[StackAddr(Up(Up(b.sp)))] == Lo(ret);
    assert b.mem[StackAddr(Up(Up(Up(b.sp))))] == Hi(ret);
    SplitJoin(ret);
    StatusByteRoundTrip(m.rf.(breakFlag := true));
  }

  // ------------------------------------------------------------ branches

  /** The address after a two-byte branch. */
  function BranchNext(m: Machine): Word
  {
    Inc16(Inc16(m.pc))
  }

  /** Where a taken branch goes: the offset, read as signed, is added to
      the address after the branch. */
  function BranchTarget(m: Machine): Word
  {
    AddSigned(BranchNext(m), Operand(m))
  }

  /** Whether the branch fetched at `m` is taken. */
  predicate Taken(m: Machine, op: Operation)
  {
    Condition(op, m.rf) == Some(true)
  }

  /** Whether `Execute1` sees the target beyond the end of the page: the
      low byte of the address plus the signed offset exceeds 0xFF. */
  predicate CarriesOut(m: Machine)
  {
    Lo(BranchNext(m)) + Signed(Operand(m)) > 0xFF
  }

  /** How long the branch fetched at `m` takes: two cycles when it is not
      taken, three when it is, four when the addition carries out of the
      low byte. */
  function BranchCycles(m: Machine, op: Operation): (n: nat)
    ensures 2 <= n <= 4
    ensures n == 2 <==> !Taken(m, op)
  {
    if !Taken(m, op) then 2 else if CarriesOut(m) then 4 else 3
  }

  /** What a branch does as a whole. */
  function BranchResult(m: Machine, op: Operation): Machine
  {
    m.(op := op, value := Operand(m), pc := if Taken(m, op) then BranchTarget(m) else BranchNext(m),
       state := Fetch, cycle := m.cycle + BranchCycles(m, op))
  }

  function BranchAfter(m: Machine, op: Operation, k: nat): Machine
    requires 1 <= k <= 3
  {
    if k == 1 then m.(op := op, pc := Inc16(m.pc), state := State.Branch, cycle := m.cycle + 1)
    else m.(op := op, value := Operand(m), pc := BranchNext(m), state := if k == 2 then Execute1 else Execute2,
            cycle := m.cycle + k)
  }

  lemma BranchFetch(m: Machine, op: Operation)
    requires Ready(m) && Decode(m.mem[m.pc]) == Some(Entry(op, State.Branch))
    ensures Step(m) == Some(BranchAfter(m, op, 1))
  {
    FetchStep(m, Entry(op, State.Branch));
  }

  /** The `Branch` state reads the offset and decides. */
  lemma BranchDecides(p: Machine, taken: bool)
    requires p.state == State.Branch && Condition(p.op, p.rf) == Some(taken)
    ensures Step(p) == Some(p.(value := p.mem[p.pc], pc := Inc16(p.pc), state := if taken then Execute1 else Fetch, cycle := p.cycle + 1))
  {
  }

  /** `Execute1` of a taken branch: the target, unless the low byte carries. */
  lemma BranchNear(p: Machine)
    requires p.state == Execute1 && IsBranch(p.op) && Lo(p.pc) + Signed(p.value) <= 0xFF
    ensures Step(p) == Some(p.(pc := AddSigned(p.pc, p.value), state := Fetch, cycle := p.cycle + 1))
  {
  }

  lemma BranchFar(p: Machine)
    requires p.state == Execute1 && IsBranch(p.op) && Lo(p.pc) + Signed(p.value) > 0xFF
    ensures Step(p) == Some(p.(state := Execute2, cycle := p.cycle + 1))
  {
  }

  /** `Execute2`: the target, one cycle later. */
  lemma BranchFix(p: Machine)
    requires p.state == Execute2 && IsBranch(p.op)
    ensures Step(p) == Some(p.(pc := AddSigned(p.pc, p.value), state := Fetch, cycle := p.cycle + 1))
  {
  }

  lemma BranchSkips(m: Machine, op: Operation)
    requires IsBranch(op) && !Taken(m, op)
    ensures Step(BranchAfter(m, op, 1)) == Some(BranchResult(m, op))
  {
    var p := BranchAfter(m, op, 1);
    assert BranchResult(m, op) == p.(value := p.mem[p.pc], pc := Inc16(p.pc), state := if false then Execute1 else Fetch, cycle := p.cycle + 1);
    BranchDecides(p, false);
  }

  lemma BranchTakes(m: Machine, op: Operation)
    requires IsBranch(op) && Taken(m, op)
    ensures Step(BranchAfter(m, op, 1)) == Some(BranchAfter(m, op, 2))
  {
    var p := BranchAfter(m, op, 1);
    assert BranchAfter(m, op, 2) == p.(value := p.mem[p.pc], pc := Inc16(p.pc), state := if true then Execute1 else Fetch, cycle := p.cycle + 1);
    BranchDecides(p, true);
  }

  lemma BranchLands(m: Machine, op: Operation)
    requires IsBranch(op) && Taken(m, op) && !CarriesOut(m)
    ensures Step(BranchAfter(m, op, 2)) == Some(BranchResult(m, op))
  {
    var p := BranchAfter(m, op, 2);
    assert BranchResult(m, op) == p.(pc := AddSigned(p.pc, p.value), state := Fetch, cycle := p.cycle + 1);
    BranchNear(p);
  }

  lemma BranchCarries(m: Machine, op: Operation)
    requires IsBranch(op) && Taken(m, op) && CarriesOut(m)
    ensures Step(BranchAfter(m, op, 2)) == Some(BranchAfter(m, op, 3))
  {
    var p := BranchAfter(m, op, 2);
    assert BranchAfter(m, op, 3) == p.(state := Execute2, cycle := p.cycle + 1);
    BranchFar(p);
  }

  lemma BranchLandsLate(m: Machine, op: Operation)
    requires IsBranch(op) && Taken(m, op) && CarriesOut(m)
    ensures Step(BranchAfter(m, op, 3)) == Some(BranchResult(m, op))
  {
    var p := BranchAfter(m, op, 3);
    assert BranchResult(m, op) == p.(pc := AddSigned(p.pc, p.value), state := Fetch, cycle := p.cycle + 1);
    BranchFix(p);
  }

  lemma BranchFarFrom3(m: Machine, op: Operation)
    requires IsBranch(op) && Taken(m, op) && CarriesOut(m)
    ensures Ends(BranchAfter(m, op, 3), 1, BranchResult(m, op))
  {
    BranchLandsLate(m, op);
    EndsUnderLast(Step, BranchAfter(m, op, 3), BranchResult(m, op));
  }

  lemma BranchFarFrom2(m: Machine, op: Operation)
    requires IsBranch(op) && Taken(m, op) && CarriesOut(m)
    ensures Ends(BranchAfter(m, op, 2), 2, BranchResult(m, op))
  {
    BranchFarFrom3(m, op);
    BranchCarries(m, op);
    EndsUnderNext(Step, BranchAfter(m, op, 2), BranchAfter(m, op, 3), 1, BranchResult(m, op));
  }

  lemma BranchFarFrom1(m: Machine, op: Operation)
    requires IsBranch(op) && Taken(m, op) && CarriesOut(m)
    ensures Ends(BranchAfter(m, op, 1), 3, BranchResult(m, op))
  {
    BranchFarFrom2(m, op);
    BranchTakes(m, op);
    EndsUnderNext(Step, BranchAfter(m, op, 1), BranchAfter(m, op, 2), 2, BranchResult(m, op));
  }

  lemma BranchNearFrom2(m: Machine, op: Operation)
    requires IsBranch(op) && Taken(m, op) && !CarriesOut(m)
    ensures Ends(BranchAfter(m, op, 2), 1, BranchResult(m, op))
  {
    BranchLands(m, op);
    EndsUnderLast(Step, BranchAfter(m, op, 2), BranchResult(m, op));
  }

  lemma BranchNearFrom1(m: Machine, op: Operation)
    requires IsBranch(op) && Taken(m, op) && !CarriesOut(m)
    ensures Ends(BranchAfter(m, op, 1), 2, BranchResult(m, op))
  {
    BranchNearFrom2(m, op);
    BranchTakes(m, op);
    EndsUnderNext(Step, BranchAfter(m, op, 1), BranchAfter(m, op, 2), 1, BranchResult(m, op));
  }

  /** A branch takes `BranchCycles` cycles and continues at the target
      when its condition holds, after the operand otherwise. */
  lemma BranchTiming(m: Machine, op: Operation)
    requires Ready(m) && Decode(m.mem[m.pc]) == Some(Entry(op, State.Branch)) && IsBranch(op)
    ensures Ends(m, BranchCycles(m, op), BranchResult(m, op))
  {
    var n := BranchCycles(m, op);
    if !Taken(m, op) {
      BranchSkips(m, op);
      EndsUnderLast(Step, BranchAfter(m, op, 1), BranchResult(m, op));
    } else if CarriesOut(m) {
      BranchFarFrom1(m, op);
    } else {
      BranchNearFrom1(m, op);
    }
    BranchFetch(m, op);
    EndsUnderNext(Step, m, BranchAfter(m, op, 1), n - 1, BranchResult(m, op));
  }

  /** The extra cycle is charged only when the addition carries out of the
      low byte: a taken branch backwards into the previous page lands in
      another page in three cycles, where the 6502 takes four. */
  lemma BackwardCrossNotCharged(m: Machine, op: Operation)
    requires IsBranch(op) && Taken(m, op)
    requires Lo(BranchNext(m)) + Signed(Operand(m)) < 0
    ensures Hi(BranchResult(m, op).pc) != Hi(BranchNext(m))
    ensures BranchCycles(m, op) == 3
  {
    var next := BranchNext(m);
    var s := Signed(Operand(m));
    assert next == Hi(next) * 0x100 + Lo(next);
    if Hi(next) == 0 {
      assert (next + s) % 0x10000 == next + s + 0x10000;
    } else {
      assert (next + s) % 0x10000 == next + s;
      assert (Hi(next) - 1) * 0x100 <= next + s < Hi(next) * 0x100;
    }
  }

  /** A forward branch that carries out of the low byte lands in the next
      page, and that is the case charged four cycles. */
  lemma ForwardCrossCharged(m: Machine, op: Operation)
    requires IsBranch(op) && Taken(m, op) && CarriesOut(m)
    ensures Hi(BranchResult(m, op).pc) != Hi(BranchNext(m))
    ensures BranchCycles(m, op) == 4
  {
    var next := BranchNext(m);
    var s := Signed(Operand(m));
    assert next == Hi(next) * 0x100 + Lo(next);
    if Hi(next) == 0xFF {
      assert (next + s) % 0x10000 == next + s - 0x10000;
    } else {
      assert (next + s) % 0x10000 == next + s;
      assert (Hi(next) + 1) * 0x100 <= next + s < (Hi(next) + 2) * 0x100;
    }
  }

  // ------------------------------------------------------------ LDA zp,X

  /** The zero-page indexed address: operand plus X, modulo 256. */
  function ZeroXAddr(m: Machine): Byte
  {
    (Operand(m) + m.rx) % 0x100
  }

  /** What `LDA zp,X` does: the accumulator is loaded from `ZeroXAddr`. */
  function LdaZeroXResult(m: Machine): Machine
  {
    var v := m.mem[ZeroXAddr(m)];
    m.(op := LDA, pc := Inc16(Inc16(m.pc)), addr := ZeroXAddr(m), value := v, ra := v, rf := WithZeroSign(m.rf, v),
       state := Fetch, cycle := m.cycle + 4)
  }

  function LdaZeroXAfter(m: Machine, k: nat): Machine
    requires 1 <= k <= 3
  {
    var p := m.(op := LDA, cycle := m.cycle + k);
    if k == 1 then p.(pc := Inc16(m.pc), state := ZeroX)
    else if k == 2 then p.(pc := Inc16(Inc16(m.pc)), value := m.rx, state := ZeroXY)
    else p.(pc := Inc16(Inc16(m.pc)), value := m.rx, addr := ZeroXAddr(m), state := Read)
  }

  lemma LdaZeroXCycle1(m: Machine)
    ensures Step(LdaZeroXAfter(m, 1)) == Some(LdaZeroXAfter(m, 2))
  {
    var p := LdaZeroXAfter(m, 1);
    assert LdaZeroXAfter(m, 2) == p.(pc := Inc16(p.pc), value := p.rx, state := ZeroXY, cycle := p.cycle + 1);
    ZeroXCycle(p);
  }

  lemma LdaZeroXCycle2(m: Machine)
    ensures Step(LdaZeroXAfter(m, 2)) == Some(LdaZeroXAfter(m, 3))
  {
    var p := LdaZeroXAfter(m, 2);
    Dec16Inc16(Inc16(m.pc));
    assert LdaZeroXAfter(m, 3) == p.(addr := (p.mem[Dec16(p.pc)] + p.value) % 0x100, state := AfterAddress(p.op), cycle := p.cycle + 1);
    ZeroXYCycle(p);
  }

  lemma LdaZeroXCycle3(m: Machine)
    ensures Step(LdaZeroXAfter(m, 3)) == Some(LdaZeroXResult(m))
  {
    var p := LdaZeroXAfter(m, 3);
    assert LdaZeroXResult(m) == p.(value := p.mem[p.addr], ra := p.mem[p.addr], rf := WithZeroSign(p.rf, p.mem[p.addr]), state := Fetch, cycle := p.cycle + 1);
    LdaRead(p);
  }

  lemma LdaZeroXFrom3(m: Machine)
    ensures Ends(LdaZeroXAfter(m, 3), 1, LdaZeroXResult(m))
  {
    LdaZeroXCycle3(m);
    EndsUnderLast(Step, LdaZeroXAfter(m, 3), LdaZeroXResult(m));
  }

  lemma LdaZeroXFrom2(m: Machine)
    ensures Ends(LdaZeroXAfter(m, 2), 2, LdaZeroXResult(m))
  {
    LdaZeroXFrom3(m);
    LdaZeroXCycle2(m);
    EndsUnderNext(Step, LdaZeroXAfter(m, 2), LdaZeroXAfter(m, 3), 1, LdaZeroXResult(m));
  }

  lemma LdaZeroXFrom1(m: Machine)
    ensures Ends(LdaZeroXAfter(m, 1), 3, LdaZeroXResult(m))
  {
    LdaZeroXFrom2(m);
    LdaZeroXCycle1(m);
    EndsUnderNext(Step, LdaZeroXAfter(m, 1), LdaZeroXAfter(m, 2), 2, LdaZeroXResult(m));
  }

  lemma LdaZeroXFetch(m: Machine)
    requires Ready(m) && m.mem[m.pc] == 0xB5
    ensures Step(m) == Some(LdaZeroXAfter(m, 1))
  {
    FetchStep(m, Entry(LDA, ZeroX));
  }

  /** `LDA zp,X` takes four cycles, and its address wraps within page zero. */
  lemma LdaZeroXTiming(m: Machine)
    requires Ready(m) && m.mem[m.pc] == 0xB5
    ensures Ends(m, 4, LdaZeroXResult(m))
  {
    LdaZeroXFrom1(m);
    LdaZeroXFetch(m);
    EndsUnderNext(Step, m, LdaZeroXAfter(m, 1), 4 - 1, LdaZeroXResult(m));
  }

  // ------------------------------------------------------------ LDA (zp,X)

  /** The pointer of `(zp,X)`: operand plus X, modulo 256. */
  function IndexedPointer(m: Machine): Byte
  {
    (Operand(m) + m.rx) % 0x100
  }

  /** The address `(zp,X)` reads the operand from: the two zero-page bytes
      at the pointer, the second one modulo 256. */
  function IndexedAddr(m: Machine): Word
  {
    var ptr := IndexedPointer(m);
    Join(m.mem[ptr], m.mem[(ptr + 1) % 0x100])
  }

  function LdaIndexedResult(m: Machine): Machine
  {
    var v := m.mem[IndexedAddr(m)];
    m.(op := LDA, pc := Inc16(Inc16(m.pc)), addr := IndexedAddr(m), value := v, ra := v, rf := WithZeroSign(m.rf, v),
       state := Fetch, cycle := m.cycle + 6)
  }

  function LdaIndexedAfter(m: Machine, k: nat): Machine
    requires 1 <= k <= 5
  {
    var p := m.(op := LDA, cycle := m.cycle + k);
    if k == 1 then p.(pc := Inc16(m.pc), state := Indexed1)
    else
      var q := p.(pc := Inc16(Inc16(m.pc)));
      if k == 2 then q.(value := Operand(m), state := Indexed2)
      else if k == 3 then q.(value := IndexedPointer(m), state := Indexed3)
      else if k == 4 then q.(value := IndexedPointer(m), addr := m.mem[IndexedPointer(m)], state := Indexed4)
      else q.(value := IndexedPointer(m), addr := IndexedAddr(m), state := Read)
  }

  lemma LdaIndexedCycle1(m: Machine)
    ensures Step(LdaIndexedAfter(m, 1)) == Some(LdaIndexedAfter(m, 2))
  {
    var p := LdaIndexedAfter(m, 1);
    assert LdaIndexedAfter(m, 2) == p.(value := p.mem[p.pc], pc := Inc16(p.pc), state := Indexed2, cycle := p.cycle + 1);
    Indexed1Cycle(p);
  }

  lemma LdaIndexedCycle2(m: Machine)
    ensures Step(LdaIndexedAfter(m, 2)) == Some(LdaIndexedAfter(m, 3))
  {
    var p := LdaIndexedAfter(m, 2);
    assert LdaIndexedAfter(m, 3) == p.(value := (p.value + p.rx) % 0x100, state := Indexed3, cycle := p.cycle + 1);
    Indexed2Cycle(p);
  }

  lemma LdaIndexedCycle3(m: Machine)
    ensures Step(LdaIndexedAfter(m, 3)) == Some(LdaIndexedAfter(m, 4))
  {
    var p := LdaIndexedAfter(m, 3);
    assert LdaIndexedAfter(m, 4) == p.(addr := p.mem[p.value], state := Indexed4, cycle := p.cycle + 1);
    Indexed3Cycle(p);
  }

  lemma LdaIndexedCycle4(m: Machine)
    ensures Step(LdaIndexedAfter(m, 4)) == Some(LdaIndexedAfter(m, 5))
  {
    var p := LdaIndexedAfter(m, 4);
    OrHighOfByte(p.addr, p.mem[(p.value + 1) % 0x100]);
    assert LdaIndexedAfter(m, 5) == p.(addr := OrHigh(p.addr, p.mem[(p.value + 1) % 0x100]), state := if p.op == STA then Execute1 else Read, cycle := p.cycle + 1);
    Indexed4Cycle(p);
  }

  lemma LdaIndexedCycle5(m: Machine)
    ensures Step(LdaIndexedAfter(m, 5)) == Some(LdaIndexedResult(m))
  {
    var p := LdaIndexedAfter(m, 5);
    assert LdaIndexedResult(m) == p.(value := p.mem[p.addr], ra := p.mem[p.addr], rf := WithZeroSign(p.rf, p.mem[p.addr]), state := Fetch, cycle := p.cycle + 1);
    LdaRead(p);
  }

  lemma LdaIndexedFrom5(m: Machine)
    ensures Ends(LdaIndexedAfter(m, 5), 1, LdaIndexedResult(m))
  {
    LdaIndexedCycle5(m);
    EndsUnderLast(Step, LdaIndexedAfter(m, 5), LdaIndexedResult(m));
  }

  lemma LdaIndexedFrom4(m: Machine)
    ensures Ends(LdaIndexedAfter(m, 4), 2, LdaIndexedResult(m))
  {
    LdaIndexedFrom5(m);
    LdaIndexedCycle4(m);
    EndsUnderNext(Step, LdaIndexedAfter(m, 4), LdaIndexedAfter(m, 5), 1, LdaIndexedResult(m));
  }

  lemma LdaIndexedFrom3(m: Machine)
    ensures Ends(LdaIndexedAfter(m, 3), 3, LdaIndexedResult(m))
  {
    LdaIndexedFrom4(m);
    LdaIndexedCycle3(m);
    EndsUnderNext(Step, LdaIndexedAfter(m, 3), LdaIndexedAfter(m, 4), 2, LdaIndexedResult(m));
  }

  lemma LdaIndexedFrom2(m: Machine)
    ensures Ends(LdaIndexedAfter(m, 2), 4, LdaIndexedResult(m))
  {
    LdaIndexedFrom3(m);
    LdaIndexedCycle2(m);
    EndsUnderNext(Step, LdaIndexedAfter(m, 2), LdaIndexedAfter(m, 3), 3, LdaIndexedResult(m));
  }

  lemma LdaIndexedFrom1(m: Machine)
    ensures Ends(LdaIndexedAfter(m, 1), 5, LdaIndexedResult(m))
  {
    LdaIndexedFrom2(m);
    LdaIndexedCycle1(m);
    EndsUnderNext(Step, LdaIndexedAfter(m, 1), LdaIndexedAfter(m, 2), 4, LdaIndexedResult(m));
  }

  lemma LdaIndexedFetch(m: Machine)
    requires Ready(m) && m.mem[m.pc] == 0xA1
    ensures Step(m) == Some(LdaIndexedAfter(m, 1))
  {
    FetchStep(m, Entry(LDA, Indexed1));
  }

  /** `LDA (zp,X)` takes six cycles. */
  lemma LdaIndexedTiming(m: Machine)
    requires Ready(m) && m.mem[m.pc] == 0xA1
    ensures Ends(m, 6, LdaIndexedResult(m))
  {
    LdaIndexedFrom1(m);
    LdaIndexedFetch(m);
    EndsUnderNext(Step, m, LdaIndexedAfter(m, 1), 6 - 1, LdaIndexedResult(m));
  }

  /** The pointer never leaves page zero: at 0xFF its high byte is read
      from 0x00. */
  lemma IndexedPointerWraps(m: Machine)
    requires IndexedPointer(m) == 0xFF
    ensures LdaIndexedResult(m).addr == Join(m.mem[0xFF], m.mem[0x00])
  {
  }

  // ------------------------------------------------------------ LDA (zp),Y

  /** The base address of `(zp),Y`: the two zero-page bytes at the operand,
      the second one modulo 256. */
  function IndirectBase(m: Machine): Word
  {
    Join(m.mem[Operand(m)], m.mem[(Operand(m) + 1) % 0x100])
  }

  /** The effective address: base plus Y, modulo 0x10000. */
  function IndirectYAddr(m: Machine): Word
  {
    (IndirectBase(m) + m.ry) % 0x10000
  }

  /** Whether adding Y carries out of the low byte of the base. */
  predicate IndirectYCrosses(m: Machine)
  {
    m.mem[Operand(m)] + m.ry > 0xFF
  }

  function LdaIndirectYResult(m: Machine): Machine
  {
    var v := m.mem[IndirectYAddr(m)];
    m.(op := LDA, pc := Inc16(Inc16(m.pc)), addr := IndirectYAddr(m), value := v, ra := v,
       rf := WithZeroSign(m.rf, v), state := Fetch, cycle := m.cycle + if IndirectYCrosses(m) then 6 else 5)
  }

  function LdaIndirectYAfter(m: Machine, k: nat): Machine
    requires 1 <= k <= 5
  {
    var p := m.(op := LDA, cycle := m.cycle + k);
    if k == 1 then p.(pc := Inc16(m.pc), state := IndirectIndexed1)
    else
      var q := p.(pc := Inc16(Inc16(m.pc)), value := Operand(m));
      if k == 2 then q.(state := IndirectIndexed2)
      else if k == 3 then q.(addr := m.mem[Operand(m)], state := IndirectIndexed3)
      else if k == 4 && IndirectYCrosses(m) then q.(addr := IndirectBase(m), state := IndirectIndexedFix)
      else q.(addr := IndirectYAddr(m), state := Read)
  }

  lemma LdaIndirectYFetch(m: Machine)
    requires Ready(m) && m.mem[m.pc] == 0xB1
    ensures Step(m) == Some(LdaIndirectYAfter(m, 1))
  {
    FetchStep(m, Entry(LDA, IndirectIndexed1));
  }

  lemma LdaIndirectYCycle1(m: Machine)
    ensures Step(LdaIndirectYAfter(m, 1)) == Some(LdaIndirectYAfter(m, 2))
  {
    var p := LdaIndirectYAfter(m, 1);
    assert LdaIndirectYAfter(m, 2) == p.(value := p.mem[p.pc], pc := Inc16(p.pc), state := IndirectIndexed2, cycle := p.cycle + 1);
    IndirectIndexed1Cycle(p);
  }

  lemma LdaIndirectYCycle2(m: Machine)
    ensures Step(LdaIndirectYAfter(m, 2)) == Some(LdaIndirectYAfter(m, 3))
  {
    var p := LdaIndirectYAfter(m, 2);
    assert LdaIndirectYAfter(m, 3) == p.(addr := p.mem[p.value], state := IndirectIndexed3, cycle := p.cycle + 1);
    IndirectIndexed2Cycle(p);
  }

  /** Without a carry the third cycle completes the indexed address. */
  lemma LdaIndirectYNear(m: Machine)
    requires !IndirectYCrosses(m)
    ensures Step(LdaIndirectYAfter(m, 3)) == Some(LdaIndirectYAfter(m, 4))
  {
    IndirectIndexed3NearByte(LdaIndirectYAfter(m, 3), LdaIndirectYAfter(m, 4));
  }

  lemma LdaIndirectYFar(m: Machine)
    requires IndirectYCrosses(m)
    ensures Step(LdaIndirectYAfter(m, 3)) == Some(LdaIndirectYAfter(m, 4))
  {
    var p := LdaIndirectYAfter(m, 3);
    OrHighOfByte(p.addr, p.mem[(p.value + 1) % 0x100]);
    assert LdaIndirectYAfter(m, 4) == p.(addr := OrHigh(p.addr, p.mem[(p.value + 1) % 0x100]), state := IndirectIndexedFix, cycle := p.cycle + 1);
    IndirectIndexed3Far(p);
  }

  lemma LdaIndirectYFix(m: Machine)
    requires IndirectYCrosses(m)
    ensures Step(LdaIndirectYAfter(m, 4)) == Some(LdaIndirectYAfter(m, 5))
  {
    var p := LdaIndirectYAfter(m, 4);
    assert LdaIndirectYAfter(m, 5) == p.(addr := (p.addr + p.ry) % 0x10000, state := Read, cycle := p.cycle + 1);
    IndirectIndexedFixCycle(p);
  }

  lemma LdaIndirectYReadNear(m: Machine)
    requires !IndirectYCrosses(m)
    ensures Step(LdaIndirectYAfter(m, 4)) == Some(LdaIndirectYResult(m))
  {
    var p := LdaIndirectYAfter(m, 4);
    assert LdaIndirectYResult(m) == p.(value := p.mem[p.addr], ra := p.mem[p.addr], rf := WithZeroSign(p.rf, p.mem[p.addr]), state := Fetch, cycle := p.cycle + 1);
    LdaRead(p);
  }

  lemma LdaIndirectYReadFar(m: Machine)
    requires IndirectYCrosses(m)
    ensures Step(LdaIndirectYAfter(m, 5)) == Some(LdaIndirectYResult(m))
  {
    var p := LdaIndirectYAfter(m, 5);
    assert LdaIndirectYResult(m) == p.(value := p.mem[p.addr], ra := p.mem[p.addr], rf := WithZeroSign(p.rf, p.mem[p.addr]), state := Fetch, cycle := p.cycle + 1);
    LdaRead(p);
  }

  lemma LdaIndirectYNearFrom4(m: Machine)
    requires !IndirectYCrosses(m)
    ensures Ends(LdaIndirectYAfter(m, 4), 1, LdaIndirectYResult(m))
  {
    LdaIndirectYReadNear(m);
    EndsUnderLast(Step, LdaIndirectYAfter(m, 4), LdaIndirectYResult(m));
  }

  lemma LdaIndirectYNearFrom3(m: Machine)
    requires !IndirectYCrosses(m)
    ensures Ends(LdaIndirectYAfter(m, 3), 2, LdaIndirectYResult(m))
  {
    LdaIndirectYNearFrom4(m);
    LdaIndirectYNear(m);
    EndsUnderNext(Step, LdaIndirectYAfter(m, 3), LdaIndirectYAfter(m, 4), 1, LdaIndirectYResult(m));
  }

  lemma LdaIndirectYNearFrom2(m: Machine)
    requires !IndirectYCrosses(m)
    ensures Ends(LdaIndirectYAfter(m, 2), 3, LdaIndirectYResult(m))
  {
    LdaIndirectYNearFrom3(m);
    LdaIndirectYCycle2(m);
    EndsUnderNext(Step, LdaIndirectYAfter(m, 2), LdaIndirectYAfter(m, 3), 2, LdaIndirectYResult(m));
  }

  lemma LdaIndirectYNearFrom1(m: Machine)
    requires !IndirectYCrosses(m)
    ensures Ends(LdaIndirectYAfter(m, 1), 4, LdaIndirectYResult(m))
  {
    LdaIndirectYNearFrom2(m);
    LdaIndirectYCycle1(m);
    EndsUnderNext(Step, LdaIndirectYAfter(m, 1), LdaIndirectYAfter(m, 2), 3, LdaIndirectYResult(m));
  }

  lemma LdaIndirectYFarFrom5(m: Machine)
    requires IndirectYCrosses(m)
    ensures Ends(LdaIndirectYAfter(m, 5), 1, LdaIndirectYResult(m))
  {
    LdaIndirectYReadFar(m);
    EndsUnderLast(Step, LdaIndirectYAfter(m, 5), LdaIndirectYResult(m));
  }

  lemma LdaIndirectYFarFrom4(m: Machine)
    requires IndirectYCrosses(m)
    ensures Ends(LdaIndirectYAfter(m, 4), 2, LdaIndirectYResult(m))
  {
    LdaIndirectYFarFrom5(m);
    LdaIndirectYFix(m);
    EndsUnderNext(Step, LdaIndirectYAfter(m, 4), LdaIndirectYAfter(m, 5), 1, LdaIndirectYResult(m));
  }

  lemma LdaIndirectYFarFrom3(m: Machine)
    requires IndirectYCrosses(m)
    ensures Ends(LdaIndirectYAfter(m, 3), 3, LdaIndirectYResult(m))
  {
    LdaIndirectYFarFrom4(m);
    LdaIndirectYFar(m);
    EndsUnderNext(Step, LdaIndirectYAfter(m, 3), LdaIndirectYAfter(m, 4), 2, LdaIndirectYResult(m));
  }

  lemma LdaIndirectYFarFrom2(m: Machine)
    requires IndirectYCrosses(m)
    ensures Ends(LdaIndirectYAfter(m, 2), 4, LdaIndirectYResult(m))
  {
    LdaIndirectYFarFrom3(m);
    LdaIndirectYCycle2(m);
    EndsUnderNext(Step, LdaIndirectYAfter(m, 2), LdaIndirectYAfter(m, 3), 3, LdaIndirectYResult(m));
  }

  lemma LdaIndirectYFarFrom1(m: Machine)
    requires IndirectYCrosses(m)
    ensures Ends(LdaIndirectYAfter(m, 1), 5, LdaIndirectYResult(m))
  {
    LdaIndirectYFarFrom2(m);
    LdaIndirectYCycle1(m);
    EndsUnderNext(Step, LdaIndirectYAfter(m, 1), LdaIndirectYAfter(m, 2), 4, LdaIndirectYResult(m));
  }

  /** `LDA (zp),Y` takes five cycles, six when adding Y crosses a page. */
  lemma LdaIndirectYTiming(m: Machine)
    requires Ready(m) && m.mem[m.pc] == 0xB1
    ensures Ends(m, if IndirectYCrosses(m) then 6 else 5, LdaIndirectYResult(m))
  {
    var n := if IndirectYCrosses(m) then 6 else 5;
    if IndirectYCrosses(m) {
      LdaIndirectYFarFrom1(m);
    } else {
      LdaIndirectYNearFrom1(m);
    }
    LdaIndirectYFetch(m);
    EndsUnderNext(Step, m, LdaIndirectYAfter(m, 1), n - 1, LdaIndirectYResult(m));
  }

  /** The extra cycle is charged exactly when the effective address lies in
      another page than the base. */
  lemma IndirectYCrossMeansNewPage(m: Machine)
    ensures IndirectYCrosses(m) <==> Hi(IndirectYAddr(m)) != Hi(IndirectBase(m))
  {
    var b := IndirectBase(m);
    assert b == Hi(b) * 0x100 + m.mem[Operand(m)];
    if Hi(b) == 0xFF && IndirectYCrosses(m) {
      assert IndirectYAddr(m) == b + m.ry - 0x10000;
    } else {
      assert IndirectYAddr(m) == b + m.ry;
    }
  }

  // ------------------------------------------------------------ JMP (ind)

  /** Where the high byte of the `JMP (ind)` target is read: the pointer's
      low byte plus one, modulo 256, in the pointer's page. */
  function IndirectHighAddr(ptr: Word): Word
  {
    Join((ptr + 1) % 0x100, Hi(ptr))
  }

  function JmpIndirectResult(m: Machine): Machine
  {
    var ptr := Operand16(m);
    m.(op := JMP, addr := ptr, value := m.mem[ptr], pc := Join(m.mem[ptr], m.mem[IndirectHighAddr(ptr)]),
       state := Fetch, cycle := m.cycle + 5)
  }

  function JmpIndirectAfter(m: Machine, k: nat): Machine
    requires 1 <= k <= 4
  {
    var p := m.(op := JMP, cycle := m.cycle + k);
    if k == 1 then p.(pc := Inc16(m.pc), state := Indirect1)
    else if k == 2 then p.(pc := Inc16(Inc16(m.pc)), addr := Operand(m), state := Indirect2)
    else if k == 3 then p.(pc := Inc16(Inc16(Inc16(m.pc))), addr := Operand16(m), state := Indirect3)
    else p.(pc := Inc16(Inc16(Inc16(m.pc))), addr := Operand16(m), value := m.mem[Operand16(m)], state := Indirect4)
  }

  lemma JmpIndirectCycle1(m: Machine)
    ensures Step(JmpIndirectAfter(m, 1)) == Some(JmpIndirectAfter(m, 2))
  {
    var p := JmpIndirectAfter(m, 1);
    assert JmpIndirectAfter(m, 2) == p.(addr := p.mem[p.pc], pc := Inc16(p.pc), state := Indirect2, cycle := p.cycle + 1);
    Indirect1Cycle(p);
  }

  lemma JmpIndirectCycle2(m: Machine)
    ensures Step(JmpIndirectAfter(m, 2)) == Some(JmpIndirectAfter(m, 3))
  {
    var p := JmpIndirectAfter(m, 2);
    OrHighOfByte(p.addr, p.mem[p.pc]);
    assert JmpIndirectAfter(m, 3) == p.(addr := OrHigh(p.addr, p.mem[p.pc]), pc := Inc16(p.pc), state := Indirect3, cycle := p.cycle + 1);
    Indirect2Cycle(p);
  }

  lemma JmpIndirectCycle3(m: Machine)
    ensures Step(JmpIndirectAfter(m, 3)) == Some(JmpIndirectAfter(m, 4))
  {
    var p := JmpIndirectAfter(m, 3);
    assert JmpIndirectAfter(m, 4) == p.(value := p.mem[p.addr], state := Indirect4, cycle := p.cycle + 1);
    Indirect3Cycle(p);
  }

  lemma JmpIndirectCycle4(m: Machine)
    ensures Step(JmpIndirectAfter(m, 4)) == Some(JmpIndirectResult(m))
  {
    var p := JmpIndirectAfter(m, 4);
    assert JmpIndirectResult(m) == p.(pc := Join(p.value, p.mem[Join((p.addr + 1) % 0x100, Hi(p.addr))]), state := Fetch, cycle := p.cycle + 1);
    Indirect4Cycle(p);
  }

  lemma JmpIndirectFrom4(m: Machine)
    ensures Ends(JmpIndirectAfter(m, 4), 1, JmpIndirectResult(m))
  {
    JmpIndirectCycle4(m);
    EndsUnderLast(Step, JmpIndirectAfter(m, 4), JmpIndirectResult(m));
  }

  lemma JmpIndirectFrom3(m: Machine)
    ensures Ends(JmpIndirectAfter(m, 3), 2, JmpIndirectResult(m))
  {
    JmpIndirectFrom4(m);
    JmpIndirectCycle3(m);
    EndsUnderNext(Step, JmpIndirectAfter(m, 3), JmpIndirectAfter(m, 4), 1, JmpIndirectResult(m));
  }

  lemma JmpIndirectFrom2(m: Machine)
    ensures Ends(JmpIndirectAfter(m, 2), 3, JmpIndirectResult(m))
  {
    JmpIndirectFrom3(m);
    JmpIndirectCycle2(m);
    EndsUnderNext(Step, JmpIndirectAfter(m, 2), JmpIndirectAfter(m, 3), 2, JmpIndirectResult(m));
  }

  lemma JmpIndirectFrom1(m: Machine)
    ensures Ends(JmpIndirectAfter(m, 1), 4, JmpIndirectResult(m))
  {
    JmpIndirectFrom2(m);
    JmpIndirectCycle1(m);
    EndsUnderNext(Step, JmpIndirectAfter(m, 1), JmpIndirectAfter(m, 2), 3, JmpIndirectResult(m));
  }

  lemma JmpIndirectFetch(m: Machine)
    requires Ready(m) && m.mem[m.pc] == 0x6C
    ensures Step(m) == Some(JmpIndirectAfter(m, 1))
  {
    FetchStep(m, Entry(JMP, Indirect1));
  }

  /** `JMP (ind)` takes five cycles. */
  lemma JmpIndirectTiming(m: Machine)
    requires Ready(m) && m.mem[m.pc] == 0x6C
    ensures Ends(m, 5, JmpIndirectResult(m))
  {
    JmpIndirectFrom1(m);
    JmpIndirectFetch(m);
    EndsUnderNext(Step, m, JmpIndirectAfter(m, 1), 5 - 1, JmpIndirectResult(m));
  }

  /** The 6502's indirect-jump page bug, reproduced: a pointer at the end of
      a page takes the high byte of the target from the start of the same
      page, not from the next one. */
  lemma IndirectPageWrap(ptr: Word)
    requires Lo(ptr) == 0xFF
    ensures IndirectHighAddr(ptr) == ptr - 0xFF
  {
    assert ptr == Hi(ptr) * 0x100 + 0xFF;
  }

  /** Away from a page end the high byte is the next byte. */
  lemma IndirectNoWrap(ptr: Word)
    requires Lo(ptr) != 0xFF
    ensures IndirectHighAddr(ptr) == ptr + 1
  {
    assert ptr == Hi(ptr) * 0x100 + Lo(ptr);
  }

  // ------------------------------------------------------------ LDA abs,X and STA abs,X

  /** The indexed absolute address: the operand word plus X, modulo 0x10000. */
  function AbsXAddr(m: Machine): Word
  {
    (Operand16(m) + m.rx) % 0x10000
  }

  /** Whether adding X carries out of the operand's low byte. */
  predicate AbsXCrosses(m: Machine)
  {
    Operand(m) + m.rx > 0xFF
  }

  function LdaAbsXResult(m: Machine): Machine
  {
    var v := m.mem[AbsXAddr(m)];
    m.(op := LDA, pc := Inc16(Inc16(Inc16(m.pc))), addr := AbsXAddr(m), value := v, ra := v,
       rf := WithZeroSign(m.rf, v), state := Fetch, cycle := m.cycle + if AbsXCrosses(m) then 5 else 4)
  }

  /** The machine `k` cycles into `LDA abs,X` or `STA abs,X`: the two
      share their addressing cycles. */
  function AbsXAfter(m: Machine, op: Operation, k: nat): Machine
    requires 1 <= k <= 4
  {
    var p := m.(op := op, cycle := m.cycle + k);
    if k == 1 then p.(pc := Inc16(m.pc), state := AbsX)
    else if k == 2 then p.(pc := Inc16(Inc16(m.pc)), addr := Operand(m), value := m.rx, state := AbsXY)
    else
      var q := p.(pc := Inc16(Inc16(Inc16(m.pc))), value := m.rx);
      if k == 3 && (AbsXCrosses(m) || op == STA) then q.(addr := Operand16(m), state := AbsFix)
      else q.(addr := AbsXAddr(m), state := if op == STA then Execute1 else Read)
  }

  lemma LdaAbsXFetch(m: Machine)
    requires Ready(m) && m.mem[m.pc] == 0xBD
    ensures Step(m) == Some(AbsXAfter(m, LDA, 1))
  {
    FetchStep(m, Entry(LDA, AbsX));
  }

  lemma StaAbsXFetch(m: Machine)
    requires Ready(m) && m.mem[m.pc] == 0x9D
    ensures Step(m) == Some(AbsXAfter(m, STA, 1))
  {
    FetchStep(m, Entry(STA, AbsX));
  }

  lemma AbsXCycle1(m: Machine, op: Operation)
    requires op == LDA || op == STA
    ensures Step(AbsXAfter(m, op, 1)) == Some(AbsXAfter(m, op, 2))
  {
    var p := AbsXAfter(m, op, 1);
    assert AbsXAfter(m, op, 2) == p.(addr := p.mem[p.pc], pc := Inc16(p.pc), value := p.rx, state := AbsXY, cycle := p.cycle + 1);
    AbsXCycle(p);
  }

  lemma LdaAbsXNear(m: Machine)
    requires !AbsXCrosses(m)
    ensures Step(AbsXAfter(m, LDA, 2)) == Some(AbsXAfter(m, LDA, 3))
  {
    var p := AbsXAfter(m, LDA, 2);
    OrHighOfByte(p.addr, p.mem[p.pc]);
    assert AbsXAfter(m, LDA, 3) == p.(addr := (OrHigh(p.addr, p.mem[p.pc]) + p.value) % 0x10000, pc := Inc16(p.pc), state := Read, cycle := p.cycle + 1);
    AbsXYNear(p);
  }

  lemma AbsXFar(m: Machine, op: Operation)
    requires op == STA || (op == LDA && AbsXCrosses(m))
    ensures Step(AbsXAfter(m, op, 2)) == Some(AbsXAfter(m, op, 3))
  {
    var p := AbsXAfter(m, op, 2);
    OrHighOfByte(p.addr, p.mem[p.pc]);
    assert AbsXAfter(m, op, 3) == p.(addr := OrHigh(p.addr, p.mem[p.pc]), pc := Inc16(p.pc), state := AbsFix, cycle := p.cycle + 1);
    AbsXYFar(p);
  }

  /** The fix-up cycle adds X to the base kept in `addr`. */
  lemma StaAbsXFix(m: Machine)
    ensures Step(AbsXAfter(m, STA, 3)) == Some(AbsXAfter(m, STA, 4))
  {
    var p := AbsXAfter(m, STA, 3);
    var q := AbsXAfter(m, STA, 4);
    assert p.addr == Operand16(m) && p.value == m.rx && p.state == AbsFix && p.op == STA;
    assert q == p.(addr := AbsXAddr(m), state := Execute1, cycle := p.cycle + 1);
    AbsFixTo(p, q);
  }

  lemma LdaAbsXFix(m: Machine)
    requires AbsXCrosses(m)
    ensures Step(AbsXAfter(m, LDA, 3)) == Some(AbsXAfter(m, LDA, 4))
  {
    var p := AbsXAfter(m, LDA, 3);
    var q := AbsXAfter(m, LDA, 4);
    assert p.addr == Operand16(m) && p.value == m.rx && p.state == AbsFix && p.op == LDA;
    assert q == p.(addr := AbsXAddr(m), state := Read, cycle := p.cycle + 1);
    AbsFixTo(p, q);
  }

  lemma LdaAbsXReadNear(m: Machine)
    requires !AbsXCrosses(m)
    ensures Step(AbsXAfter(m, LDA, 3)) == Some(LdaAbsXResult(m))
  {
    var p := AbsXAfter(m, LDA, 3);
    assert LdaAbsXResult(m) == p.(value := p.mem[p.addr], ra := p.mem[p.addr], rf := WithZeroSign(p.rf, p.mem[p.addr]), state := Fetch, cycle := p.cycle + 1);
    LdaRead(p);
  }

  lemma LdaAbsXReadFar(m: Machine)
    requires AbsXCrosses(m)
    ensures Step(AbsXAfter(m, LDA, 4)) == Some(LdaAbsXResult(m))
  {
    var p := AbsXAfter(m, LDA, 4);
    assert LdaAbsXResult(m) == p.(value := p.mem[p.addr], ra := p.mem[p.addr], rf := WithZeroSign(p.rf, p.mem[p.addr]), state := Fetch, cycle := p.cycle + 1);
    LdaRead(p);
  }

  lemma LdaAbsXNearFrom3(m: Machine)
    requires !AbsXCrosses(m)
    ensures Ends(AbsXAfter(m, LDA, 3), 1, LdaAbsXResult(m))
  {
    LdaAbsXReadNear(m);
    EndsUnderLast(Step, AbsXAfter(m, LDA, 3), LdaAbsXResult(m));
  }

  lemma LdaAbsXNearFrom2(m: Machine)
    requires !AbsXCrosses(m)
    ensures Ends(AbsXAfter(m, LDA, 2), 2, LdaAbsXResult(m))
  {
    LdaAbsXNearFrom3(m);
    LdaAbsXNear(m);
    EndsUnderNext(Step, AbsXAfter(m, LDA, 2), AbsXAfter(m, LDA, 3), 1, LdaAbsXResult(m));
  }

  lemma LdaAbsXNearFrom1(m: Machine)
    requires !AbsXCrosses(m)
    ensures Ends(AbsXAfter(m, LDA, 1), 3, LdaAbsXResult(m))
  {
    LdaAbsXNearFrom2(m);
    AbsXCycle1(m, LDA);
    EndsUnderNext(Step, AbsXAfter(m, LDA, 1), AbsXAfter(m, LDA, 2), 2, LdaAbsXResult(m));
  }

  lemma LdaAbsXFarFrom4(m: Machine)
    requires AbsXCrosses(m)
    ensures Ends(AbsXAfter(m, LDA, 4), 1, LdaAbsXResult(m))
  {
    LdaAbsXReadFar(m);
    EndsUnderLast(Step, AbsXAfter(m, LDA, 4), LdaAbsXResult(m));
  }

  lemma LdaAbsXFarFrom3(m: Machine)
    requires AbsXCrosses(m)
    ensures Ends(AbsXAfter(m, LDA, 3), 2, LdaAbsXResult(m))
  {
    LdaAbsXFarFrom4(m);
    LdaAbsXFix(m);
    EndsUnderNext(Step, AbsXAfter(m, LDA, 3), AbsXAfter(m, LDA, 4), 1, LdaAbsXResult(m));
  }

  lemma LdaAbsXFarFrom2(m: Machine)
    requires AbsXCrosses(m)
    ensures Ends(AbsXAfter(m, LDA, 2), 3, LdaAbsXResult(m))
  {
    LdaAbsXFarFrom3(m);
    AbsXFar(m, LDA);
    EndsUnderNext(Step, AbsXAfter(m, LDA, 2), AbsXAfter(m, LDA, 3), 2, LdaAbsXResult(m));
  }

  lemma LdaAbsXFarFrom1(m: Machine)
    requires AbsXCrosses(m)
    ensures Ends(AbsXAfter(m, LDA, 1), 4, LdaAbsXResult(m))
  {
    LdaAbsXFarFrom2(m);
    AbsXCycle1(m, LDA);
    EndsUnderNext(Step, AbsXAfter(m, LDA, 1), AbsXAfter(m, LDA, 2), 3, LdaAbsXResult(m));
  }

  /** `LDA abs,X` takes four cycles, five when adding X crosses a page. */
  lemma LdaAbsXTiming(m: Machine)
    requires Ready(m) && m.mem[m.pc] == 0xBD
    ensures Ends(m, if AbsXCrosses(m) then 5 else 4, LdaAbsXResult(m))
  {
    var n := if AbsXCrosses(m) then 5 else 4;
    if AbsXCrosses(m) {
      LdaAbsXFarFrom1(m);
    } else {
      LdaAbsXNearFrom1(m);
    }
    LdaAbsXFetch(m);
    EndsUnderNext(Step, m, AbsXAfter(m, LDA, 1), n - 1, LdaAbsXResult(m));
  }

  /** What `STA abs,X` does: the accumulator is stored at `AbsXAddr`. */
  function StaAbsXResult(m: Machine): Machine
  {
    m.(op := STA, pc := Inc16(Inc16(Inc16(m.pc))), addr := AbsXAddr(m), value := m.rx,
       mem := m.mem[AbsXAddr(m) := m.ra], state := Fetch, cycle := m.cycle + 5)
  }

  lemma StaAbsXStore(m: Machine)
    ensures Step(AbsXAfter(m, STA, 4)) == Some(StaAbsXResult(m))
  {
    var p := AbsXAfter(m, STA, 4);
    assert StaAbsXResult(m) == p.(mem := p.mem[p.addr := p.ra], state := Fetch, cycle := p.cycle + 1);
    StaExecute(p);
  }

  lemma StaAbsXFrom4(m: Machine)
    ensures Ends(AbsXAfter(m, STA, 4), 1, StaAbsXResult(m))
  {
    StaAbsXStore(m);
    EndsUnderLast(Step, AbsXAfter(m, STA, 4), StaAbsXResult(m));
  }

  lemma StaAbsXFrom3(m: Machine)
    ensures Ends(AbsXAfter(m, STA, 3), 2, StaAbsXResult(m))
  {
    StaAbsXFrom4(m);
    StaAbsXFix(m);
    EndsUnderNext(Step, AbsXAfter(m, STA, 3), AbsXAfter(m, STA, 4), 1, StaAbsXResult(m));
  }

  lemma StaAbsXFrom2(m: Machine)
    ensures Ends(AbsXAfter(m, STA, 2), 3, StaAbsXResult(m))
  {
    StaAbsXFrom3(m);
    AbsXFar(m, STA);
    EndsUnderNext(Step, AbsXAfter(m, STA, 2), AbsXAfter(m, STA, 3), 2, StaAbsXResult(m));
  }

  lemma StaAbsXFrom1(m: Machine)
    ensures Ends(AbsXAfter(m, STA, 1), 4, StaAbsXResult(m))
  {
    StaAbsXFrom2(m);
    AbsXCycle1(m, STA);
    EndsUnderNext(Step, AbsXAfter(m, STA, 1), AbsXAfter(m, STA, 2), 3, StaAbsXResult(m));
  }

  /** `STA abs,X` always takes five cycles: a store takes the fix-up cycle
      whether or not the page is crossed. */
  lemma StaAbsXTiming(m: Machine)
    requires Ready(m) && m.mem[m.pc] == 0x9D
    ensures Ends(m, 5, StaAbsXResult(m))
  {
    StaAbsXFrom1(m);
    StaAbsXFetch(m);
    EndsUnderNext(Step, m, AbsXAfter(m, STA, 1), 5 - 1, StaAbsXResult(m));
  }

  /** `LDA abs,X` reads back what `STA abs,X` stored, given the same
      operand word and the same X. */
  lemma StaThenLda(m: Machine, l: Machine)
    requires l.mem == StaAbsXResult(m).mem && AbsXAddr(l) == AbsXAddr(m)
    ensures LdaAbsXResult(l).ra == m.ra
  {
  }

  // ------------------------------------------------------------ ASL abs

  function AslAbsResult(m: Machine): Machine
  {
    var a := Operand16(m);
    var o := Asl(m.mem[a], m.rf);
    m.(op := ASL, pc := Inc16(Inc16(Inc16(m.pc))), addr := a, value := m.mem[a], mem := m.mem[a := o.result],
       rf := o.flags, state := Fetch, cycle := m.cycle + 6)
  }

  function AslAbsAfter(m: Machine, k: nat): Machine
    requires 1 <= k <= 5
  {
    var p := m.(op := ASL, cycle := m.cycle + k);
    if k == 1 then p.(pc := Inc16(m.pc), state := Abs1)
    else if k == 2 then p.(pc := Inc16(Inc16(m.pc)), addr := Operand(m), state := Abs2)
    else
      var q := p.(pc := Inc16(Inc16(Inc16(m.pc))), addr := Operand16(m));
      if k == 3 then q.(state := RMWStall1)
      else if k == 4 then q.(value := m.mem[Operand16(m)], state := RMWStall2)
      else q.(value := m.mem[Operand16(m)], state := Execute1)
  }

  /** Writing back the byte just read leaves memory as it was. */
  lemma WriteBack(mem: Memory, a: Word)
    ensures mem[a := mem[a]] == mem
  {
  }

  lemma AslAbsCycle1(m: Machine)
    ensures Step(AslAbsAfter(m, 1)) == Some(AslAbsAfter(m, 2))
  {
    var p := AslAbsAfter(m, 1);
    assert AslAbsAfter(m, 2) == p.(addr := p.mem[p.pc], pc := Inc16(p.pc), state := Abs2, cycle := p.cycle + 1);
    Abs1Cycle(p);
  }

  lemma AslAbsCycle2(m: Machine)
    ensures Step(AslAbsAfter(m, 2)) == Some(AslAbsAfter(m, 3))
  {
    var p := AslAbsAfter(m, 2);
    OrHighOfByte(p.addr, p.mem[p.pc]);
    assert AslAbsAfter(m, 3) == p.(addr := OrHigh(p.addr, p.mem[p.pc]), pc := Inc16(p.pc), state := AfterAddress(p.op), cycle := p.cycle + 1);
    Abs2Cycle(p);
  }

  lemma AslAbsCycle3(m: Machine)
    ensures Step(AslAbsAfter(m, 3)) == Some(AslAbsAfter(m, 4))
  {
    var p := AslAbsAfter(m, 3);
    assert AslAbsAfter(m, 4) == p.(value := p.mem[p.addr], state := RMWStall2, cycle := p.cycle + 1);
    RMWStall1Cycle(p);
  }

  lemma AslAbsCycle4(m: Machine)
    ensures Step(AslAbsAfter(m, 4)) == Some(AslAbsAfter(m, 5))
  {
    var p := AslAbsAfter(m, 4);
    WriteBack(m.mem, Operand16(m));
    assert AslAbsAfter(m, 5) == p.(mem := p.mem[p.addr := p.value], state := Execute1, cycle := p.cycle + 1);
    RMWStall2Cycle(p);
  }

  lemma AslAbsCycle5(m: Machine)
    ensures Step(AslAbsAfter(m, 5)) == Some(AslAbsResult(m))
  {
    var p := AslAbsAfter(m, 5);
    assert AslAbsResult(m) == p.(mem := p.mem[p.addr := Asl(p.value, p.rf).result], rf := Asl(p.value, p.rf).flags, state := Fetch, cycle := p.cycle + 1);
    AslExecute(p);
  }

  lemma AslAbsFrom5(m: Machine)
    ensures Ends(AslAbsAfter(m, 5), 1, AslAbsResult(m))
  {
    AslAbsCycle5(m);
    EndsUnderLast(Step, AslAbsAfter(m, 5), AslAbsResult(m));
  }

  lemma AslAbsFrom4(m: Machine)
    ensures Ends(AslAbsAfter(m, 4), 2, AslAbsResult(m))
  {
    AslAbsFrom5(m);
    AslAbsCycle4(m);
    EndsUnderNext(Step, AslAbsAfter(m, 4), AslAbsAfter(m, 5), 1, AslAbsResult(m));
  }

  lemma AslAbsFrom3(m: Machine)
    ensures Ends(AslAbsAfter(m, 3), 3, AslAbsResult(m))
  {
    AslAbsFrom4(m);
    AslAbsCycle3(m);
    EndsUnderNext(Step, AslAbsAfter(m, 3), AslAbsAfter(m, 4), 2, AslAbsResult(m));
  }

  lemma AslAbsFrom2(m: Machine)
    ensures Ends(AslAbsAfter(m, 2), 4, AslAbsResult(m))
  {
    AslAbsFrom3(m);
    AslAbsCycle2(m);
    EndsUnderNext(Step, AslAbsAfter(m, 2), AslAbsAfter(m, 3), 3, AslAbsResult(m));
  }

  lemma AslAbsFrom1(m: Machine)
    ensures Ends(AslAbsAfter(m, 1), 5, AslAbsResult(m))
  {
    AslAbsFrom2(m);
    AslAbsCycle1(m);
    EndsUnderNext(Step, AslAbsAfter(m, 1), AslAbsAfter(m, 2), 4, AslAbsResult(m));
  }

  lemma AslAbsFetch(m: Machine)
    requires Ready(m) && m.mem[m.pc] == 0x0E
    ensures Step(m) == Some(AslAbsAfter(m, 1))
  {
    FetchStep(m, Entry(ASL, Abs1));
  }

  /** `ASL abs` takes six cycles: two for the address, a read, a write-back
      of the unchanged byte and the write of the shifted one. */
  lemma AslAbsTiming(m: Machine)
    requires Ready(m) && m.mem[m.pc] == 0x0E
    ensures Ends(m, 6, AslAbsResult(m))
  {
    AslAbsFrom1(m);
    AslAbsFetch(m);
    EndsUnderNext(Step, m, AslAbsAfter(m, 1), 6 - 1, AslAbsResult(m));
  }

  /** `ASL abs` doubles the byte in memory modulo 256, the carry taking the
      bit shifted out; nothing else in memory changes. */
  lemma AslAbsDoubles(m: Machine)
    ensures var r := AslAbsResult(m);
            && 2 * (m.mem[Operand16(m)] as int) == (if r.rf.carry then 0x100 else 0) + (r.mem[Operand16(m)] as int)
            && forall a :: 0 <= a < 0x10000 && a != Operand16(m) ==> r.mem[a] == m.mem[a]
  {
  }

  // ------------------------------------------------------------ NMI and IRQ

  /** The vector an interrupt jumps through: 0xFFFA for NMI, 0xFFFE for IRQ. */
  function Vector(op: Operation): Word
  {
    if op == NMI then 0xFFFA else 0xFFFE
  }

  /** What the `INT` sequence does: `pc` is pushed high byte first, then the
      status with the break flag clear. `Execute4` falls through to the
      end: the low byte of the vector is loaded and then overwritten, so the
      program counter is the high byte of the vector times 256. An IRQ sets
      the interrupt-disable flag, an NMI is acknowledged. */
  function InterruptResult(m: Machine, op: Operation): Machine
  {
    var f := m.rf.(breakFlag := false);
    var s1 := Down(m.sp);
    var s2 := Down(s1);
    m.(op := op, rf := if op == IRQ then f.(irqDisable := true) else f, sp := Down(s2),
       mem := m.mem[StackAddr(m.sp) := Hi(m.pc)][StackAddr(s1) := Lo(m.pc)][StackAddr(s2) := StatusByte(f)],
       nmi := if op == NMI then false else m.nmi, pc := Join(0, m.mem[Vector(op) + 1]),
       state := Fetch, cycle := m.cycle + 5)
  }

  function InterruptAfter(m: Machine, op: Operation, k: nat): Machine
    requires 1 <= k <= 4
  {
    var p := m.(op := op, cycle := m.cycle + k);
    if k == 1 then p.(state := Execute1)
    else if k == 2 then p.(state := Execute2)
    else if k == 3 then p.(mem := m.mem[StackAddr(m.sp) := Hi(m.pc)], sp := Down(m.sp), state := Execute3)
    else p.(mem := m.mem[StackAddr(m.sp) := Hi(m.pc)][StackAddr(Down(m.sp)) := Lo(m.pc)], sp := Down(Down(m.sp)),
            state := Execute4)
  }

  /** A pending NMI is taken at `Fetch` before anything else. */
  lemma NmiFetch(m: Machine)
    requires m.state == Fetch && m.nmi
    ensures Step(m) == Some(InterruptAfter(m, NMI, 1))
  {
  }

  /** An IRQ is taken at `Fetch` when no NMI is pending and interrupts are
      enabled. */
  lemma IrqFetch(m: Machine)
    requires m.state == Fetch && !m.nmi && m.irq && !m.rf.irqDisable
    ensures Step(m) == Some(InterruptAfter(m, IRQ, 1))
  {
  }

  /** The end of the sequence, from the status push on. */
  lemma InterruptEnd(p: Machine)
    requires p.op == NMI || p.op == IRQ
    ensures var f := p.rf.(breakFlag := false);
            InterruptLow(Push(p.(rf := f), StatusByte(f)))
            == p.(mem := p.mem[StackAddr(p.sp) := StatusByte(f)], sp := Down(p.sp),
                  rf := if p.op == IRQ then f.(irqDisable := true) else f,
                  nmi := if p.op == NMI then false else p.nmi,
                  pc := Join(0, p.mem[Vector(p.op) + 1]), state := Fetch)
  {
    var f := p.rf.(breakFlag := false);
    PushIs(p.(rf := f), StatusByte(f));
  }

  lemma InterruptExecute1(p: Machine)
    requires (p.op == NMI || p.op == IRQ) && p.state == Execute1
    ensures Step(p) == Some(p.(state := Execute2, cycle := p.cycle + 1))
  {
  }

  /** `Execute2` and `Execute3` push the high and the low byte of `pc`. */
  lemma InterruptExecute2(p: Machine)
    requires (p.op == NMI || p.op == IRQ) && p.state == Execute2
    ensures Step(p) == Some(Push(p, Hi(p.pc)).(state := Execute3, cycle := p.cycle + 1))
  {
  }

  lemma InterruptExecute3(p: Machine)
    requires (p.op == NMI || p.op == IRQ) && p.state == Execute3
    ensures Step(p) == Some(Push(p, Lo(p.pc)).(state := Execute4, cycle := p.cycle + 1))
  {
  }

  /** `Execute4` pushes the status with the break flag clear and runs the rest of the sequence. */
  lemma InterruptExecute4(p: Machine)
    requires (p.op == NMI || p.op == IRQ) && p.state == Execute4
    ensures Step(p) == Some(InterruptLow(Push(p.(rf := p.rf.(breakFlag := false)), StatusByte(p.rf.(breakFlag := false)))).(cycle := p.cycle + 1))
  {
  }

  lemma InterruptCycle1(m: Machine, op: Operation)
    requires op == NMI || op == IRQ
    ensures Step(InterruptAfter(m, op, 1)) == Some(InterruptAfter(m, op, 2))
  {
    var p := InterruptAfter(m, op, 1);
    assert InterruptAfter(m, op, 2) == p.(state := Execute2, cycle := p.cycle + 1);
    InterruptExecute1(p);
  }

  lemma InterruptCycle2(m: Machine, op: Operation)
    requires op == NMI || op == IRQ
    ensures Step(InterruptAfter(m, op, 2)) == Some(InterruptAfter(m, op, 3))
  {
    var p := InterruptAfter(m, op, 2);
    PushIs(p, Hi(p.pc));
    assert InterruptAfter(m, op, 3) == Push(p, Hi(p.pc)).(state := Execute3, cycle := p.cycle + 1);
    InterruptExecute2(p);
  }

  lemma InterruptCycle3(m: Machine, op: Operation)
    requires op == NMI || op == IRQ
    ensures Step(InterruptAfter(m, op, 3)) == Some(InterruptAfter(m, op, 4))
  {
    var p := InterruptAfter(m, op, 3);
    PushIs(p, Lo(p.pc));
    assert InterruptAfter(m, op, 4) == Push(p, Lo(p.pc)).(state := Execute4, cycle := p.cycle + 1);
    InterruptExecute3(p);
  }

  lemma InterruptCycle4(m: Machine, op: Operation)
    requires op == NMI || op == IRQ
    ensures Step(InterruptAfter(m, op, 4)) == Some(InterruptResult(m, op))
  {
    var p := InterruptAfter(m, op, 4);
    InterruptEnd(p);
    assert InterruptResult(m, op) == InterruptLow(Push(p.(rf := p.rf.(breakFlag := false)), StatusByte(p.rf.(breakFlag := false)))).(cycle := p.cycle + 1);
    InterruptExecute4(p);
  }

  lemma InterruptFrom4(m: Machine, op: Operation)
    requires op == NMI || op == IRQ
    ensures Ends(InterruptAfter(m, op, 4), 1, InterruptResult(m, op))
  {
    InterruptCycle4(m, op);
    EndsUnderLast(Step, InterruptAfter(m, op, 4), InterruptResult(m, op));
  }

  lemma InterruptFrom3(m: Machine, op: Operation)
    requires op == NMI || op == IRQ
    ensures Ends(InterruptAfter(m, op, 3), 2, InterruptResult(m, op))
  {
    InterruptFrom4(m, op);
    InterruptCycle3(m, op);
    EndsUnderNext(Step, InterruptAfter(m, op, 3), InterruptAfter(m, op, 4), 1, InterruptResult(m, op));
  }

  lemma InterruptFrom2(m: Machine, op: Operation)
    requires op == NMI || op == IRQ
    ensures Ends(InterruptAfter(m, op, 2), 3, InterruptResult(m, op))
  {
    InterruptFrom3(m, op);
    InterruptCycle2(m, op);
    EndsUnderNext(Step, InterruptAfter(m, op, 2), InterruptAfter(m, op, 3), 2, InterruptResult(m, op));
  }

  lemma InterruptFrom1(m: Machine, op: Operation)
    requires op == NMI || op == IRQ
    ensures Ends(InterruptAfter(m, op, 1), 4, InterruptResult(m, op))
  {
    InterruptFrom2(m, op);
    InterruptCycle1(m, op);
    EndsUnderNext(Step, InterruptAfter(m, op, 1), InterruptAfter(m, op, 2), 3, InterruptResult(m, op));
  }

  /** An NMI takes five cycles from the `Fetch` that notices it. */
  lemma NmiTiming(m: Machine)
    requires m.state == Fetch && m.nmi
    ensures Ends(m, 5, InterruptResult(m, NMI))
  {
    InterruptFrom1(m, NMI);
    NmiFetch(m);
    EndsUnderNext(Step, m, InterruptAfter(m, NMI, 1), 4, InterruptResult(m, NMI));
  }

  /** So does an IRQ. */
  lemma IrqTiming(m: Machine)
    requires m.state == Fetch && !m.nmi && m.irq && !m.rf.irqDisable
    ensures Ends(m, 5, InterruptResult(m, IRQ))
  {
    InterruptFrom1(m, IRQ);
    IrqFetch(m);
    EndsUnderNext(Step, m, InterruptAfter(m, IRQ, 1), 4, InterruptResult(m, IRQ));
  }

  /** The interrupt sequence drops the low byte of its vector: the handler
      entered is always at a page start, and it is the one the vector names
      only when the vector's low byte is zero. */
  lemma InterruptDropsLowByte(m: Machine, op: Operation)
    ensures Lo(InterruptResult(m, op).pc) == 0
    ensures InterruptResult(m, op).pc == Join(m.mem[Vector(op)], m.mem[Vector(op) + 1]) <==> m.mem[Vector(op)] == 0
  {
  }

  /** What is left on the stack: the return address high byte first, then
      the status with bit 4 clear. */
  lemma InterruptPushesNoBreak(m: Machine, op: Operation)
    ensures var r := InterruptResult(m, op);
            && r.mem[StackAddr(m.sp)] == Hi(m.pc)
            && r.mem[StackAddr(Down(m.sp))] == Lo(m.pc)
            && r.mem[StackAddr(Down(Down(m.sp)))] == StatusByte(m.rf.(breakFlag := false))
            && GetStatus(m.rf.(breakFlag := false)) & 0x10 == 0
  {
    BreakIsBit4(m.rf, false);
  }

  /** `RTI` run by an interrupt handler resumes at the interrupted
      instruction with the stack pointer and the status as they were before
      the interrupt, except that the break flag is clear. */
  lemma InterruptThenRti(m: Machine, op: Operation)
    ensures RtiResult(InterruptResult(m, op)).pc == m.pc
    ensures RtiResult(InterruptResult(m, op)).sp == m.sp
    ensures RtiResult(InterruptResult(m, op)).rf == m.rf.(breakFlag := false)
  {
    var r := InterruptResult(m, op);
    ThreePushes(m.sp);
    assert r.mem[StackAddr(Up(r.sp))] == StatusByte(m.rf.(breakFlag := false));
    assert r.mem[StackAddr(Up(Up(r.sp)))] == Lo(m.pc);
    assert r.mem[StackAddr(Up(Up(Up(r.sp))))] == Hi(m.pc);
    SplitJoin(m.pc);
    StatusByteRoundTrip(m.rf.(breakFlag := false));
  }

  // ------------------------------------------------------------ sprite DMA

  /** A `Fetch` with sprite DMA pending and no interrupt enters `OamDma` on
      an even cycle and waits one cycle on an odd one. */
  lemma DmaStarts(m: Machine)
    requires m.state == Fetch && !m.nmi && !(m.irq && !m.rf.irqDisable) && m.dmaCycles > 0
    ensures Step(m) == Some(if m.cycle % 2 == 0 then m.(state := OamDma, cycle := m.cycle + 1)
                            else m.(cycle := m.cycle + 1))
  {
  }

  /** `doCycle` has no case for `OamDma`: it reports an invalid state and
      exits, so a DMA that starts never completes. */
  lemma DmaHalts(m: Machine)
    requires m.state == OamDma
    ensures Step(m) == None
  {
  }
}
