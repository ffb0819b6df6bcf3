/** The Rust memory map (`memory.rs`): a CPU side and a PPU side, each
    routing a 16-bit address to one of a few fixed arrays, and a `Memory`
    that serves one request on each side. */
module RustMemory {
  import opened Bytes
  import RustHeader

  /** Where a CPU address lands. */
  datatype CpuCell =
    | InternalRam(index: nat)
    | PpuRegisters
    | AudioAndIo(index: nat)
    | IoFunctionality(index: nat)
    | CartridgeSpace(index: nat)

  /** The address decoding shared by `CPU_Memory::read` and `write`. Every
      index lies inside its array, so neither can panic. */
  function CpuCellOf(addr: Word): (c: CpuCell)
    ensures c.InternalRam? <==> addr < 0x2000
    ensures c.PpuRegisters? <==> 0x2000 <= addr < 0x4000
    ensures c.AudioAndIo? <==> 0x4000 <= addr < 0x4018
    ensures c.IoFunctionality? <==> 0x4018 <= addr < 0x4020
    ensures c.CartridgeSpace? <==> 0x4020 <= addr
    ensures c.InternalRam? ==> c.index < 0x800
    ensures c.AudioAndIo? ==> c.index < 0x18
    ensures c.IoFunctionality? ==> c.index < 0x8
    ensures c.CartridgeSpace? ==> c.index < 0xBFE0
  {
    if addr <= 0x1FFF then InternalRam(addr % 0x800)
    else if addr <= 0x3FFF then PpuRegisters
    else if addr <= 0x4017 then AudioAndIo((addr - 0x4000) % 0x18)
    else if addr <= 0x401F then IoFunctionality((addr - 0x4018) % 0x8)
    else CartridgeSpace(addr - 0x4020)
  }

  /** Two CPU addresses share a cell exactly when they are equal, when both
      are internal RAM a multiple of 0x800 apart, or when both are PPU
      registers (which have no storage). */
  lemma CpuAliasing(a: Word, b: Word)
    ensures CpuCellOf(a) == CpuCellOf(b) <==>
      a == b
      || (a < 0x2000 && b < 0x2000 && a % 0x800 == b % 0x800)
      || (0x2000 <= a < 0x4000 && 0x2000 <= b < 0x4000)
  {
    if CpuCellOf(a) == CpuCellOf(b) && 0x4000 <= a {
      if a < 0x4018 {
        assert (a - 0x4000) % 0x18 == a - 0x4000 && (b - 0x4000) % 0x18 == b - 0x4000;
      } else if a < 0x4020 {
        assert (a - 0x4018) % 0x8 == a - 0x4018 && (b - 0x4018) % 0x8 == b - 0x4018;
      }
    }
  }

  /** Internal RAM is mirrored every 0x800 bytes below 0x2000. */
  lemma {:induction false} InternalRamMirrors(a: Word, k: nat)
    requires a + k * 0x800 < 0x2000
    ensures CpuCellOf(a + k * 0x800) == CpuCellOf(a)
  {
    if k > 0 {
      InternalRamMirrors(a, k - 1);
      assert (a + k * 0x800) % 0x800 == (a + (k - 1) * 0x800) % 0x800;
    }
  }

  /** Where a PPU address lands. */
  datatype PpuCell =
    | PatternTable(index: nat)
    | Nametable(index: nat)
    | PaletteRam(index: nat)
    | Invalid

  /** The address decoding shared by `PPU_Memory::read` and `write`. */
  function PpuCellOf(addr: Word): (c: PpuCell)
    ensures c.PatternTable? <==> addr < 0x2000
    ensures c.Nametable? <==> 0x2000 <= addr < 0x3F00
    ensures c.PaletteRam? <==> 0x3F00 <= addr < 0x4000
    ensures c.Invalid? <==> 0x4000 <= addr
    ensures c.PatternTable? ==> c.index == addr
    ensures c.Nametable? ==> c.index < 0x1000 && c.index == (addr - 0x2000) % 0x1000
    ensures c.PaletteRam? ==> c.index < 0x20 && c.index == (addr - 0x3F00) % 0x20
  {
    if addr <= 0x1FFF then PatternTable(addr)
    else if addr <= 0x3EFF then Nametable((addr - 0x2000) % 0x1000)
    else if addr <= 0x3FFF then PaletteRam((addr - 0x3F00) % 0x20)
    else Invalid
  }

  /** The nametable is mirrored every 0x1000 bytes, so 0x3000..0x3EFF reads
      0x2000..0x2EFF; the palette every 0x20 bytes. */
  lemma PpuMirrors(a: Word)
    ensures 0x3000 <= a < 0x3F00 ==> PpuCellOf(a) == PpuCellOf(a - 0x1000)
    ensures 0x3F20 <= a < 0x4000 ==> PpuCellOf(a) == PpuCellOf(a - 0x20)
  {
  }

  /** `Memory_Request` is not part of this model; it is taken to be a read
      of an address or a write of a byte to an address. */
  datatype Request = Read(addr: Word) | Write(addr: Word, byte: Byte)

  datatype Option<T> = None | Some(value: T)

  /** `Memory_Response`. */
  datatype Response = Response(cpuResponse: Option<Byte>, ppuResponse: Option<Byte>)

  /** `CPU_Memory`. */
  class CpuMemory {
    const internalRam: array<Byte>
    const audioAndIo: array<Byte>
    const ioFunctionality: array<Byte>
    const cartridgeSpace: array<Byte>

    predicate Valid()
      reads this
    {
      internalRam.Length == 0x800 && audioAndIo.Length == 0x18
      && ioFunctionality.Length == 0x8 && cartridgeSpace.Length == 0xBFE0
    }

    /** The byte stored in a cell; the PPU registers have none and read 0. */
    function Stored(c: CpuCell): Byte
      reads this, internalRam, audioAndIo, ioFunctionality, cartridgeSpace
      requires Valid()
      requires c.InternalRam? ==> c.index < 0x800
      requires c.AudioAndIo? ==> c.index < 0x18
      requires c.IoFunctionality? ==> c.index < 0x8
      requires c.CartridgeSpace? ==> c.index < 0xBFE0
    {
      match c
      case InternalRam(i) => internalRam[i]
      case PpuRegisters => 0
      case AudioAndIo(i) => audioAndIo[i]
      case IoFunctionality(i) => ioFunctionality[i]
      case CartridgeSpace(i) => cartridgeSpace[i]
    }

    /** `CPU_Memory::read`. */
    function Read(addr: Word): (b: Byte)
      reads this, internalRam, audioAndIo, ioFunctionality, cartridgeSpace
      requires Valid()
      ensures addr < 0x2000 ==> b == internalRam[addr % 0x800]
      ensures 0x2000 <= addr < 0x4000 ==> b == 0
      ensures 0x4000 <= addr < 0x4018 ==> b == audioAndIo[addr - 0x4000]
      ensures 0x4018 <= addr < 0x4020 ==> b == ioFunctionality[addr - 0x4018]
      ensures 0x4020 <= addr ==> b == cartridgeSpace[addr - 0x4020]
    {
      Stored(CpuCellOf(addr))
    }

    /** `CPU_Memory::new`: every array zeroed, then the program copied to
        the end of the cartridge space so that its last byte is read at
        0xFFFF. The slice bounds demand `program_size <= 0xBFE0` and a ROM
        of exactly that length. */
    constructor (programRom: seq<Byte>, programSize: nat)
      requires programSize <= 0xBFE0 && |programRom| == programSize
      ensures Valid()
      ensures fresh(internalRam) && fresh(audioAndIo) && fresh(ioFunctionality) && fresh(cartridgeSpace)
      ensures forall a: Word :: a < 0x4020 ==> Read(a) == 0
      ensures forall a: Word :: 0x4020 <= a < 0x10000 - programSize ==> Read(a) == 0
      ensures forall i :: 0 <= i < programSize ==> Read(0x10000 - programSize + i) == programRom[i]
    {
      internalRam := new Byte[0x800](_ => 0);
      audioAndIo := new Byte[0x18](_ => 0);
      ioFunctionality := new Byte[0x8](_ => 0);
      var cartridge := new Byte[0xBFE0](_ => 0);
      var start := 0xBFE0 - programSize;
      forall i | 0 <= i < programSize {
        cartridge[start + i] := programRom[i];
      }
      cartridgeSpace := cartridge;
    }

    /** `CPU_Memory::write`: stores the byte in the addressed cell; a write
        to the PPU registers is only logged. */
    method Write(addr: Word, byte: Byte)
      requires Valid()
      modifies internalRam, audioAndIo, ioFunctionality, cartridgeSpace
      ensures var c := CpuCellOf(addr);
        && internalRam[..] == (if c.InternalRam? then old(internalRam[..])[c.index := byte] else old(internalRam[..]))
        && audioAndIo[..] == (if c.AudioAndIo? then old(audioAndIo[..])[c.index := byte] else old(audioAndIo[..]))
        && ioFunctionality[..] == (if c.IoFunctionality? then old(ioFunctionality[..])[c.index := byte] else old(ioFunctionality[..]))
        && cartridgeSpace[..] == (if c.CartridgeSpace? then old(cartridgeSpace[..])[c.index := byte] else old(cartridgeSpace[..]))
      ensures forall a: Word :: Read(a) == if CpuCellOf(a) == CpuCellOf(addr) && !CpuCellOf(addr).PpuRegisters? then byte else old(Read(a))
    {
      match CpuCellOf(addr) {
        case InternalRam(i) => internalRam[i] := byte;
        case PpuRegisters =>
        case AudioAndIo(i) => audioAndIo[i] := byte;
        case IoFunctionality(i) => ioFunctionality[i] := byte;
        case CartridgeSpace(i) => cartridgeSpace[i] := byte;
      }
    }
  }

  /** `PPU_Memory`. */
  class PpuMemory {
    const patternTable: array<Byte>
    const nametable: array<Byte>
    const paletteRam: array<Byte>

    predicate Valid()
      reads this
    {
      patternTable.Length == 0x2000 && nametable.Length == 0x1000 && paletteRam.Length == 0x20
    }

    /** The byte stored in a cell; an invalid address reads 0. */
    function Stored(c: PpuCell): Byte
      reads this, patternTable, nametable, paletteRam
      requires Valid()
      requires c.PatternTable? ==> c.index < 0x2000
      requires c.Nametable? ==> c.index < 0x1000
      requires c.PaletteRam? ==> c.index < 0x20
    {
      match c
      case PatternTable(i) => patternTable[i]
      case Nametable(i) => nametable[i]
      case PaletteRam(i) => paletteRam[i]
      case Invalid => 0
    }

    /** `PPU_Memory::read`. */
    function Read(addr: Word): (b: Byte)
      reads this, patternTable, nametable, paletteRam
      requires Valid()
      ensures addr < 0x2000 ==> b == patternTable[addr]
      ensures 0x2000 <= addr < 0x3F00 ==> b == nametable[(addr - 0x2000) % 0x1000]
      ensures 0x3F00 <= addr < 0x4000 ==> b == paletteRam[(addr - 0x3F00) % 0x20]
      ensures 0x4000 <= addr ==> b == 0
    {
      Stored(PpuCellOf(addr))
    }

    /** `PPU_Memory::new`: the character ROM goes to the start of the
        pattern table. A size above 0x2000 reaches `todo!`, and the slice
        copy demands a ROM of exactly that length. */
    constructor (characterRom: seq<Byte>, characterSize: nat)
      requires characterSize <= 0x2000 && |characterRom| == characterSize
      ensures Valid()
      ensures fresh(patternTable) && fresh(nametable) && fresh(paletteRam)
      ensures forall i :: 0 <= i < characterSize ==> Read(i) == characterRom[i]
      ensures forall a: Word :: characterSize <= a ==> Read(a) == 0
    {
      var pattern := new Byte[0x2000](_ => 0);
      forall i | 0 <= i < characterSize {
        pattern[i] := characterRom[i];
      }
      patternTable := pattern;
      nametable := new Byte[0x1000](_ => 0);
      paletteRam := new Byte[0x20](_ => 0);
    }

    /** `PPU_Memory::write`: stores the byte in the addressed cell; an
        invalid address is only logged. */
    method Write(addr: Word, byte: Byte)
      requires Valid()
      modifies patternTable, nametable, paletteRam
      ensures var c := PpuCellOf(addr);
        && patternTable[..] == (if c.PatternTable? then old(patternTable[..])[c.index := byte] else old(patternTable[..]))
        && nametable[..] == (if c.Nametable? then old(nametable[..])[c.index := byte] else old(nametable[..]))
        && paletteRam[..] == (if c.PaletteRam? then old(paletteRam[..])[c.index := byte] else old(paletteRam[..]))
      ensures forall a: Word :: Read(a) == if PpuCellOf(a) == PpuCellOf(addr) && !PpuCellOf(addr).Invalid? then byte else old(Read(a))
    {
      match PpuCellOf(addr) {
        case PatternTable(i) => patternTable[i] := byte;
        case Nametable(i) => nametable[i] := byte;
        case PaletteRam(i) => paletteRam[i] := byte;
        case Invalid =>
      }
    }
  }

  /** `Memory`: one CPU side and one PPU side. */
  class Memory {
    const cpu: CpuMemory
    const ppu: PpuMemory

    predicate Valid()
      reads this, cpu, ppu
    {
      cpu.Valid() && ppu.Valid()
    }

    /** `Memory::new`: the program and character ROMs are the two slices
        after the header; each side's constructor demands what it demands. */
    constructor (head: RustHeader.Header, bytes: seq<Byte>)
      requires head.programSize + head.characterSize <= |bytes|
      requires head.programSize <= 0xBFE0 && head.characterSize <= 0x2000
      ensures Valid() && fresh(cpu) && fresh(ppu)
      ensures forall i :: 0 <= i < head.programSize ==> cpu.Read(0x10000 - head.programSize + i) == bytes[i]
      ensures forall i :: 0 <= i < head.characterSize ==> ppu.Read(i) == bytes[head.programSize + i]
    {
      cpu := new CpuMemory(bytes[..head.programSize], head.programSize);
      ppu := new PpuMemory(bytes[head.programSize..head.programSize + head.characterSize], head.characterSize);
    }

    /** `Memory::request`: the CPU request is served, then the PPU request;
        a response is present exactly for a read. The two sides share no
        array, so the PPU read sees the PPU state as it was. */
    method Request(cpuReq: Request, ppuReq: Request) returns (response: Response)
      requires Valid()
      modifies cpu.internalRam, cpu.audioAndIo, cpu.ioFunctionality, cpu.cartridgeSpace
      modifies ppu.patternTable, ppu.nametable, ppu.paletteRam
      ensures response.cpuResponse == if cpuReq.Read? then Some(old(cpu.Read(cpuReq.addr))) else None
      ensures response.ppuResponse == if ppuReq.Read? then Some(old(ppu.Read(ppuReq.addr))) else None
      ensures forall a: Word :: (cpu.Read(a) ==
                                   if cpuReq.Write? && CpuCellOf(a) == CpuCellOf(cpuReq.addr) && !CpuCellOf(a).PpuRegisters?
                                   then cpuReq.byte else old(cpu.Read(a)))
      ensures forall a: Word :: (ppu.Read(a) ==
                                   if ppuReq.Write? && PpuCellOf(a) == PpuCellOf(ppuReq.addr) && !PpuCellOf(a).Invalid?
                                   then ppuReq.byte else old(ppu.Read(a)))
    {
      response := Response(None, None);
      match cpuReq {
        case Read(addr) =>
          var b := cpu.Read(addr);
          response := response.(cpuResponse := Some(b));
        case Write(addr, byte) =>
          cpu.Write(addr, byte);
      }
      match ppuReq {
        case Read(addr) =>
          var b := ppu.Read(addr);
          response := response.(ppuResponse := Some(b));
        case Write(addr, byte) =>
          ppu.Write(addr, byte);
      }
    }
  }
}
