/** The C++ memory map (`NesMemory` in `nesMemory.cpp`): `operator[]` routes
    an index to internal RAM, the APU/IO bytes or the cartridge area, with
    mapper-0 ROM mirroring above 0x8000; `loadRom` checks the iNES header
    and copies the program ROM into the cartridge area. */
module NesMemoryMap {
  import opened Bytes
  import RustHeader

  /** Where the program ROM starts inside `cpuMemory`. */
  const RomLocation: nat := 0x3FE0

  datatype Option<T> = None | Some(value: T)

  datatype Cell = InternalRam(index: nat) | ApuIo(index: nat) | CpuMemory(index: nat)

  /** `operator[]` (the const and non-const overloads have the same body):
      the cell index `i` refers to, with `programSize` the number of 16 KB
      ROM banks. `None` is the division by zero when there is no ROM bank. */
  function Locate(i: nat, programSize: Byte): (r: Option<Cell>)
    ensures r.None? <==> 0x8000 <= i && programSize == 0
    ensures r.Some? && r.value.InternalRam? ==> r.value.index < 0x800
    ensures r.Some? && r.value.ApuIo? ==> r.value.index < 0x20
  {
    if i < 0x2000 then Some(InternalRam(i % 0x800))
    else if i < 0x4000 then Some(InternalRam(0))
    else if i < 0x4018 then Some(ApuIo(i - 0x4000))
    else if i < 0x4020 then Some(ApuIo(i - 0x4000))
    else if i < 0x8000 then Some(CpuMemory(i - 0x4020))
    else if programSize == 0 then None
    else Some(CpuMemory((i - 0x8000) % (programSize * 0x4000) + RomLocation))
  }

  /** The whole PPU register window shares internal RAM byte 0, so a write
      to 0x2000 changes what 0x0000 reads. */
  lemma PpuWindowAliasesRamZero(i: nat, programSize: Byte)
    requires 0x2000 <= i < 0x4000
    ensures Locate(i, programSize) == Locate(0, programSize)
  {
  }

  /** Internal RAM repeats every 0x800 bytes below 0x2000. */
  lemma InternalRamMirrors(i: nat, programSize: Byte)
    requires i < 0x1800
    ensures Locate(i + 0x800, programSize) == Locate(i, programSize)
  {
  }

  /** With one 16 KB bank, 0x8000 + k and 0xC000 + k are the same byte. */
  lemma SingleBankMirrors(k: nat)
    requires k < 0x4000
    ensures Locate(0x8000 + k, 1) == Locate(0xC000 + k, 1) == Some(CpuMemory(RomLocation + k))
  {
  }

  /** The RAM part of the cartridge area (0x4020..0x7FFF) ends below the
      ROM location, and every ROM index is at or above it. */
  lemma RamAndRomDisjoint(i: nat, programSize: Byte)
    requires Locate(i, programSize).Some? && Locate(i, programSize).value.CpuMemory?
    ensures i < 0x8000 <==> Locate(i, programSize).value.index < RomLocation
  {
  }

  /** Every 16-bit address lands inside the 0xBFE0-byte cartridge area as
      soon as there is a ROM bank (below 0x8000 no bank is needed). */
  lemma WordIndexInBounds(i: nat, programSize: Byte)
    requires i < 0x10000 && (i < 0x8000 || programSize > 0)
    ensures Locate(i, programSize).Some?
    ensures Locate(i, programSize).value.CpuMemory? ==> Locate(i, programSize).value.index < 0xBFE0
  {
    if 0x8000 <= i {
      ModBelow(i - 0x8000, programSize * 0x4000);
    }
  }

  /** A remainder is at most the dividend. */
  lemma ModBelow(x: nat, n: nat)
    requires n > 0
    ensures x % n <= x
  {
    if x >= n {
      assert x % n < n;
    } else {
      assert x == n * 0 + x;
    }
  }

  /** Over every index `operator[]` accepts (a `size_t`), the ROM index
      stays inside the cartridge area exactly for one or two banks: with
      none it divides by zero, and with three or more 0x10000 lands past
      the end. */
  lemma RomIndexInBoundsIff(programSize: Byte)
    ensures (forall i: nat :: 0x8000 <= i ==> Locate(i, programSize).Some? && Locate(i, programSize).value.index < 0xBFE0)
            <==> 1 <= programSize <= 2
  {
    if programSize == 0 {
      assert Locate(0x8000, programSize).None?;
    } else if programSize > 2 {
      assert Locate(0x10000, programSize).value.index == 0xBFE0;
    } else {
      forall i: nat | 0x8000 <= i
        ensures Locate(i, programSize).Some? && Locate(i, programSize).value.index < 0xBFE0
      {
        assert (i - 0x8000) % (programSize * 0x4000) < programSize * 0x4000;
      }
    }
  }

  /** The `Nametable` arrangement. */
  datatype Nametable = Vertical | Horizontal

  /** What `loadRom` ends in: the result `false`, the result `true`, or a
      read or write outside a buffer. */
  datatype LoadOutcome = Rejected | Loaded | Undefined

  const Magic: seq<Byte> := [0x4E, 0x45, 0x53, 0x1A]

  /** The mapper number as `loadRom` assembles it: the high nibble of
      flags 6 shifted down, or-ed with the high nibble of flags 7. */
  function Mapper(b6: Byte, b7: Byte): (m: Byte)
    ensures m % 0x10 == b6 / 0x10 && m / 0x10 == b7 / 0x10
  {
    b6 / 0x10 + (b7 / 0x10) * 0x10
  }

  /** The offset and length of the program ROM `loadRom` copies. */
  function RomOffset(rom: seq<Byte>): nat
    requires |rom| >= 16
  {
    16 + (if RustHeader.BitOf(rom[6], 2) then 512 else 0)
  }

  function RomLength(rom: seq<Byte>): nat
    requires |rom| >= 16
  {
    rom[4] as int * 0x4000
  }

  /** The outcome of `loadRom` on the bytes of a file. The magic is compared
      before the length is checked, so a file of fewer than four bytes is
      read past its end. */
  function CheckRom(rom: seq<Byte>): (r: LoadOutcome)
    ensures r == Loaded ==>
      && |rom| >= 16 && rom[..4] == Magic
      && !RustHeader.BitOf(rom[7], 0)
      && Mapper(rom[6], rom[7]) == 0
      && rom[4] <= 2
    ensures |rom| >= 16 && (rom[..4] != Magic || RustHeader.BitOf(rom[7], 0) || Mapper(rom[6], rom[7]) != 0) ==> r == Rejected
  {
    if |rom| < 4 then Undefined
    else if |rom| < 16 || rom[..4] != Magic then Rejected
    else if RustHeader.BitOf(rom[7], 0) then Rejected
    else if Mapper(rom[6], rom[7]) != 0 then Rejected
    else if RomLocation + RomLength(rom) > 0xBFE0 || RomOffset(rom) + RomLength(rom) > |rom| then Undefined
    else Loaded
  }

  /** The C++ and Rust readers agree on the mapper number. */
  lemma MapperAgreesWithRust(rom: seq<Byte>)
    requires |rom| >= 16
    ensures Mapper(rom[6], rom[7]) == RustHeader.ParseHeader(rom).value.mapperNumber
  {
  }

  /** The C++ and Rust readers name the arrangement of flags-6 bit 0
      oppositely: `loadRom` calls a set bit `Horizontal`, `parse_header`
      calls a clear bit `Horizontal`. */
  lemma MirroringDisagreesWithRust(rom: seq<Byte>)
    requires |rom| >= 16
    ensures var cpp := if RustHeader.BitOf(rom[6], 0) then Horizontal else Vertical;
      (cpp == Horizontal) <==> RustHeader.ParseHeader(rom).value.mirroring == RustHeader.Vertical
  {
  }

  class NesMemory {
    const internalRam: array<Byte>
    const apuIoMemory: array<Byte>
    const cpuMemory: array<Byte>
    var programSize: Byte
    var characterSize: Byte
    var mirroring: Nametable
    var persistent: bool
    var trainerPresent: bool
    var mapper: int

    predicate Valid()
      reads this
    {
      internalRam.Length == 0x800 && apuIoMemory.Length == 0x20 && cpuMemory.Length == 0xBFE0
    }

    /** `NesMemory()`: the arrays are default-initialised; the model starts
        them at zero with no ROM bank. */
    constructor ()
      ensures Valid() && fresh(internalRam) && fresh(apuIoMemory) && fresh(cpuMemory)
      ensures programSize == 0
    {
      internalRam := new Byte[0x800](_ => 0);
      apuIoMemory := new Byte[0x20](_ => 0);
      cpuMemory := new Byte[0xBFE0](_ => 0);
      programSize := 0;
    }

    /** The byte `operator[]` refers to, for a 16-bit address. */
    function At(i: Word): (b: Byte)
      reads this, internalRam, apuIoMemory, cpuMemory
      requires Valid()
      requires i < 0x8000 || programSize > 0
      ensures i < 0x2000 ==> b == internalRam[i % 0x800]
      ensures 0x2000 <= i < 0x4000 ==> b == internalRam[0]
      ensures 0x4000 <= i < 0x4020 ==> b == apuIoMemory[i - 0x4000]
      ensures 0x4020 <= i < 0x8000 ==> b == cpuMemory[i - 0x4020]
      ensures 0x8000 <= i ==> (i - 0x8000) % (programSize * 0x4000) < 0x8000
                              && b == cpuMemory[RomLocation + (i - 0x8000) % (programSize * 0x4000)]
      ensures 0x8000 <= i && programSize == 1 ==> b == cpuMemory[RomLocation + (i - 0x8000) % 0x4000]
    {
      WordIndexInBounds(i, programSize);
      match Locate(i, programSize).value
      case InternalRam(k) => internalRam[k]
      case ApuIo(k) => apuIoMemory[k]
      case CpuMemory(k) => cpuMemory[k]
    }

    /** `loadRom`, from the bytes the file held: the header fields are
        assigned as they are read, a VS System ROM is refused after flags 6
        has been read, and a mapper-0 ROM has its program banks copied to
        `cpuMemory[RomLocation..]`. */
    method LoadRom(rom: seq<Byte>) returns (outcome: LoadOutcome)
      requires Valid()
      modifies this, cpuMemory
      ensures outcome == CheckRom(rom)
      ensures |rom| >= 16 && rom[..4] == Magic ==>
        && programSize == rom[4] && characterSize == rom[5]
        && mirroring == (if RustHeader.BitOf(rom[6], 0) then Horizontal else Vertical)
        && persistent == RustHeader.BitOf(rom[6], 1)
        && trainerPresent == RustHeader.BitOf(rom[6], 2)
        && mapper == (if RustHeader.BitOf(rom[7], 0) then rom[6] / 0x10 else Mapper(rom[6], rom[7]))
      ensures !(|rom| >= 16 && rom[..4] == Magic) ==>
        && programSize == old(programSize) && characterSize == old(characterSize)
        && mirroring == old(mirroring) && persistent == old(persistent)
        && trainerPresent == old(trainerPresent) && mapper == old(mapper)
      ensures outcome == Loaded ==>
        cpuMemory[..] == old(cpuMemory[..RomLocation]) + rom[RomOffset(rom)..RomOffset(rom) + RomLength(rom)]
                         + old(cpuMemory[RomLocation + RomLength(rom)..])
      ensures outcome != Loaded ==> cpuMemory[..] == old(cpuMemory[..])
    {
      if |rom| < 4 {
        return Undefined;
      }
      var headerFound := rom[..4] == Magic;
      if |rom| < 16 || !headerFound {
        return Rejected;
      }
      programSize := rom[4];
      characterSize := rom[5];
      mirroring := if RustHeader.BitOf(rom[6], 0) then Horizontal else Vertical;
      persistent := RustHeader.BitOf(rom[6], 1);
      trainerPresent := RustHeader.BitOf(rom[6], 2);
      mapper := rom[6] / 0x10;
      if RustHeader.BitOf(rom[7], 0) {
        return Rejected;
      }
      mapper := mapper + (rom[7] / 0x10) * 0x10;
      if mapper != 0 {
        return Rejected;
      }
      var offset := 16 + (if trainerPresent then 512 else 0);
      var length := programSize as int * 0x4000;
      if RomLocation + length > 0xBFE0 || offset + length > |rom| {
        return Undefined;
      }
      forall k | 0 <= k < length {
        cpuMemory[RomLocation + k] := rom[offset + k];
      }
      assert cpuMemory[..] == old(cpuMemory[..RomLocation]) + rom[offset..offset + length]
                              + old(cpuMemory[RomLocation + length..]);
      outcome := Loaded;
    }
  }
}
