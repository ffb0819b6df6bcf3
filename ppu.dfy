/** The C++ PPU (`ppu.cpp`): the VRAM address mirroring of `mapAddr`, and
    the memory-mapped registers, which share the write toggle `writeLatch`
    and update the temporary and current VRAM addresses `rt` and `rv`. */
module Ppu {

  /** The `Nametable` arrangement, set by `PPU::loadRom` from header flags 6. */
  datatype Nametable = Vertical | Horizontal

  /** `mapAddr`: an address above 0x4000 is only reduced modulo 0x4000;
      otherwise pattern tables and 0x3000..0x3EFF map to themselves, the
      palette repeats every 0x20 bytes from 0x3F00 (0x4000 included), and
      the four nametables at 0x2000..0x2FFF fold onto two. */
  function MapAddr(addr: bv16, mirroring: Nametable): (r: bv16)
    ensures r < 0x4000
  {
    if addr > 0x4000 then addr % 0x4000
    else if addr < 0x2000 then addr
    else if 0x3000 <= addr < 0x3F00 then addr
    else if addr >= 0x3F00 then (addr - 0x3F00) % 0x20 + 0x3F00
    else
      var nameTableIndex := (addr - 0x2000) / 0x400;
      if mirroring == Horizontal then
        if nameTableIndex == 0 || nameTableIndex == 2 then addr else addr - 0x400
      else
        if nameTableIndex == 0 || nameTableIndex == 1 then addr else addr - 0x800
  }

  /** From 0x3F00 up to and including 0x4000 the palette repeats every 0x20
      bytes; in particular 0x4000 maps to 0x3F00, not to 0. */
  lemma PaletteMirroring(addr: bv16, mirroring: Nametable)
    requires 0x3F00 <= addr <= 0x4000
    ensures MapAddr(addr, mirroring) == 0x3F00 + (addr - 0x3F00) % 0x20
    ensures 0x3F00 <= MapAddr(addr, mirroring) < 0x3F20
  {
  }

  /** Nametable folding: `Horizontal` clears address bit 10 (tables 1 and 3
      onto 0 and 2), `Vertical` clears bit 11 (tables 2 and 3 onto 0 and 1). */
  lemma NametableMirroring(addr: bv16)
    requires 0x2000 <= addr < 0x3000
    ensures MapAddr(addr, Horizontal) == addr & !0x0400
    ensures MapAddr(addr, Vertical) == addr & !0x0800
  {
  }

  /** Two nametable addresses share a byte exactly when they differ at most
      in the bit the arrangement clears. */
  lemma NametableAliasing(a: bv16, b: bv16)
    requires 0x2000 <= a < 0x3000 && 0x2000 <= b < 0x3000
    ensures MapAddr(a, Horizontal) == MapAddr(b, Horizontal) <==> a & !0x0400 == b & !0x0400
    ensures MapAddr(a, Vertical) == MapAddr(b, Vertical) <==> a & !0x0800 == b & !0x0800
  {
    NametableMirroring(a);
    NametableMirroring(b);
  }

  /** Up to 0x4000, mapping twice is mapping once. */
  lemma MapAddrIdempotent(addr: bv16, mirroring: Nametable)
    requires addr <= 0x4000
    ensures MapAddr(MapAddr(addr, mirroring), mirroring) == MapAddr(addr, mirroring)
  {
    if 0x2000 <= addr < 0x3000 {
      NametableMirroring(addr);
      NametableMirroring(MapAddr(addr, mirroring));
    }
  }

  /** Above 0x4000 the reduction is not followed by mirroring, so mapping
      is not idempotent there: 0x6400 maps to 0x2400, which maps on. */
  lemma MapAddrNotIdempotentAbove()
    ensures MapAddr(0x6400, Horizontal) == 0x2400
    ensures MapAddr(MapAddr(0x6400, Horizontal), Horizontal) == 0x2000
  {
  }

  /** `writescroll`, first write: coarse X (bits 0-4 of `rt`) from the top
      five bits of the value. */
  function ScrollFirst(t: bv16, val: bv8): (r: bv16)
    ensures r & 0x001F == (val >> 3) as bv16
    ensures r & !0x001F == t & !0x001F
  {
    (t & !0x001F) | (((val >> 3) as bv16) & 0x001F)
  }

  /** `writescroll`, second write: fine Y (bits 12-14) from the low three
      bits, coarse Y (bits 5-9) from the top five bits. */
  function ScrollSecond(t: bv16, val: bv8): (r: bv16)
    ensures (r >> 12) & 0x7 == (val & 0x07) as bv16
    ensures (r >> 5) & 0x1F == (val >> 3) as bv16
    ensures r & !0x73E0 == t & !0x73E0
  {
    ((t & !0x73E0) | (((val & 0x07) as bv16) << 12)) | (((val & 0xF8) as bv16) << 2)
  }

  /** Two scroll writes set coarse X, coarse Y and fine Y of `rt` and keep
      the nametable select bits 10-11 and bit 15. */
  lemma ScrollPair(t: bv16, x: bv8, y: bv8)
    ensures var r := ScrollSecond(ScrollFirst(t, x), y);
      && r & 0x1F == (x >> 3) as bv16
      && (r >> 5) & 0x1F == (y >> 3) as bv16
      && (r >> 12) & 0x7 == (y & 0x07) as bv16
      && r & 0x8C00 == t & 0x8C00
  {
  }

  /** `writeaddr`, first write: bits 8-13 from the low six bits of the
      value, bits 14-15 cleared, the low byte kept. */
  function AddrFirst(t: bv16, val: bv8): (r: bv16)
    ensures (r >> 8) == ((val & 0x3F) as bv16)
    ensures r & 0x00FF == t & 0x00FF
  {
    (t & 0x00FF) | (((val & 0x3F) as bv16) << 8)
  }

  /** `writeaddr`, second write: the low byte replaced, bits 8-14 kept,
      bit 15 cleared. */
  function AddrSecond(t: bv16, val: bv8): (r: bv16)
    ensures r & 0x00FF == val as bv16
    ensures r & 0xFF00 == t & 0x7F00
  {
    (t & 0x7F00) | (val as bv16)
  }

  /** Two address writes, high then low, give the 14-bit address they spell
      whatever `rt` held before. */
  lemma AddrPair(t: bv16, hi: bv8, lo: bv8)
    ensures AddrSecond(AddrFirst(t, hi), lo) == (((hi & 0x3F) as bv16) << 8) | (lo as bv16)
    ensures AddrSecond(AddrFirst(t, hi), lo) < 0x4000
  {
  }

  /** `writectrl` on `rt`: the nametable select bits 10-11 from bits 0-1 of
      the value, the rest kept. */
  function CtrlNametable(t: bv16, val: bv8): (r: bv16)
    ensures (r >> 10) & 0x3 == (val & 0x03) as bv16
    ensures r & !0x0C00 == t & !0x0C00
  {
    (t & !0x0C00) | (((val & 0x03) as bv16) << 10)
  }

  /** `readstatus`: the top three status bits over the low five bits of
      the last value on the bus. */
  function StatusRead(status: bv8, latch: bv8): (r: bv8)
    ensures r & 0xE0 == status & 0xE0
    ensures r & 0x1F == latch & 0x1F
  {
    (status & 0xE0) | (latch & 0x1F)
  }

  /** Reading the status clears the vertical-blank bit 7 and keeps the rest. */
  function ClearVblank(status: bv8): (r: bv8)
    ensures r & 0x80 == 0 && r & 0x7F == status & 0x7F
  {
    status & 0x7F
  }

  /** `rv` after an access through `PPUDATA`, with 16-bit wrap-around. */
  function Advance(v: bv16, inc: bv16): bv16
  {
    v + inc
  }

  /** Fine X scroll, the low three bits of the first scroll write. */
  function FineX(val: bv8): (r: bv8)
    ensures r < 8 && r as int == val as int % 8
  {
    val & 0x07
  }

  /** The settings `writemask` unpacks, one per bit from bit 0 upwards. */
  datatype Mask = Mask(greyscale: bool, showLeftBackground: bool, showLeftSprites: bool,
                       showBackground: bool, showSprites: bool,
                       emphasizeRed: bool, emphasizeGreen: bool, emphasizeBlue: bool)

  function DecodeMask(val: bv8): (m: Mask)
    ensures m.greyscale == (val & 0x01 != 0) && m.showLeftBackground == (val & 0x02 != 0)
    ensures m.showLeftSprites == (val & 0x04 != 0) && m.showBackground == (val & 0x08 != 0)
    ensures m.showSprites == (val & 0x10 != 0) && m.emphasizeRed == (val & 0x20 != 0)
    ensures m.emphasizeGreen == (val & 0x40 != 0) && m.emphasizeBlue == (val & 0x80 != 0)
  {
    Mask(val & 0x01 != 0, val & 0x02 != 0, val & 0x04 != 0, val & 0x08 != 0,
         val & 0x10 != 0, val & 0x20 != 0, val & 0x40 != 0, val & 0x80 != 0)
  }

  function FlagByte(b: bool, bit: bv8): bv8
  {
    if b then bit else 0
  }

  /** The `PPUMASK` value that carries the settings `m`. */
  function EncodeMask(m: Mask): bv8
  {
    FlagByte(m.greyscale, 0x01) | FlagByte(m.showLeftBackground, 0x02)
    | FlagByte(m.showLeftSprites, 0x04) | FlagByte(m.showBackground, 0x08)
    | FlagByte(m.showSprites, 0x10) | FlagByte(m.emphasizeRed, 0x20)
    | FlagByte(m.emphasizeGreen, 0x40) | FlagByte(m.emphasizeBlue, 0x80)
  }

  /** Every bit of `PPUMASK` is kept: decoding and encoding are inverse. */
  lemma MaskRoundTrip(val: bv8, m: Mask)
    ensures EncodeMask(DecodeMask(val)) == val
    ensures DecodeMask(EncodeMask(m)) == m
  {
  }

  /** The settings `writectrl` unpacks from bits 2-7 (bits 0-1 go to `rt`). */
  datatype Control = Control(vramInc: bv16, spritePatternTable: bv16, backgroundPatternTable: bv16,
                             spriteSize: bool, masterSlaveSelect: bool, generateNmi: bool)

  function DecodeControl(val: bv8): (c: Control)
    ensures c.vramInc == (if val & 0x04 != 0 then 32 else 1)
    ensures c.spritePatternTable == (if val & 0x08 != 0 then 0x1000 else 0x0000)
    ensures c.backgroundPatternTable == (if val & 0x10 != 0 then 0x1000 else 0x0000)
    ensures c.spriteSize == (val & 0x20 != 0) && c.masterSlaveSelect == (val & 0x40 != 0)
    ensures c.generateNmi == (val & 0x80 != 0)
  {
    Control(if val & 0x04 != 0 then 32 else 1,
            if val & 0x08 != 0 then 0x1000 else 0x0000,
            if val & 0x10 != 0 then 0x1000 else 0x0000,
            val & 0x20 != 0, val & 0x40 != 0, val & 0x80 != 0)
  }

  /** Settings `writectrl` can produce. */
  predicate ControlReachable(c: Control)
  {
    (c.vramInc == 1 || c.vramInc == 32)
    && (c.spritePatternTable == 0 || c.spritePatternTable == 0x1000)
    && (c.backgroundPatternTable == 0 || c.backgroundPatternTable == 0x1000)
  }

  /** Bits 2-7 of the `PPUCTRL` value that carries the settings `c`. */
  function EncodeControl(c: Control): bv8
  {
    FlagByte(c.vramInc == 32, 0x04) | FlagByte(c.spritePatternTable == 0x1000, 0x08)
    | FlagByte(c.backgroundPatternTable == 0x1000, 0x10) | FlagByte(c.spriteSize, 0x20)
    | FlagByte(c.masterSlaveSelect, 0x40) | FlagByte(c.generateNmi, 0x80)
  }

  /** Bits 2-7 of `PPUCTRL` are kept by the settings `writectrl` unpacks,
      and those settings are always reachable ones. */
  lemma ControlKeepsHighBits(val: bv8)
    ensures ControlReachable(DecodeControl(val))
    ensures EncodeControl(DecodeControl(val)) == val & 0xFC
  {
  }

  /** Every reachable setting comes from the value that encodes it. */
  lemma ControlFromEncoding(c: Control)
    requires ControlReachable(c)
    ensures DecodeControl(EncodeControl(c)) == c
  {
  }

  class Ppu {
    var status: bv8
    var oamAddr: bv8
    var data: bv8
    var latch: bv8
    var rv: bv16
    var rt: bv16
    var rx: bv8
    var writeLatch: bool
    var control: Control
    var mask: Mask
    const mirroring: Nametable
    const memory: array<bv8>

    predicate Valid()
      reads this
    {
      memory.Length == 0x4000
    }

    /** `PPU::PPU`: the initialised registers; the latches, `VRamInc`, the
        settings and the VRAM contents are left as they happen to be, and
        the arrangement is the one `loadRom` sets. */
    constructor (arrangement: Nametable)
      ensures Valid() && fresh(memory)
      ensures status == 0xA0 && oamAddr == 0 && data == 0
      ensures rv == 0 && rt == 0 && rx == 0
      ensures mirroring == arrangement
    {
      status := 0xA0;
      oamAddr := 0;
      data := 0;
      rv := 0;
      rt := 0;
      rx := 0;
      mirroring := arrangement;
      memory := new bv8[0x4000];
    }

    /** `readstatus`: the value read is also left on the bus, the
        vertical-blank bit is cleared and the write toggle reset. */
    method ReadStatus() returns (r: bv8)
      modifies this
      ensures r == StatusRead(old(status), old(latch)) && latch == r
      ensures status == ClearVblank(old(status))
      ensures !writeLatch
      ensures unchanged(this`oamAddr, this`data, this`rv, this`rt, this`rx, this`control, this`mask)
    {
      latch := StatusRead(status, latch);
      status := ClearVblank(status);
      writeLatch := false;
      r := latch;
    }

    /** `readctrl`, `readmask`, `readOAMAddr`, `readscroll`, `readaddr` and
        `readOAMDMA`: the write-only registers read back the last value on
        the bus, and nothing changes. */
    method ReadLatch() returns (r: bv8)
      ensures r == latch
    {
      r := latch;
    }

    /** `readdata`: returns the byte buffered by the previous read, buffers
        the byte at the mirrored `rv`, and advances `rv`. */
    method ReadData() returns (r: bv8)
      requires Valid()
      modifies this
      ensures r == old(data) && latch == old(data)
      ensures data == memory[MapAddr(old(rv), mirroring) as int]
      ensures rv == Advance(old(rv), control.vramInc)
      ensures unchanged(this`status, this`oamAddr, this`rt, this`rx, this`writeLatch, this`control, this`mask)
    {
      latch := data;
      var addr := MapAddr(rv, mirroring);
      data := memory[addr as int];
      rv := Advance(rv, control.vramInc);
      r := latch;
    }

    /** `writectrl`: the nametable select bits go to `rt`, the rest to the
        settings. */
    method WriteCtrl(val: bv8)
      modifies this
      ensures latch == val
      ensures rt == CtrlNametable(old(rt), val)
      ensures control == DecodeControl(val)
      ensures unchanged(this`status, this`oamAddr, this`data, this`rv, this`rx, this`writeLatch, this`mask)
    {
      latch := val;
      rt := CtrlNametable(rt, val);
      control := DecodeControl(val);
    }

    /** `writemask`. */
    method WriteMask(val: bv8)
      modifies this
      ensures latch == val
      ensures mask == DecodeMask(val)
      ensures unchanged(this`status, this`oamAddr, this`data, this`rv, this`rt, this`rx, this`writeLatch, this`control)
    {
      latch := val;
      mask := DecodeMask(val);
    }

    /** `writestatus`: the status register is read-only; the value only
        reaches the bus. */
    method WriteStatus(val: bv8)
      modifies this
      ensures latch == val
      ensures unchanged(this`status, this`oamAddr, this`data, this`rv, this`rt, this`rx, this`writeLatch, this`control, this`mask)
    {
      latch := val;
    }

    /** `writeOAMAddr`. */
    method WriteOamAddr(val: bv8)
      modifies this
      ensures latch == val && oamAddr == val
      ensures unchanged(this`status, this`data, this`rv, this`rt, this`rx, this`writeLatch, this`control, this`mask)
    {
      latch := val;
      oamAddr := val;
    }

    /** `writescroll`: the first write of a pair sets coarse X and fine X,
        the second coarse and fine Y; the toggle flips. */
    method WriteScroll(val: bv8)
      modifies this
      ensures latch == val
      ensures rt == if old(writeLatch) then ScrollSecond(old(rt), val) else ScrollFirst(old(rt), val)
      ensures rx == if old(writeLatch) then old(rx) else FineX(val)
      ensures writeLatch == !old(writeLatch)
      ensures unchanged(this`status, this`oamAddr, this`data, this`rv, this`control, this`mask)
    {
      latch := val;
      if !writeLatch {
        rt := ScrollFirst(rt, val);
        rx := FineX(val);
      } else {
        rt := ScrollSecond(rt, val);
      }
      writeLatch := !writeLatch;
    }

    /** `writeaddr`: the high byte first, then the low byte, which also
        copies `rt` into `rv`; the toggle flips. */
    method WriteAddr(val: bv8)
      modifies this
      ensures latch == val
      ensures rt == if old(writeLatch) then AddrSecond(old(rt), val) else AddrFirst(old(rt), val)
      ensures rv == if old(writeLatch) then rt else old(rv)
      ensures writeLatch == !old(writeLatch)
      ensures unchanged(this`status, this`oamAddr, this`data, this`rx, this`control, this`mask)
    {
      latch := val;
      if !writeLatch {
        rt := AddrFirst(rt, val);
      } else {
        rt := AddrSecond(rt, val);
        rv := rt;
      }
      writeLatch := !writeLatch;
    }

    /** `writedata`: stores the value at the mirrored `rv` and advances
        `rv`. */
    method WriteData(val: bv8)
      requires Valid()
      modifies this, memory
      ensures latch == val
      ensures memory[..] == old(memory[..])[MapAddr(old(rv), mirroring) as int := val]
      ensures rv == Advance(old(rv), control.vramInc)
      ensures unchanged(this`status, this`oamAddr, this`data, this`rt, this`rx, this`writeLatch, this`control, this`mask)
    {
      latch := val;
      var addr := MapAddr(rv, mirroring);
      memory[addr as int] := val;
      rv := Advance(rv, control.vramInc);
    }
  }
}
