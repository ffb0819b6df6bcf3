/** The iNES header as the Rust front end reads it (`parse_header` and the
    mapper check in `main.rs`). */
module RustHeader {
  import opened Bytes

  datatype Option<T> = None | Some(value: T)

  datatype Mirroring = Horizontal | Vertical

  datatype Header = Header(
    programSize: nat,
    characterSize: nat,
    mapperNumber: Byte,
    mirroring: Mirroring,
    persistentMemory: bool,
    trainer: bool,
    ignoreMirroring: bool,
    vsUnisystem: bool,
    playchoice: bool,
    programRamSize: Byte)

  /** `b & (1 << k) != 0`. */
  predicate BitOf(b: Byte, k: nat)
    requires k < 8
  {
    (b / Pow2(k)) % 2 == 1
  }

  /** `(b7 & 0xF0) | (b6 >> 4)`: the high nibble of flags 7 over the high
      nibble of flags 6. The two operands share no bit, so the or is a sum. */
  function MapperNumber(b6: Byte, b7: Byte): (m: Byte)
    ensures m / 0x10 == b7 / 0x10 && m % 0x10 == b6 / 0x10
  {
    (b7 / 0x10) * 0x10 + b6 / 0x10
  }

  /** `parse_header`: sizes in bytes from the unit counts in bytes 4 and 5,
      the flags of bytes 6 and 7, and byte 8. It indexes up to byte 8, so a
      shorter slice panics (`None`). */
  function ParseHeader(bytes: seq<Byte>): (r: Option<Header>)
    ensures r.Some? <==> |bytes| >= 9
    ensures r.Some? ==> r.value.programSize % 0x4000 == 0 && r.value.programSize / 0x4000 == bytes[4]
    ensures r.Some? ==> r.value.characterSize % 0x2000 == 0 && r.value.characterSize / 0x2000 == bytes[5]
  {
    if |bytes| < 9 then None
    else
      Some(Header(
        programSize := bytes[4] as int * 0x4000,
        characterSize := bytes[5] as int * 0x2000,
        mapperNumber := MapperNumber(bytes[6], bytes[7]),
        mirroring := if bytes[6] % 2 == 0 then Horizontal else Vertical,
        persistentMemory := BitOf(bytes[6], 1),
        trainer := BitOf(bytes[6], 2),
        ignoreMirroring := BitOf(bytes[6], 3),
        vsUnisystem := BitOf(bytes[7], 0),
        playchoice := BitOf(bytes[7], 1),
        programRamSize := bytes[8]))
  }

  /** A header `parse_header` can produce: whole 16 KB and 8 KB units, at
      most 255 of each. */
  predicate Encodable(h: Header)
  {
    h.programSize % 0x4000 == 0 && h.programSize / 0x4000 < 0x100
    && h.characterSize % 0x2000 == 0 && h.characterSize / 0x2000 < 0x100
  }

  function B(b: bool): nat
  {
    if b then 1 else 0
  }

  /** The nine leading bytes of an iNES file carrying `h`: the magic, the
      unit counts, flags 6 and 7 and the program RAM size. */
  function EncodeHeader(h: Header): (bytes: seq<Byte>)
    requires Encodable(h)
    ensures |bytes| == 9
    ensures bytes[..4] == [0x4E, 0x45, 0x53, 0x1A]
  {
    var b6 := (h.mapperNumber % 0x10) * 0x10 + B(h.ignoreMirroring) * 8 + B(h.trainer) * 4
              + B(h.persistentMemory) * 2 + (if h.mirroring == Vertical then 1 else 0);
    var b7 := (h.mapperNumber / 0x10) * 0x10 + B(h.playchoice) * 2 + B(h.vsUnisystem);
    [0x4E, 0x45, 0x53, 0x1A, h.programSize / 0x4000, h.characterSize / 0x2000, b6, b7, h.programRamSize]
  }

  /** Four flags packed as bits 3..0 read back as those flags. */
  lemma LowFlagBits(f3: bool, f2: bool, f1: bool, f0: bool)
    ensures var c := B(f3) * 8 + B(f2) * 4 + B(f1) * 2 + B(f0);
      c < 0x10 && c % 2 == B(f0)
      && BitOf(c, 0) == f0 && BitOf(c, 1) == f1 && BitOf(c, 2) == f2 && BitOf(c, 3) == f3
  {
    assert Pow2(0) == 1 && Pow2(1) == 2 && Pow2(2) == 4 && Pow2(3) == 8;
  }

  /** A high nibble added above a low nibble leaves bit `k` of the low
      nibble as it was, for the four low bits. */
  lemma HighNibbleKeepsLowBits(hi: nat, c: nat, k: nat)
    requires hi < 0x10 && c < 0x10 && k < 4
    ensures hi * 0x10 + c < 0x100 && (hi * 0x10 + c) / 0x10 == hi && (hi * 0x10 + c) % 2 == c % 2
    ensures BitOf(hi * 0x10 + c, k) == BitOf(c, k)
  {
    DivAboveNibble(hi, c, 0x10, 1);
    if k == 0 {
      assert Pow2(0) == 1;
    } else if k == 1 {
      assert Pow2(1) == 2;
    } else if k == 2 {
      assert Pow2(2) == 4;
    } else {
      assert Pow2(3) == 8;
    }
    DivAboveNibble(hi, c, Pow2(k), 0x10 / Pow2(k));
  }

  /** Dividing `hi * 0x10 + c` by a power of two `d` up to 0x10 splits
      into the two parts, and the quotient's low bit is that of `c / d`
      whenever `d` is below 0x10. */
  lemma DivAboveNibble(hi: nat, c: nat, d: nat, q: nat)
    requires c < 0x10 && d * q == 0x10 && d > 0
    ensures (hi * 0x10 + c) / d == hi * q + c / d
    ensures q % 2 == 0 ==> (hi * q + c / d) % 2 == (c / d) % 2
  {
    assert hi * 0x10 + c == d * (hi * q + c / d) + c % d;
    if q % 2 == 0 {
      assert hi * q + c / d == 2 * (hi * (q / 2)) + c / d;
    }
  }

  /** The flag bits of a byte built from a high nibble and four low flags
      read back as those flags. */
  lemma FlagBits(hi: nat, f3: bool, f2: bool, f1: bool, f0: bool)
    requires hi < 0x10
    ensures var b := hi * 0x10 + B(f3) * 8 + B(f2) * 4 + B(f1) * 2 + B(f0);
      0 <= b < 0x100 && b / 0x10 == hi && b % 2 == B(f0)
      && BitOf(b, 0) == f0 && BitOf(b, 1) == f1 && BitOf(b, 2) == f2 && BitOf(b, 3) == f3
  {
    var c := B(f3) * 8 + B(f2) * 4 + B(f1) * 2 + B(f0);
    LowFlagBits(f3, f2, f1, f0);
    HighNibbleKeepsLowBits(hi, c, 0);
    HighNibbleKeepsLowBits(hi, c, 1);
    HighNibbleKeepsLowBits(hi, c, 2);
    HighNibbleKeepsLowBits(hi, c, 3);
  }

  /** Parsing an encoded header gives the header back. */
  lemma ParseEncodeRoundTrip(h: Header)
    requires Encodable(h)
    ensures ParseHeader(EncodeHeader(h)) == Some(h)
  {
    var bytes := EncodeHeader(h);
    FlagBits(h.mapperNumber % 0x10, h.ignoreMirroring, h.trainer, h.persistentMemory, h.mirroring == Vertical);
    FlagBits(h.mapperNumber / 0x10, false, false, h.playchoice, h.vsUnisystem);
    var p := ParseHeader(bytes).value;
    assert p.mapperNumber == h.mapperNumber;
    assert p.mirroring == h.mirroring;
  }

  /** Trailing bytes after the ninth do not change the parsed header. */
  lemma ParseIgnoresTail(bytes: seq<Byte>, rest: seq<Byte>)
    requires |bytes| >= 9
    ensures ParseHeader(bytes + rest) == ParseHeader(bytes)
  {
    assert (bytes + rest)[..9] == bytes[..9];
  }

  /** The check in `main`: any mapper other than 0 panics before a CPU is
      created, so only mapper 0 reaches the emulator. */
  function CheckMapper(h: Header): (r: Option<Header>)
    ensures r.Some? <==> h.mapperNumber == 0
    ensures r.Some? ==> r.value == h
  {
    if h.mapperNumber != 0 then None else Some(h)
  }

  /** What `main` hands to `init_memory`: the header is parsed, the mapper
      checked, and the program slice `content[0x10..0x10 + program_size]`
      taken (a file too short for it panics). */
  function ProgramSlice(content: seq<Byte>): (r: Option<seq<Byte>>)
    ensures r.Some? <==> |content| >= 9 && ParseHeader(content).value.mapperNumber == 0
                         && 0x10 + ParseHeader(content).value.programSize <= |content|
    ensures r.Some? ==> |r.value| == ParseHeader(content).value.programSize
                        && forall i :: 0 <= i < |r.value| ==> r.value[i] == content[0x10 + i]
  {
    match ParseHeader(content)
    case None => None
    case Some(h) =>
      match CheckMapper(h)
      case None => None
      case Some(_) =>
        if 0x10 + h.programSize > |content| then None
        else Some(content[0x10..0x10 + h.programSize])
  }
}
