/** The iNES cartridge-image loader (IO/NesFile.cs): a 16-byte header,
    an optional 512-byte trainer, then the PRG ROM and the CHR ROM, read
    front to back through one `SpanReader`. */
module NesFiles {
  import opened Bytes
  import opened Wrappers
  import opened Mirroring
  import opened SpanReading

  /** `_magicNumber`: "NES" followed by MS-DOS end-of-file, read as one
      big-endian 32-bit value. */
  const MagicNumber: nat := 0x4E45531A

  const HeaderSize: nat := 16
  const TrainerSize: nat := 512
  const PrgRomUnit: nat := 16 * 1024
  const ChrRomUnit: nat := 8 * 1024
  const PrgRamUnit: nat := 8 * 1024

  /** The header fields the loader keeps. */
  datatype Header = Header(
    prgRomSize: nat, chrRomSize: nat, mirroring: MirroringMode,
    hasTrainer: bool, prgRamSize: nat)

  /** A loaded image: the header fields plus the three byte blocks, and
      whether the span was used up (the condition of the final
      `Debug.Assert`). */
  datatype Image = Image(header: Header, trainer: Option<seq<Byte>>,
                         prgRom: seq<Byte>, chrRom: seq<Byte>, consumed: bool)

  /** `(MirroringMode)(flag6 & 0b1)`. */
  function MirroringOf(flag6: Byte): MirroringMode {
    ModeOf(flag6 % 2)
  }

  /** `(flag6 & 0b001) != 0`, the trainer test as written: bit 0, the
      mirroring bit. */
  predicate TrainerFlagAsWritten(flag6: Byte) {
    flag6 % 2 == 1
  }

  /** The trainer bit of iNES Flags 6: bit 2 (`flag6 & 0b100`). */
  predicate TrainerFlag(flag6: Byte) {
    (flag6 / 4) % 2 == 1
  }

  /** `Math.Max((byte)1, flag8) * 8 KiB`: a zero count still means one bank. */
  function PrgRamSizeOf(flag8: Byte): nat {
    (if flag8 < 1 then 1 else flag8) * PrgRamUnit
  }

  /** `ReadHeader`: the magic number, then one byte each for the PRG and
      CHR counts, Flags 6, 7, 8, 9 and 10, then five skipped bytes. Every
      read fails on a short span; a wrong magic number is
      InvalidDataException. The success case consumes exactly 16 bytes. */
  function ReadHeader(s: seq<Byte>, trainerFlag: Byte -> bool): Result<Header> {
    if |s| < 4 then Err(ArgumentOutOfRange)
    else if BigEndian(s[..4]) != MagicNumber then Err(InvalidData)
    else if |s| < HeaderSize then Err(ArgumentOutOfRange)
    else Ok(Header(s[4] * PrgRomUnit, s[5] * ChrRomUnit, MirroringOf(s[6]),
                   trainerFlag(s[6]), PrgRamSizeOf(s[8])))
  }

  /** `Load` after the header: `ReadTrainer`, `ReadPrgRom`, `ReadChrRom`,
      each a `ReadAsByteArray` that throws when the span is too short. */
  function ReadBody(h: Header, body: seq<Byte>): Result<Image> {
    var t := if h.hasTrainer then TrainerSize else 0;
    if |body| < t + h.prgRomSize + h.chrRomSize then Err(ArgumentOutOfRange)
    else Ok(Image(h, if h.hasTrainer then Some(body[..TrainerSize]) else None,
                  body[t..t + h.prgRomSize],
                  body[t + h.prgRomSize..t + h.prgRomSize + h.chrRomSize],
                  |body| == t + h.prgRomSize + h.chrRomSize))
  }

  /** `ReadBody` as the three reads perform it, each on what the previous
      one left. */
  lemma ReadBodyInSteps(h: Header, body: seq<Byte>)
    ensures var t := if h.hasTrainer then TrainerSize else 0;
            |body| >= t + h.prgRomSize + h.chrRomSize ==>
              var rest := body[t..][h.prgRomSize..];
              ReadBody(h, body) == Ok(Image(h, if h.hasTrainer then Some(body[..TrainerSize]) else None,
                                            body[t..][..h.prgRomSize], rest[..h.chrRomSize],
                                            |rest[h.chrRomSize..]| == 0))
  {
    var t := if h.hasTrainer then TrainerSize else 0;
    if |body| >= t + h.prgRomSize + h.chrRomSize {
      assert body[t..][..h.prgRomSize] == body[t..t + h.prgRomSize];
      assert body[t..][h.prgRomSize..][..h.chrRomSize] == body[t + h.prgRomSize..t + h.prgRomSize + h.chrRomSize];
    }
  }

  /** The whole load under a given trainer test. */
  function LoadWith(content: seq<Byte>, trainerFlag: Byte -> bool): Result<Image> {
    var h :- ReadHeader(content, trainerFlag);
    ReadBody(h, content[HeaderSize..])
  }

  /** `Load` as written: the trainer test looks at bit 0. */
  function LoadImageAsWritten(content: seq<Byte>): Result<Image> {
    LoadWith(content, TrainerFlagAsWritten)
  }

  /** `Load` with the iNES trainer bit; this is the loader the class
      implements. */
  function LoadImage(content: seq<Byte>): Result<Image> {
    LoadWith(content, TrainerFlag)
  }

  /** The bytes of a well-formed iNES image: a header whose magic number
      is right, a trainer exactly when Flags 6 says so, and PRG and CHR
      blocks of the sizes the header gives. */
  predicate WellFormed(hdr: seq<Byte>, trainer: seq<Byte>, prg: seq<Byte>, chr: seq<Byte>) {
    && |hdr| == HeaderSize && BigEndian(hdr[..4]) == MagicNumber
    && |trainer| == (if TrainerFlag(hdr[6]) then TrainerSize else 0)
    && |prg| == hdr[4] * PrgRomUnit && |chr| == hdr[5] * ChrRomUnit
  }

  /** A well-formed image loads into exactly its parts and is used up, as
      the loader's final assertion expects. */
  lemma LoadWellFormed(hdr: seq<Byte>, trainer: seq<Byte>, prg: seq<Byte>, chr: seq<Byte>)
    requires WellFormed(hdr, trainer, prg, chr)
    ensures var r := LoadImage(hdr + trainer + prg + chr);
      && r.Ok? && r.value.consumed
      && r.value.header == Header(hdr[4] * PrgRomUnit, hdr[5] * ChrRomUnit, MirroringOf(hdr[6]),
                                  TrainerFlag(hdr[6]), PrgRamSizeOf(hdr[8]))
      && r.value.trainer == (if TrainerFlag(hdr[6]) then Some(trainer) else None)
      && r.value.prgRom == prg && r.value.chrRom == chr
  {
    var content := hdr + trainer + prg + chr;
    assert content[..4] == hdr[..4];
    assert content[..HeaderSize] == hdr;
    var body := content[HeaderSize..];
    assert body == trainer + prg + chr;
    var t := |trainer|;
    assert body[..t] == trainer;
    assert body[t..t + |prg|] == prg;
    assert body[t + |prg|..t + |prg| + |chr|] == chr;
  }

  /** Mirroring is bit 0 of Flags 6 and the PRG RAM size never drops
      to zero. */
  lemma LoadedHeaderFacts(s: seq<Byte>)
    requires LoadImage(s).Ok?
    ensures LoadImage(s).value.header.mirroring == (if s[6] % 2 == 0 then Horizontal else Vertical)
    ensures LoadImage(s).value.header.prgRamSize >= PrgRamUnit
    ensures LoadImage(s).value.header.prgRomSize % PrgRomUnit == 0 && LoadImage(s).value.header.chrRomSize % ChrRomUnit == 0
    ensures LoadImage(s).value.header.hasTrainer <==> LoadImage(s).value.trainer.Some?
  {
  }

  /** A bad magic number is rejected before anything else is read. */
  lemma BadMagicRejected(s: seq<Byte>)
    requires |s| >= 4 && (s[0], s[1], s[2], s[3]) != (0x4E, 0x45, 0x53, 0x1A)
    ensures LoadImage(s) == Err(InvalidData) && LoadImageAsWritten(s) == Err(InvalidData)
  {
    BigEndian4(s[..4]);
  }

  /** As written, a well-formed image with vertical mirroring (bit 0 set)
      and no trainer (bit 2 clear) is misread: 512 bytes of PRG ROM are
      taken as a trainer and the last block runs off the end of the span. */
  lemma TrainerMisread(hdr: seq<Byte>, prg: seq<Byte>, chr: seq<Byte>)
    requires WellFormed(hdr, [], prg, chr) && hdr[6] % 2 == 1 && !TrainerFlag(hdr[6])
    ensures LoadImageAsWritten(hdr + prg + chr) == Err(ArgumentOutOfRange)
    ensures LoadImage(hdr + prg + chr).Ok?
  {
    LoadWellFormed(hdr, [], prg, chr);
    var content := hdr + prg + chr;
    assert content[..4] == hdr[..4];
    assert content[..HeaderSize] == hdr;
    assert [] + prg + chr == prg + chr;
  }

  /** A concrete header: "NES\x1A", one PRG bank, one CHR bank, Flags 6 =
      1 (vertical mirroring, no trainer). */
  function VerticalHeader(): seq<Byte> {
    [0x4E, 0x45, 0x53, 0x1A, 1, 1, 1, 0, 0, 0, 0, 0, 0, 0, 0, 0]
  }

  /** The smallest image of that kind, 16 + 16384 + 8192 bytes, loads under
      the iNES rule and fails as written. */
  lemma TrainerMisreadExample()
    ensures var content := VerticalHeader() + seq(PrgRomUnit, _ => 0) + seq(ChrRomUnit, _ => 0);
            LoadImageAsWritten(content) == Err(ArgumentOutOfRange) && LoadImage(content).Ok?
  {
    var hdr := VerticalHeader();
    BigEndian4(hdr[..4]);
    TrainerMisread(hdr, seq(PrgRomUnit, _ => 0), seq(ChrRomUnit, _ => 0));
  }

  class NesFile {
    var prgRomSize: nat
    var chrRomSize: nat
    var prgRamSize: nat
    var hasTrainer: bool
    var trainer: Option<seq<Byte>>
    var prgRom: seq<Byte>
    var chrRom: seq<Byte>
    var mirroringMode: MirroringMode

    /** The header properties as one value. */
    function HeaderFields(): Header
      reads this
    {
      Header(prgRomSize, chrRomSize, mirroringMode, hasTrainer, prgRamSize)
    }

    /** The object before `Load` runs: every property at its default. */
    constructor Empty()
      ensures HeaderFields() == Header(0, 0, Horizontal, false, 0)
      ensures trainer == None && prgRom == [] && chrRom == []
    {
      prgRomSize, chrRomSize, prgRamSize := 0, 0, 0;
      hasTrainer := false;
      trainer := None;
      prgRom, chrRom := [], [];
      mirroringMode := Horizontal;
    }

    /** `ReadHeader(ref span)`: the magic number, then the size bytes and
        the flag bytes. */
    method ReadHeaderFrom(span: SpanReader) returns (o: Outcome)
      modifies this, span
      ensures var h := ReadHeader(old(span.span), TrainerFlag);
              && o == (if h.Ok? then Pass else Fail(h.error))
              && (h.Ok? ==> HeaderFields() == h.value && span.span == old(span.span)[HeaderSize..])
      ensures trainer == old(trainer)
    {
      ghost var s := span.span;
      var magic := span.ReadAsUnsignedInt();
      if magic.Err? {
        return Fail(magic.error);
      }
      BigEndian4(s[..4]);
      if magic.value != MagicNumber {
        return Fail(InvalidData);
      }
      o := ReadSizesFrom(span);
      if o.Fail? {
        return;
      }
      o := ReadFlagsFrom(span);
      if o.Pass? {
        assert s[4..][3..][9..] == s[HeaderSize..];
      }
    }

    /** The PRG count, the CHR count and Flags 6 of `ReadHeader`. */
    method ReadSizesFrom(span: SpanReader) returns (o: Outcome)
      modifies this, span
      ensures var s := old(span.span);
              && (|s| < 3 ==> o == Fail(ArgumentOutOfRange))
              && (|s| >= 3 ==>
                    && o == Pass && span.span == s[3..]
                    && prgRomSize == s[0] * PrgRomUnit && chrRomSize == s[1] * ChrRomUnit
                    && mirroringMode == MirroringOf(s[2]) && hasTrainer == TrainerFlag(s[2]))
      ensures prgRamSize == old(prgRamSize) && trainer == old(trainer)
    {
      var prg := span.ReadAsByte();
      if prg.Err? { return Fail(prg.error); }
      prgRomSize := prg.value * PrgRomUnit;
      var chr := span.ReadAsByte();
      if chr.Err? { return Fail(chr.error); }
      chrRomSize := chr.value * ChrRomUnit;
      var flag6 := span.ReadAsByte();
      if flag6.Err? { return Fail(flag6.error); }
      mirroringMode := ModeOf(flag6.value % 2);
      hasTrainer := TrainerFlag(flag6.value);
      o := Pass;
    }

    /** Flags 7 to 10 of `ReadHeader` (only Flags 8, the PRG RAM size, is
        kept) and the five padding bytes. */
    method ReadFlagsFrom(span: SpanReader) returns (o: Outcome)
      modifies this, span
      ensures var s := old(span.span);
              && (|s| < 9 ==> o == Fail(ArgumentOutOfRange))
              && (|s| >= 9 ==> o == Pass && span.span == s[9..] && prgRamSize == PrgRamSizeOf(s[1]))
      ensures prgRomSize == old(prgRomSize) && chrRomSize == old(chrRomSize)
      ensures mirroringMode == old(mirroringMode) && hasTrainer == old(hasTrainer) && trainer == old(trainer)
    {
      ghost var s := span.span;
      var flag7 := span.ReadAsByte();
      if flag7.Err? { return Fail(flag7.error); }
      var flag8 := span.ReadAsByte();
      if flag8.Err? { return Fail(flag8.error); }
      prgRamSize := PrgRamSizeOf(flag8.value);
      var flag9 := span.ReadAsByte();
      if flag9.Err? { return Fail(flag9.error); }
      var flag10 := span.ReadAsByte();
      if flag10.Err? { return Fail(flag10.error); }
      o := span.Advance(5);
      assert |s| >= 9 ==> s[1..][1..][1..][1..][5..] == s[9..];
    }

    /** `ReadTrainer(ref span)`: 512 bytes, only when the header says so. */
    method ReadTrainerFrom(span: SpanReader) returns (o: Outcome)
      modifies this`trainer, span
      ensures var s := old(span.span);
              && (!hasTrainer ==> o == Pass && span.span == s && trainer == old(trainer))
              && (hasTrainer && |s| < TrainerSize ==> o == Fail(ArgumentOutOfRange))
              && (hasTrainer && |s| >= TrainerSize ==>
                    o == Pass && span.span == s[TrainerSize..] && trainer == Some(s[..TrainerSize]))
    {
      o := Pass;
      if hasTrainer {
        var tr := span.ReadAsByteArray(TrainerSize);
        if tr.Err? { return Fail(tr.error); }
        trainer := Some(tr.value);
      }
    }

    /** `ReadPrgRom(ref span)`. */
    method ReadPrgRomFrom(span: SpanReader) returns (o: Outcome)
      modifies this`prgRom, span
      ensures var s := old(span.span);
              && (|s| < prgRomSize ==> o == Fail(ArgumentOutOfRange))
              && (|s| >= prgRomSize ==> o == Pass && span.span == s[prgRomSize..] && prgRom == s[..prgRomSize])
    {
      var prg := span.ReadAsByteArray(prgRomSize);
      if prg.Err? { return Fail(prg.error); }
      prgRom := prg.value;
      o := Pass;
    }

    /** `ReadChrRom(ref span)`. */
    method ReadChrRomFrom(span: SpanReader) returns (o: Outcome)
      modifies this`chrRom, span
      ensures var s := old(span.span);
              && (|s| < chrRomSize ==> o == Fail(ArgumentOutOfRange))
              && (|s| >= chrRomSize ==> o == Pass && span.span == s[chrRomSize..] && chrRom == s[..chrRomSize])
    {
      var chr := span.ReadAsByteArray(chrRomSize);
      if chr.Err? { return Fail(chr.error); }
      chrRom := chr.value;
      o := Pass;
    }

    /** `Load(content)`: the header, the trainer, the PRG and the CHR block
        through one reader; `consumed` is what the final `Debug.Assert`
        checks. */
    method Load(content: seq<Byte>) returns (o: Outcome, consumed: bool)
      requires trainer == None
      modifies this
      ensures var r := LoadImage(content);
              && o == (if r.Ok? then Pass else Fail(r.error))
              && (r.Ok? ==>
                    && HeaderFields() == r.value.header && trainer == r.value.trainer
                    && prgRom == r.value.prgRom && chrRom == r.value.chrRom
                    && consumed == r.value.consumed)
    {
      var span := new SpanReader(content);
      consumed := false;
      o := ReadHeaderFrom(span);
      if o.Fail? { return; }
      ghost var body := span.span;
      ghost var t := if hasTrainer then TrainerSize else 0;
      o := ReadTrainerFrom(span);
      if o.Fail? { return; }
      o := ReadPrgRomFrom(span);
      if o.Fail? { return; }
      o := ReadChrRomFrom(span);
      if o.Fail? { return; }
      ReadBodyInSteps(HeaderFields(), body);
      consumed := span.IsConsumed();
    }
  }
}
