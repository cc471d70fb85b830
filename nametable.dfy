/** The nametable mirroring mode of a cartridge. The `MirroringMode` enum
    is not part of this model's sources; its two members are taken to be
    Horizontal = 0 and Vertical = 1, the meaning of bit 0 of iNES Flags 6
    that the loader casts into it. */
module Mirroring {

  datatype MirroringMode = Horizontal | Vertical | Undefined(code: int)

  /** The cast `(MirroringMode)code`: any other integer is a value of the
      enum type that names no member. */
  function ModeOf(code: int): (m: MirroringMode)
    ensures m == Horizontal <==> code == 0
    ensures m == Vertical <==> code == 1
    ensures m.Undefined? <==> code != 0 && code != 1
  {
    if code == 0 then Horizontal else if code == 1 then Vertical else Undefined(code)
  }
}

/** The PPU's nametable RAM behind its mirroring logic
    (NametableMirrorController.cs): four logical 1 KiB windows over two
    physical 1 KiB banks. */
module Nametables {
  import opened Bytes
  import opened Wrappers
  import opened Mirroring

  const BankSize: nat := 0x400

  /** `MemoryMapSize`: four windows of 0x400 bytes. */
  const MemoryMapSize: nat := 0x400 * 4

  /** A byte of `_nametable0` (bank 0) or `_nametable1` (bank 1). */
  datatype Cell = Cell(bank: nat, index: nat)

  /** `MirrorNametableAddress`: the window tests from the top down, each an
      `Offset(address, base, out offset)` that succeeds when `address >=
      base` with `offset = address - base`. The index is not yet checked
      against the bank length. */
  function Mirror(mode: MirroringMode, address: Word): Result<Cell> {
    match mode
    case Horizontal =>
      if address >= 0xC00 then Ok(Cell(1, address - 0xC00))
      else if address >= 0x800 then Ok(Cell(1, address - 0x800))
      else if address >= 0x400 then Ok(Cell(0, address - 0x400))
      else Ok(Cell(0, address))
    case Vertical =>
      if address >= 0xC00 then Ok(Cell(1, address - 0xC00))
      else if address >= 0x800 then Ok(Cell(0, address - 0x800))
      else if address >= 0x400 then Ok(Cell(1, address - 0x400))
      else Ok(Cell(0, address))
    case Undefined(_) => Err(ArgumentOutOfRange)
  }

  /** The cell `ref _nametableN[offset]` designates: indexing a 1 KiB bank
      past its end throws. */
  function Locate(mode: MirroringMode, address: Word): Result<Cell> {
    var c :- Mirror(mode, address);
    if c.index < BankSize then Ok(c) else Err(IndexOutOfRange)
  }

  /** The window mapping: horizontal mirroring puts the two lower windows
      on bank 0 and the two upper ones on bank 1, vertical mirroring
      alternates; the index is the offset inside the window. Addresses past
      0x1000 fall off the last bank, and an undefined mode throws. */
  lemma LocateWindows(mode: MirroringMode, a: Word)
    ensures mode.Undefined? ==> Locate(mode, a) == Err(ArgumentOutOfRange)
    ensures !mode.Undefined? && a >= 0x1000 ==> Locate(mode, a) == Err(IndexOutOfRange)
    ensures mode == Horizontal && a < 0x1000 ==> Locate(mode, a) == Ok(Cell(a / 0x800, a % 0x400))
    ensures mode == Vertical && a < 0x1000 ==> Locate(mode, a) == Ok(Cell((a / 0x400) % 2, a % 0x400))
  {
  }

  /** The other address of the window pair that shares a bank with `a`. */
  function Partner(mode: MirroringMode, a: Word): Word
    requires a < 0x1000
  {
    if mode == Vertical then (a + 0x800) % 0x1000
    else if (a / 0x400) % 2 == 0 then a + 0x400 else a - 0x400
  }

  /** Two nametable addresses designate the same byte exactly when they are
      equal or mirror images in the paired window. */
  lemma SameCellIffMirrored(mode: MirroringMode, a: Word, b: Word)
    requires !mode.Undefined? && a < 0x1000 && b < 0x1000
    ensures Locate(mode, a) == Locate(mode, b) <==> b == a || b == Partner(mode, a)
  {
    LocateWindows(mode, a);
    LocateWindows(mode, b);
  }

  /** The contents of the two banks. */
  datatype Banks = Banks(bank0: seq<Byte>, bank1: seq<Byte>) {
    predicate Valid() { |bank0| == BankSize && |bank1| == BankSize }

    function At(c: Cell): Byte
      requires Valid() && c.index < BankSize
    {
      if c.bank == 0 then bank0[c.index] else bank1[c.index]
    }

    function Store(c: Cell, v: Byte): (r: Banks)
      requires Valid() && c.index < BankSize
      ensures r.Valid()
    {
      if c.bank == 0 then this.(bank0 := bank0[c.index := v]) else this.(bank1 := bank1[c.index := v])
    }
  }

  /** `IBusSlave.Read`: the byte the address designates. */
  function ReadAt(mode: MirroringMode, b: Banks, address: Word): Result<Byte>
    requires b.Valid()
  {
    var c :- Locate(mode, address);
    Ok(b.At(c))
  }

  /** `IBusSlave.Write`: store through the designated reference. */
  function WriteAt(mode: MirroringMode, b: Banks, address: Word, v: Byte): Result<Banks>
    requires b.Valid()
  {
    var c :- Locate(mode, address);
    Ok(b.Store(c, v))
  }

  /** After a write, reading the written address or its mirror image gives
      the written byte, and every other address reads as before. */
  lemma WriteThenRead(mode: MirroringMode, b: Banks, a: Word, x: Word, v: Byte)
    requires b.Valid() && !mode.Undefined? && a < 0x1000 && x < 0x1000
    ensures WriteAt(mode, b, a, v).Ok?
    ensures WriteAt(mode, b, a, v).value.Valid()
    ensures ReadAt(mode, WriteAt(mode, b, a, v).value, x) ==
      if x == a || x == Partner(mode, a) then Ok(v) else ReadAt(mode, b, x)
  {
    SameCellIffMirrored(mode, a, x);
    LocateWindows(mode, a);
    LocateWindows(mode, x);
  }

  class NametableMirrorController {
    var mirroringMode: MirroringMode
    const nametable0: array<Byte>
    const nametable1: array<Byte>

    ghost predicate Valid()
      reads this
    {
      nametable0.Length == BankSize && nametable1.Length == BankSize && nametable0 != nametable1
    }

    /** The two banks as values. */
    ghost function Contents(): (r: Banks)
      requires Valid()
      reads this, nametable0, nametable1
      ensures r.Valid()
    {
      Banks(nametable0[..], nametable1[..])
    }

    /** Both banks start zeroed; the mode field starts at the enum's zero
        value, Horizontal. */
    constructor ()
      ensures Valid() && fresh(nametable0) && fresh(nametable1)
      ensures mirroringMode == Horizontal
      ensures Contents() == Banks(seq(BankSize, _ => 0), seq(BankSize, _ => 0))
    {
      mirroringMode := Horizontal;
      nametable0 := new Byte[BankSize](_ => 0);
      nametable1 := new Byte[BankSize](_ => 0);
    }

    /** The `MirroringMode` setter. */
    method SetMirroringMode(mode: MirroringMode)
      modifies this`mirroringMode
      ensures mirroringMode == mode
    {
      mirroringMode := mode;
    }

    method Read(address: Word) returns (r: Result<Byte>)
      requires Valid()
      ensures r == ReadAt(mirroringMode, Contents(), address)
    {
      var c := Locate(mirroringMode, address);
      if c.Err? {
        return Err(c.error);
      }
      var cell := c.value;
      if cell.bank == 0 {
        r := Ok(nametable0[cell.index]);
      } else {
        r := Ok(nametable1[cell.index]);
      }
    }

    method Write(address: Word, value: Byte) returns (o: Outcome)
      requires Valid()
      modifies nametable0, nametable1
      ensures var w := WriteAt(old(mirroringMode), old(Contents()), address, value);
              && o == (if w.Ok? then Pass else Fail(w.error))
              && Contents() == if w.Ok? then w.value else old(Contents())
    {
      var c := Locate(mirroringMode, address);
      if c.Err? {
        return Fail(c.error);
      }
      var cell := c.value;
      if cell.bank == 0 {
        nametable0[cell.index] := value;
      } else {
        nametable1[cell.index] := value;
      }
      o := Pass;
    }
  }
}
