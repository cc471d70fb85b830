/** iNES mapper 0 (Mappers/Mapper0.cs): reads and writes go straight to
    the ROM array it was constructed with. */
module Mappers {
  import opened Bytes
  import opened Wrappers
  import opened ByteStore

  class Mapper0 {
    const rom: array<Byte>

    /** The mapper keeps the caller's array itself, not a copy. */
    constructor (rom: array<Byte>)
      ensures this.rom == rom
    {
      this.rom := rom;
    }

    /** `Read(address)`: `_rom[address]`. */
    method Read(address: Word) returns (r: Result<Byte>)
      ensures r == ReadCell(rom[..], address)
      ensures address < rom.Length ==> r == Ok(rom[address])
    {
      if address >= rom.Length {
        return Err(IndexOutOfRange);
      }
      r := Ok(rom[address]);
    }

    /** `Write(address, value)`: the store is accepted, ROM or not. */
    method Write(address: Word, value: Byte) returns (o: Outcome)
      modifies rom
      ensures var w := WriteCell(old(rom[..]), address, value);
              && o == (if w.Ok? then Pass else Fail(w.error))
              && rom[..] == if w.Ok? then w.value else old(rom[..])
    {
      if address >= rom.Length {
        return Fail(IndexOutOfRange);
      }
      rom[address] := value;
      o := Pass;
    }
  }
}
