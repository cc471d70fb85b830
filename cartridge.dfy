/** The cartridge slot (Cartridge.cs): one mapper behind two bus-slave
    faces, a CPU window of 0xBFE0 bytes and a PPU window of 0x2000 bytes,
    both forwarding the offset unchanged. */
module Cartridges {
  import opened Bytes
  import opened Wrappers
  import opened ByteStore
  import opened Mappers

  /** `CPUSlaveProvidere.MemoryMapSize` and `PPUSlaveProvidere.MemoryMapSize`. */
  const CpuWindowSize: Word := 0xBFE0
  const PpuWindowSize: Word := 0x2000

  /** What a slave read sees through a cartridge's current mapper: a
      forward to `_mapper.Read`, or NullReferenceException before a
      cartridge is inserted. */
  function ForwardRead(rom: Option<seq<Byte>>, address: Word): Result<Byte> {
    if rom.None? then Err(NullReference) else ReadCell(rom.value, address)
  }

  class Cartridge {
    var mapper: Mapper0?
    var cpuSlave: CpuSlaveProvider?
    var ppuSlave: PpuSlaveProvider?

    ghost predicate Valid()
      reads this, cpuSlave, ppuSlave
    {
      cpuSlave != null && ppuSlave != null && cpuSlave.cartridge == this && ppuSlave.cartridge == this
    }

    /** The bytes behind the current mapper, if there is one. */
    function Rom(): Option<seq<Byte>>
      reads this, mapper, if mapper == null then {} else {mapper.rom}
    {
      if mapper == null then None else Some(mapper.rom[..])
    }

    /** Both providers refer back to this cartridge; no mapper yet. */
    constructor ()
      ensures Valid() && mapper == null && fresh(cpuSlave) && fresh(ppuSlave)
    {
      mapper := null;
      new;
      cpuSlave := new CpuSlaveProvider(this);
      ppuSlave := new PpuSlaveProvider(this);
    }

    /** `InsertNesFile`: a new mapper over the image's ROM replaces the
        current one. */
    method InsertNesFile(rom: array<Byte>)
      modifies this`mapper
      ensures mapper != null && fresh(mapper) && mapper.rom == rom
    {
      mapper := new Mapper0(rom);
    }
  }

  /** The body shared by both providers' `Read`. */
  method MapperRead(c: Cartridge, address: Word) returns (r: Result<Byte>)
    ensures r == ForwardRead(c.Rom(), address)
  {
    if c.mapper == null {
      return Err(NullReference);
    }
    r := c.mapper.Read(address);
  }

  /** The body shared by both providers' `Write`. */
  method MapperWrite(c: Cartridge, address: Word, value: Byte) returns (o: Outcome)
    modifies if c.mapper == null then {} else {c.mapper.rom}
    ensures c.mapper == null ==> o == Fail(NullReference)
    ensures c.mapper != null ==>
      var w := WriteCell(old(c.mapper.rom[..]), address, value);
      && o == (if w.Ok? then Pass else Fail(w.error))
      && c.mapper.rom[..] == if w.Ok? then w.value else old(c.mapper.rom[..])
  {
    if c.mapper == null {
      return Fail(NullReference);
    }
    o := c.mapper.Write(address, value);
  }

  class CpuSlaveProvider {
    const cartridge: Cartridge

    constructor (cartridge: Cartridge)
      ensures this.cartridge == cartridge
    {
      this.cartridge := cartridge;
    }

    method Read(address: Word) returns (r: Result<Byte>)
      ensures r == ForwardRead(cartridge.Rom(), address)
    {
      r := MapperRead(cartridge, address);
    }

    method Write(address: Word, value: Byte) returns (o: Outcome)
      modifies if cartridge.mapper == null then {} else {cartridge.mapper.rom}
      ensures cartridge.mapper == null ==> o == Fail(NullReference)
      ensures cartridge.mapper != null ==>
        var w := WriteCell(old(cartridge.mapper.rom[..]), address, value);
        && o == (if w.Ok? then Pass else Fail(w.error))
        && cartridge.mapper.rom[..] == if w.Ok? then w.value else old(cartridge.mapper.rom[..])
    {
      o := MapperWrite(cartridge, address, value);
    }
  }

  class PpuSlaveProvider {
    const cartridge: Cartridge

    constructor (cartridge: Cartridge)
      ensures this.cartridge == cartridge
    {
      this.cartridge := cartridge;
    }

    method Read(address: Word) returns (r: Result<Byte>)
      ensures r == ForwardRead(cartridge.Rom(), address)
    {
      r := MapperRead(cartridge, address);
    }

    method Write(address: Word, value: Byte) returns (o: Outcome)
      modifies if cartridge.mapper == null then {} else {cartridge.mapper.rom}
      ensures cartridge.mapper == null ==> o == Fail(NullReference)
      ensures cartridge.mapper != null ==>
        var w := WriteCell(old(cartridge.mapper.rom[..]), address, value);
        && o == (if w.Ok? then Pass else Fail(w.error))
        && cartridge.mapper.rom[..] == if w.Ok? then w.value else old(cartridge.mapper.rom[..])
    {
      o := MapperWrite(cartridge, address, value);
    }
  }

  /** The two windows alias one array: a byte stored through either face
      is what both faces read back at the same offset. */
  lemma WindowsAlias(rom: seq<Byte>, a: Word, b: Word, v: Byte)
    requires a < |rom|
    ensures WriteCell(rom, a, v).Ok?
    ensures ForwardRead(Some(WriteCell(rom, a, v).value), b) ==
      if b == a then Ok(v) else ForwardRead(Some(rom), b)
  {
    WriteThenRead(rom, a, b, v);
  }
}
