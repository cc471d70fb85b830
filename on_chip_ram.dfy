/** The console's work RAM (OnChipRAM.cs): a byte array of the size given
    at construction, addressed by the offset the bus hands over. */
module OnChipMemory {
  import opened Bytes
  import opened Wrappers
  import opened ByteStore

  class OnChipRAM {
    const size: Word
    const ram: array<Byte>

    ghost predicate Valid()
      reads this
    {
      ram.Length == size
    }

    constructor (size: Word)
      ensures Valid() && fresh(ram) && this.size == size && ram[..] == Zeros(size)
    {
      this.size := size;
      ram := new Byte[size](_ => 0);
    }

    /** `IBusSlave.MemoryMapSize`: the footprint is the array's size. */
    function MemoryMapSize(): (r: Word)
      requires Valid()
      reads this
      ensures r == ram.Length
    {
      size
    }

    /** `IClockSink.OnPowerUp`: `Array.Clear` over the whole array. */
    method OnPowerUp()
      requires Valid()
      modifies ram
      ensures ram[..] == Zeros(size)
    {
      for i := 0 to ram.Length
        invariant forall k :: 0 <= k < i ==> ram[k] == 0
      {
        ram[i] := 0;
      }
    }

    /** `IClockSink.OnReset` and `OnTick` have empty bodies. */
    method OnReset() {
    }

    method OnTick() {
    }

    /** `IBusSlave.Read`: `_ram[address]`. */
    method Read(address: Word) returns (r: Result<Byte>)
      requires Valid()
      ensures r == ReadCell(ram[..], address)
      ensures address < size ==> r == Ok(ram[address])
    {
      if address >= ram.Length {
        return Err(IndexOutOfRange);
      }
      r := Ok(ram[address]);
    }

    /** `IBusSlave.Write`: `_ram[address] = value`. */
    method Write(address: Word, value: Byte) returns (o: Outcome)
      requires Valid()
      modifies ram
      ensures var w := WriteCell(old(ram[..]), address, value);
              && o == (if w.Ok? then Pass else Fail(w.error))
              && ram[..] == if w.Ok? then w.value else old(ram[..])
    {
      if address >= ram.Length {
        return Fail(IndexOutOfRange);
      }
      ram[address] := value;
      o := Pass;
    }
  }
}
