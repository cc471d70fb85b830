/** The sprite-memory DMA unit (OamDmaController.cs): a write of page p to
    its one register takes the bus and copies the 256 bytes p00..pFF, one
    per tick, to the PPU's OAM data port, then gives the bus back. */
module OamDma {
  import opened Bytes
  import opened Wrappers
  import opened MasterBus

  /** The address every transferred byte is written to. */
  const OamDataPort: Word := 0x2014

  /** `IBusSlave.MemoryMapSize`. */
  const MemoryMapSize: nat := 1

  /** `_writeCount`, `_enabled` and `_srcAddr`. */
  datatype DmaState = DmaState(writeCount: Byte, enabled: bool, srcAddr: Word)

  /** `StartOMADMA(page)`: count from zero, source `page << 8`, take the
      bus, enable. */
  function Start(bus: FlatBus, page: Byte): (DmaState, FlatBus) {
    (DmaState(0, true, page * 0x100), bus.Acquire())
  }

  /** `IClockSink.OnTick`: when enabled, read the source byte (advancing
      the 16-bit source address), write it to the OAM port and count it;
      the byte counter wrapping to zero ends the transfer and releases the
      bus. A disabled tick does nothing. */
  function Step(s: DmaState, bus: FlatBus): (DmaState, FlatBus) {
    if !s.enabled then (s, bus)
    else
      var b := bus.Read(s.srcAddr).Write(OamDataPort);
      var count := Wrap8(s.writeCount + 1);
      var next := Wrap16(s.srcAddr + 1);
      if count == 0 then (DmaState(count, false, next), b.Release())
      else (DmaState(count, true, next), b)
  }

  /** `n` ticks in a row. */
  function Steps(s: DmaState, bus: FlatBus, n: nat): (DmaState, FlatBus) {
    if n == 0 then (s, bus) else var (t, b) := Steps(s, bus, n - 1); Step(t, b)
  }

  /** One enabled tick copies the byte at the source address to the OAM
      port and leaves every other memory byte alone. */
  lemma StepTransfers(s: DmaState, bus: FlatBus, a: Word)
    requires s.enabled
    ensures var (_, b) := Step(s, bus);
            && b.value == bus.mem[s.srcAddr] && b.mem[OamDataPort] == bus.mem[s.srcAddr]
            && (a != OamDataPort ==> b.mem[a] == bus.mem[a])
  {
  }

  /** After a start at page p and k <= 256 ticks, k bytes have been copied:
      the counter is k mod 256, the source is (p << 8) + k, the transfer
      and the bus hold are on until the 256th tick, and only the OAM port
      has been written. So tick number k (counting from 0) reads address
      (p << 8) + k, for k = 0..255. */
  lemma {:induction false} TransferProgress(bus: FlatBus, page: Byte, k: nat, a: Word)
    requires k <= 256
    ensures var (s0, b0) := Start(bus, page);
            var (s, b) := Steps(s0, b0, k);
            && s == DmaState(k % 256, k < 256, Wrap16(page * 0x100 + k))
            && b.used == (k < 256)
            && (a != OamDataPort ==> b.mem[a] == bus.mem[a])
  {
    var (s0, b0) := Start(bus, page);
    if k > 0 {
      TransferProgress(bus, page, k - 1, a);
      var (t, c) := Steps(s0, b0, k - 1);
      StepTransfers(t, c, a);
      Wrap16Add(page * 0x100 + k - 1, 1);
    }
  }

  /** Once the 256th tick has switched the transfer off, further ticks
      change nothing. */
  lemma {:induction false} TransferEnds(bus: FlatBus, page: Byte, j: nat)
    ensures var (s0, b0) := Start(bus, page);
            Steps(s0, b0, 256 + j) == Steps(s0, b0, 256)
  {
    var (s0, b0) := Start(bus, page);
    if j > 0 {
      TransferEnds(bus, page, j - 1);
      TransferProgress(bus, page, 256, 0);
    }
  }

  class OamDmaController {
    var writeCount: Byte
    var enabled: bool
    var srcAddr: Word
    /** What the controller's `IBusMasterClient` sees and does. */
    var bus: FlatBus

    function State(): DmaState
      reads this
    {
      DmaState(writeCount, enabled, srcAddr)
    }

    /** The fields start at their zero values. */
    constructor (bus: FlatBus)
      ensures State() == DmaState(0, false, 0) && this.bus == bus
    {
      writeCount, enabled, srcAddr := 0, false, 0;
      this.bus := bus;
    }

    /** `IBusSlave.Read` always throws. */
    method Read(address: Word) returns (r: Result<Byte>)
      ensures r == Err(NotSupported)
    {
      r := Err(NotSupported);
    }

    /** `IBusSlave.Write`: offset 0 starts a transfer from page `value`;
        any other offset throws. */
    method Write(address: Word, value: Byte) returns (o: Outcome)
      modifies this
      ensures address == 0 ==> o == Pass && (State(), bus) == Start(old(bus), value)
      ensures address != 0 ==> o == Fail(NotSupported) && State() == old(State()) && bus == old(bus)
    {
      if address == 0 {
        StartOamDma(value);
        o := Pass;
      } else {
        o := Fail(NotSupported);
      }
    }

    /** `StartOMADMA(page)`. */
    method StartOamDma(page: Byte)
      modifies this
      ensures (State(), bus) == Start(old(bus), page)
    {
      writeCount := 0;
      srcAddr := page * 0x100;
      bus := bus.Acquire();
      enabled := true;
    }

    /** `IClockSink.OnTick`. */
    method OnTick()
      modifies this
      ensures (State(), bus) == Step(old(State()), old(bus))
    {
      if enabled {
        bus := bus.Read(srcAddr);
        srcAddr := Wrap16(srcAddr + 1);
        bus := bus.Write(OamDataPort);
        writeCount := Wrap8(writeCount + 1);
        if writeCount == 0 {
          enabled := false;
          bus := bus.Release();
        }
      }
    }

    /** `IClockSink.OnPowerUp` and `OnReset` have empty bodies. */
    method OnPowerUp() {
    }

    method OnReset() {
    }
  }
}
