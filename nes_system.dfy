/** The console's wiring (NesSystem.cs): a clock, a bus, the CPU, the 2 KiB
    on-chip RAM mirrored four times, and the cartridge window. */
module NesSystems {
  import opened Bytes
  import opened Wrappers
  import opened AddressBus
  import opened Clocks
  import opened OnChipMemory
  import opened Cartridges

  /** `OnChipRAMSize`. */
  const OnChipRamSize: Word := 0x800

  /** The bus devices and clock sinks of a console. */
  const RamDevice: DeviceId := 0
  const CartridgeDevice: DeviceId := 1
  const CpuSink: SinkId := 0
  const RamSink: SinkId := 1

  /** Both directions, the default `SlaveAccess` of `AddSlave`. */
  const ReadWrite := Access(true, true)

  function RamAt(base: Word): Registration {
    Registration(base, RamDevice, OnChipRamSize)
  }

  /** The cartridge's window: its CPU face, 0xBFE0 bytes from 0x4020. */
  const CartridgeWindow := Registration(0x4020, CartridgeDevice, CpuWindowSize)

  /** Both lists after construction, in the bus's descending key order. */
  const SystemMap: seq<Registration> :=
    [CartridgeWindow, RamAt(0x1800), RamAt(0x1000), RamAt(0x800), RamAt(0)]

  /** The registrations of the constructor, in order. */
  const Wiring: seq<Registration> := [RamAt(0), RamAt(0x800), RamAt(0x1000), RamAt(0x1800), CartridgeWindow]

  /** The registrations made by the first `k` calls of the constructor:
      the last `k` entries of the system map. */
  function Stage(k: nat): seq<Registration>
    requires k <= 5
  {
    SystemMap[5 - k..]
  }

  /** The four RAM mirrors and the cartridge window overlap nowhere: each
      `AddSlave` of the constructor passes, puts its window at the front of
      both lists, and after the last one both lists are the system map. */
  lemma WiringStep(k: nat)
    requires k < 5
    ensures AddSlaveSpec(Registry(Stage(k), Stage(k), true), Wiring[k], ReadWrite)
         == (Pass, Registry(Stage(k + 1), Stage(k + 1), true))
    ensures Stage(5) == SystemMap
  {
    NoClash(Stage(k), Wiring[k]);
    assert [Wiring[k]] + Stage(k) == Stage(k + 1);
  }

  /** No window of a descending list reaches the base of a new window that
      lies above all of them, so the new one is inserted at the front. */
  lemma NoClash(regs: seq<Registration>, r: Registration)
    requires forall i :: 0 <= i < |regs| ==> regs[i].base + regs[i].size <= r.base
    requires forall i :: 0 <= i < |regs| ==> regs[i].base < r.base
    requires r.base + r.size <= 0x1_0000
    ensures AddTo(regs, r) == Ok([r] + regs)
  {
    forall i | 0 <= i < |regs| ensures !WindowRange(r).Overlaps(WindowRange(regs[i])) {
    }
    if regs == [] {
      assert [r] + regs == [r];
    }
  }

  lemma LookupCons(r: Registration, rest: seq<Registration>, a: Word)
    ensures Lookup([r] + rest, a) == if Selects(r, a) then Some(Target(r.device, a - r.base)) else Lookup(rest, a)
  {
    assert ([r] + rest)[1..] == rest;
  }

  /** Every address below 0x2000 reaches the RAM at its offset modulo the
      RAM size; the cartridge takes 0x4020 and up; and 0x2000..0x401F
      belongs to nobody in this wiring. */
  lemma SystemMapLookup(a: Word)
    ensures a < 0x2000 ==> Lookup(SystemMap, a) == Some(Target(RamDevice, a % 0x800))
    ensures 0x2000 <= a < 0x4020 ==> Lookup(SystemMap, a) == None
    ensures 0x4020 <= a ==> Lookup(SystemMap, a) == Some(Target(CartridgeDevice, a - 0x4020))
  {
    LookupCons(CartridgeWindow, Stage(4), a);
    LookupCons(RamAt(0x1800), Stage(3), a);
    LookupCons(RamAt(0x1000), Stage(2), a);
    LookupCons(RamAt(0x800), Stage(1), a);
    LookupCons(RamAt(0), Stage(0), a);
    assert SystemMap == [CartridgeWindow] + Stage(4);
    assert Stage(4) == [RamAt(0x1800)] + Stage(3);
    assert Stage(3) == [RamAt(0x1000)] + Stage(2);
    assert Stage(2) == [RamAt(0x800)] + Stage(1);
    assert Stage(1) == [RamAt(0)] + Stage(0);
  }

  /** The older CPU's power-up writes 0x4017, 0x4015 and 0x4000..0x400F
      (CPU.cs:976-982). In this wiring no window covers them, so each of
      those writes on the system bus throws AccessViolation. */
  lemma PowerUpWritesUnmapped(a: Word)
    requires a == 0x4017 || a == 0x4015 || 0x4000 <= a <= 0x400F
    ensures Lookup(SystemMap, a) == None
    ensures Resolve(Lookup(SystemMap, a)) == Err(AccessViolation)
  {
    SystemMapLookup(a);
  }

  /** The constructor's five `AddSlave` calls on a fresh bus. */
  method Wire(b: Bus)
    requires b.Valid() && b.Registrations() == Registry([], [], true)
    modifies b`slavesRead, b`slavesWrite, b`dirty
    ensures b.Valid() && b.Registrations() == Registry(SystemMap, SystemMap, true)
  {
    WiringStep(0);
    var o := b.AddSlave(0x0000, RamDevice, OnChipRamSize, ReadWrite);
    WiringStep(1);
    o := b.AddSlave(0x0800, RamDevice, OnChipRamSize, ReadWrite);
    WiringStep(2);
    o := b.AddSlave(0x1000, RamDevice, OnChipRamSize, ReadWrite);
    WiringStep(3);
    o := b.AddSlave(0x1800, RamDevice, OnChipRamSize, ReadWrite);
    WiringStep(4);
    o := b.AddSlave(0x4020, CartridgeDevice, CpuWindowSize, ReadWrite);
  }

  class NesSystem {
    const clock: Clock
    const bus: Bus
    const onChipRam: OnChipRAM
    const cartridge: Cartridge

    ghost predicate Valid()
      reads this, bus, bus.readMap, bus.writeMap, onChipRam
    {
      bus.Valid() && onChipRam.Valid() && onChipRam.size == OnChipRamSize
    }

    /** The CPU and the RAM become 1x clock sinks, CPU first; the RAM is
        registered at 0x0000, 0x0800, 0x1000 and 0x1800 and the cartridge
        at 0x4020, all for both directions. The clock's frequency, which the
        source does not pass, is a parameter. */
    constructor (frequency: nat)
      ensures Valid() && fresh(clock) && fresh(bus) && fresh(bus.readMap) && fresh(bus.writeMap)
      ensures fresh(onChipRam) && fresh(cartridge)
      ensures clock.clockSinks == [CpuSink, RamSink] && clock.clock3Sinks == [] && clock.calls == []
      ensures bus.Registrations() == Registry(SystemMap, SystemMap, true) && !bus.isUsed
      ensures onChipRam.ram[..] == ByteStore.Zeros(OnChipRamSize) && cartridge.mapper == null
    {
      var c := new Clock(frequency);
      var b := new Bus();
      c.AddSink(CpuSink);
      var ram := new OnChipRAM(OnChipRamSize);
      c.AddSink(RamSink);
      var cart := new Cartridge();
      Wire(b);
      clock, bus, onChipRam, cartridge := c, b, ram, cart;
    }

    /** `PowerUp`: the clock's power-up broadcast. */
    method PowerUp()
      modifies clock`calls, clock`actualAge
      ensures clock.calls == old(clock.calls) + Calls(clock.clockSinks, OnPowerUp) + Calls(clock.clock3Sinks, OnPowerUp)
      ensures clock.actualAge == 0
    {
      clock.PowerUp();
    }

    /** `Reset`: the clock's reset broadcast. */
    method Reset()
      modifies clock`calls
      ensures clock.calls == old(clock.calls) + Calls(clock.clockSinks, OnReset) + Calls(clock.clock3Sinks, OnReset)
    {
      clock.Reset();
    }
  }

  /** On a freshly wired console the power-up hooks reach the CPU and then
      the RAM, and a master cycle ticks the CPU and then the RAM. */
  lemma WiredOrder()
    ensures Calls([CpuSink, RamSink], OnPowerUp) + Calls([], OnPowerUp) == [Call(CpuSink, OnPowerUp), Call(RamSink, OnPowerUp)]
    ensures CycleCalls([CpuSink, RamSink], []) == [Call(CpuSink, OnTick), Call(RamSink, OnTick)]
  {
    assert [CpuSink, RamSink][1..] == [RamSink];
    assert [RamSink][1..] == [];
    assert Calls([RamSink], OnTick) == [Call(RamSink, OnTick)];
    assert Calls([RamSink], OnPowerUp) == [Call(RamSink, OnPowerUp)];
    assert Calls([CpuSink, RamSink], OnTick) == [Call(CpuSink, OnTick), Call(RamSink, OnTick)];
    Repeat3(Calls([], OnTick));
  }
}
