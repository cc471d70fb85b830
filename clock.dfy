/** The master clock (Clock.cs): sinks registered at the CPU rate and at
    three times that rate, the power-up and reset broadcasts, and the tick
    order of one master cycle. A sink is an arbitrary `IClockSink`; its
    hooks' effects are recorded as the sequence of calls the clock makes. */
module Clocks {

  /** A clock sink, named by whoever wires the system. */
  type SinkId = nat

  /** The three `IClockSink` hooks. */
  datatype Hook = OnPowerUp | OnReset | OnTick

  datatype Call = Call(sink: SinkId, hook: Hook)

  /** `sinks.ForEach(o => o.Hook())`: the hook on every sink in list order. */
  function Calls(sinks: seq<SinkId>, h: Hook): seq<Call> {
    if sinks == [] then [] else [Call(sinks[0], h)] + Calls(sinks[1..], h)
  }

  /** The i-th call of a broadcast goes to the i-th sink. */
  lemma {:induction false} CallsOrder(sinks: seq<SinkId>, h: Hook, i: nat)
    requires i < |sinks|
    ensures |Calls(sinks, h)| == |sinks| && Calls(sinks, h)[i] == Call(sinks[i], h)
  {
    CallsLength(sinks, h);
    if i > 0 {
      CallsOrder(sinks[1..], h, i - 1);
    }
  }

  lemma {:induction false} CallsLength(sinks: seq<SinkId>, h: Hook)
    ensures |Calls(sinks, h)| == |sinks|
  {
    if sinks != [] {
      CallsLength(sinks[1..], h);
    }
  }

  /** A broadcast over a list extended by one sink is the old broadcast
      followed by one call. */
  lemma {:induction false} CallsSnoc(sinks: seq<SinkId>, s: SinkId, h: Hook)
    ensures Calls(sinks + [s], h) == Calls(sinks, h) + [Call(s, h)]
  {
    if sinks != [] {
      assert (sinks + [s])[1..] == sinks[1..] + [s];
      CallsSnoc(sinks[1..], s, h);
    }
  }

  /** Each sink receives the hook as often as it is registered. */
  lemma {:induction false} CallsCount(sinks: seq<SinkId>, h: Hook, x: SinkId)
    ensures multiset(Calls(sinks, h))[Call(x, h)] == multiset(sinks)[x]
  {
    if sinks != [] {
      CallsCount(sinks[1..], h, x);
      assert sinks == [sinks[0]] + sinks[1..];
    }
  }

  /** The calls of one master cycle: every 1x sink ticks, then three full
      passes over the 3x sinks. */
  function CycleCalls(ones: seq<SinkId>, threes: seq<SinkId>): seq<Call> {
    Calls(ones, OnTick) + Repeat(Calls(threes, OnTick), 3)
  }

  /** `k` copies of a call sequence, one after the other. */
  function Repeat(calls: seq<Call>, k: nat): seq<Call> {
    if k == 0 then [] else Repeat(calls, k - 1) + calls
  }

  /** `n` master cycles in a row. */
  function Cycles(ones: seq<SinkId>, threes: seq<SinkId>, n: nat): seq<Call> {
    if n == 0 then [] else Cycles(ones, threes, n - 1) + CycleCalls(ones, threes)
  }

  lemma Repeat3(calls: seq<Call>)
    ensures Repeat(calls, 3) == calls + calls + calls
  {
    assert Repeat(calls, 1) == calls;
  }

  /** In one master cycle a 1x sink ticks once per registration and a 3x
      sink three times, and every call is a tick. */
  lemma CycleTickCount(ones: seq<SinkId>, threes: seq<SinkId>, x: SinkId)
    ensures multiset(CycleCalls(ones, threes))[Call(x, OnTick)] == multiset(ones)[x] + 3 * multiset(threes)[x]
    ensures multiset(CycleCalls(ones, threes))[Call(x, OnPowerUp)] == 0
  {
    CallsCount(ones, OnTick, x);
    CallsCount(threes, OnTick, x);
    Repeat3(Calls(threes, OnTick));
    NoOtherHook(ones, OnTick, Call(x, OnPowerUp));
    NoOtherHook(threes, OnTick, Call(x, OnPowerUp));
  }

  /** A broadcast makes only calls of its own hook. */
  lemma {:induction false} NoOtherHook(sinks: seq<SinkId>, h: Hook, c: Call)
    requires c.hook != h
    ensures multiset(Calls(sinks, h))[c] == 0
  {
    if sinks != [] {
      NoOtherHook(sinks[1..], h, c);
    }
  }

  /** With the CPU as the only 1x sink and the PPU as the only 3x sink, a
      master cycle ticks CPU, PPU, PPU, PPU. */
  lemma CpuThenThreePpuTicks(cpu: SinkId, ppu: SinkId)
    ensures CycleCalls([cpu], [ppu]) == [Call(cpu, OnTick), Call(ppu, OnTick), Call(ppu, OnTick), Call(ppu, OnTick)]
  {
    assert [cpu][1..] == [] && [ppu][1..] == [];
    assert Calls([cpu], OnTick) == [Call(cpu, OnTick)];
    assert Calls([ppu], OnTick) == [Call(ppu, OnTick)];
    Repeat3([Call(ppu, OnTick)]);
  }

  class Clock {
    var clockSinks: seq<SinkId>
    var clock3Sinks: seq<SinkId>
    var actualAge: int
    const frequency: nat
    /** The hook calls made so far, in order. */
    var calls: seq<Call>

    constructor (frequency: nat)
      ensures clockSinks == [] && clock3Sinks == [] && actualAge == 0 && calls == []
      ensures this.frequency == frequency
    {
      clockSinks, clock3Sinks := [], [];
      actualAge := 0;
      this.frequency := frequency;
      calls := [];
    }

    /** `AddSink`: append to the 1x list. */
    method AddSink(sink: SinkId)
      modifies this`clockSinks
      ensures clockSinks == old(clockSinks) + [sink]
    {
      clockSinks := clockSinks + [sink];
    }

    /** `Add3TimesSink`: append to the 3x list. */
    method Add3TimesSink(sink: SinkId)
      modifies this`clock3Sinks
      ensures clock3Sinks == old(clock3Sinks) + [sink]
    {
      clock3Sinks := clock3Sinks + [sink];
    }

    /** `List.ForEach` of one hook. */
    method Broadcast(sinks: seq<SinkId>, h: Hook)
      modifies this`calls
      ensures calls == old(calls) + Calls(sinks, h)
    {
      for i := 0 to |sinks|
        invariant calls == old(calls) + Calls(sinks[..i], h)
      {
        CallsSnoc(sinks[..i], sinks[i], h);
        assert sinks[..i + 1] == sinks[..i] + [sinks[i]];
        calls := calls + [Call(sinks[i], h)];
      }
      assert sinks[..|sinks|] == sinks;
    }

    /** The part of `PowerUp` before the pacing loop: power-up on every 1x
        sink, then on every 3x sink, and the cycle counter to zero. */
    method PowerUp()
      modifies this`calls, this`actualAge
      ensures calls == old(calls) + Calls(clockSinks, OnPowerUp) + Calls(clock3Sinks, OnPowerUp)
      ensures actualAge == 0
    {
      Broadcast(clockSinks, OnPowerUp);
      Broadcast(clock3Sinks, OnPowerUp);
      actualAge := 0;
    }

    /** One pass of the inner `while (updateTimes > 0)` body: the 1x sinks,
        three passes over the 3x sinks, and the age counter. */
    method MasterCycle()
      modifies this`calls, this`actualAge
      ensures calls == old(calls) + CycleCalls(clockSinks, clock3Sinks)
      ensures actualAge == old(actualAge) + 1
    {
      Broadcast(clockSinks, OnTick);
      ghost var start := calls;
      for i := 0 to 3
        invariant calls == start + Repeat(Calls(clock3Sinks, OnTick), i)
        invariant actualAge == old(actualAge)
      {
        ghost var before := calls;
        Broadcast(clock3Sinks, OnTick);
        assert calls == before + Calls(clock3Sinks, OnTick);
      }
      actualAge := actualAge + 1;
    }

    /** The inner catch-up loop: `updateTimes` master cycles (none when it
        is not positive). */
    method CatchUp(updateTimes: int)
      modifies this`calls, this`actualAge
      ensures var n := if updateTimes > 0 then updateTimes else 0;
              calls == old(calls) + Cycles(clockSinks, clock3Sinks, n) && actualAge == old(actualAge) + n
    {
      var remaining := updateTimes;
      ghost var done: nat := 0;
      ghost var n := if updateTimes > 0 then updateTimes else 0;
      while remaining > 0
        invariant remaining == updateTimes - done && done <= n
        invariant calls == old(calls) + Cycles(clockSinks, clock3Sinks, done)
        invariant actualAge == old(actualAge) + done
      {
        MasterCycle();
        remaining := remaining - 1;
        done := done + 1;
      }
    }

    /** `Reset`: reset on every 1x sink, then on every 3x sink; the age is
        not touched. */
    method Reset()
      modifies this`calls
      ensures calls == old(calls) + Calls(clockSinks, OnReset) + Calls(clock3Sinks, OnReset)
    {
      Broadcast(clockSinks, OnReset);
      Broadcast(clock3Sinks, OnReset);
    }
  }
}
