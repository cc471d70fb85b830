/** Whole instructions of the older engine (CPU.cs), tick by tick: the
    subroutine call and return, and the page-zero and absolute indexed
    address formation. */
module LegacyCpuSequences {
  import opened Bytes
  import opened Wrappers
  import opened Processor
  import opened MasterBus
  import opened LegacyCpu

  /** A tick that succeeds hands the rest of the run to its result. */
  lemma TicksStep(c: Core, c1: Core, n: nat)
    requires Tick(c) == Ok(c1)
    ensures Ticks(c, n + 1) == Ticks(c1, n)
  {
  }

  /** An idle engine: nothing pending and no opcode being read. */
  predicate Idle(c: Core) {
    c.micro == MicroCode.None && c.next == OpCodeStatus.None && !c.reading
  }

  /** The push micro-code with `v` in `_tempValue`. */
  function Pushed(c: Core, v: Byte): Core {
    c.(temp := v, bus := c.bus.Latch(v).Write(StackAddress(c.regs.s)),
       regs := c.regs.(s := Wrap8(c.regs.s - 1)), micro := MicroCode.None)
  }

  /** The pop micro-code. */
  function Popped(c: Core): Core {
    var s := Wrap8(c.regs.s + 1);
    var b := c.bus.Read(StackAddress(s));
    c.(bus := b, regs := c.regs.(s := s), temp := b.value, micro := MicroCode.None)
  }

  lemma FetchTick(c: Core)
    requires Idle(c)
    ensures Tick(c) == Ok(Fetch(c.(reading := true)))
  {
  }

  /** JSR, tick 2: decode, then push the high byte of PC + 1. */
  lemma JsrTick2(c: Core)
    requires c.micro == MicroCode.None && c.next == OpCodeStatus.None && c.reading && c.bus.value == 0x20
    ensures Tick(c) == Ok(Pushed(c.(reading := false), Hi(Wrap16(c.regs.pc + 1))).(next := JSR_2_Absolute))
  {
  }

  /** With a status pending and no micro-code, a tick continues it. */
  lemma TickContinues(c: Core)
    requires c.micro == MicroCode.None && c.next != OpCodeStatus.None
    ensures Tick(c) == Continue(c)
  {
  }

  /** JSR, tick 3: push the low byte of PC + 1. */
  lemma JsrTick3(c: Core)
    requires c.micro == MicroCode.None && c.next == JSR_2_Absolute
    ensures Tick(c) == Ok(Pushed(c, Lo(Wrap16(c.regs.pc + 1))).(next := JSR_3_Absolute))
  {
    TickContinues(c);
    assert StatusStep(c, JSR_2_Absolute) == Ok(Then(c.(temp := Lo(Wrap16(c.regs.pc + 1))), Push, JSR_3_Absolute));
  }

  /** JSR, tick 4: describe a jump and fetch the target's low byte. */
  lemma JsrTick4(c: Core)
    requires c.micro == MicroCode.None && c.next == JSR_3_Absolute
    ensures var c1 := Fetch(Arm(c, PC, Operation.None, Jump, Absolute_1));
            Tick(c) == Ok(c1.(temp := c1.bus.value, micro := Absolute_2))
  {
  }

  /** Absolute addressing, tick 2: fetch the high byte. */
  lemma AbsoluteTick2(c: Core)
    requires c.micro == Absolute_2
    ensures Tick(c) == Ok(Fetch(c).(micro := Absolute_3))
  {
  }

  /** Absolute addressing, tick 3: dispatch at the assembled address. */
  lemma AbsoluteTick3(c: Core)
    requires c.micro == Absolute_3
    ensures Tick(c) == Finish(DispatchMemory(c, MakeWord(c.temp, c.bus.value)))
  {
  }

  /** The state after the first two ticks of a JSR (fetch, then decode
      and push the high byte of the return address less one). */
  function JsrAfter2(c: Core): Core {
    var c1 := Fetch(c.(reading := true));
    Pushed(c1.(reading := false), Hi(Wrap16(c1.regs.pc + 1))).(next := JSR_2_Absolute)
  }

  /** The state after ticks 3 and 4 (push the low byte, then fetch the
      target's low byte). */
  function JsrAfter4(c: Core): Core {
    var c3 := Pushed(c, Lo(Wrap16(c.regs.pc + 1))).(next := JSR_3_Absolute);
    var c3a := Fetch(Arm(c3, PC, Operation.None, Jump, Absolute_1));
    c3a.(temp := c3a.bus.value, micro := Absolute_2)
  }

  /** The state after ticks 5 and 6 (fetch the target's high byte, then
      jump). */
  function JsrAfter6(c: Core): Core {
    var c5 := Fetch(c).(micro := Absolute_3);
    c5.(regs := c5.regs.(pc := MakeWord(c5.temp, c5.bus.value)), micro := MicroCode.None)
  }

  lemma JsrFirstTwo(c: Core, n: nat)
    requires Idle(c) && c.bus.mem[c.regs.pc] == 0x20
    ensures Ticks(c, n + 2) == Ticks(JsrAfter2(c), n)
  {
    var c1 := Fetch(c.(reading := true));
    FetchTick(c);
    JsrTick2(c1);
    TicksStep(c1, JsrAfter2(c), n);
    TicksStep(c, c1, n + 1);
  }

  lemma JsrAfter2Facts(c: Core)
    ensures var d := JsrAfter2(c); var p: int := c.regs.pc;
            && d.micro == MicroCode.None && d.next == JSR_2_Absolute && !d.reading
            && d.regs == c.regs.(pc := Wrap16(p + 1), s := Wrap8(c.regs.s - 1))
            && d.bus.mem == c.bus.mem[StackAddress(c.regs.s) := Hi(Wrap16(p + 2))]
            && d.status == c.status
  {
    Wrap16Add(c.regs.pc as int + 1, 1);
  }

  lemma JsrMiddleTwo(c: Core, n: nat)
    requires c.micro == MicroCode.None && c.next == JSR_2_Absolute
    ensures Ticks(c, n + 2) == Ticks(JsrAfter4(c), n)
  {
    var c3 := Pushed(c, Lo(Wrap16(c.regs.pc + 1))).(next := JSR_3_Absolute);
    JsrTick3(c);
    JsrTick4(c3);
    TicksStep(c3, JsrAfter4(c), n);
    TicksStep(c, c3, n + 1);
  }

  lemma JsrAfter4Facts(c: Core)
    ensures var d := JsrAfter4(c); var mem := c.bus.mem[StackAddress(c.regs.s) := Lo(Wrap16(c.regs.pc as int + 1))];
            && d.micro == Absolute_2 && d.dir == Jump && d.dst == PC && d.next == OpCodeStatus.None
            && d.reading == c.reading
            && d.regs == c.regs.(pc := Wrap16(c.regs.pc as int + 1), s := Wrap8(c.regs.s - 1))
            && d.bus.mem == mem && d.temp == mem[c.regs.pc]
            && d.status == c.status
  {
  }

  lemma JsrLastTwo(c: Core, n: nat)
    requires c.micro == Absolute_2 && c.dir == Jump && c.dst == PC
    ensures Ticks(c, n + 2) == Ticks(JsrAfter6(c), n)
  {
    var c5 := Fetch(c).(micro := Absolute_3);
    AbsoluteTick2(c);
    AbsoluteTick3(c5);
    TicksStep(c5, JsrAfter6(c), n);
    TicksStep(c, c5, n + 1);
  }

  lemma JsrAfter6Facts(c: Core)
    ensures var d := JsrAfter6(c);
            && d.micro == MicroCode.None && d.next == c.next && d.reading == c.reading
            && d.regs == c.regs.(pc := MakeWord(c.temp, c.bus.mem[c.regs.pc]))
            && d.bus.mem == c.bus.mem && d.status == c.status
  {
  }

  /** The state a JSR leaves behind. */
  function JsrResult(c: Core): Core {
    JsrAfter6(JsrAfter4(JsrAfter2(c)))
  }

  /** A JSR takes six ticks, after which the rest of the run goes on from
      its result. */
  lemma JsrRun(c: Core, n: nat)
    requires Idle(c) && c.bus.mem[c.regs.pc] == 0x20
    ensures Ticks(c, n + 6) == Ticks(JsrResult(c), n)
  {
    var d2 := JsrAfter2(c);
    var d4 := JsrAfter4(d2);
    JsrFirstTwo(c, n + 4);
    JsrAfter2Facts(c);
    JsrMiddleTwo(d2, n + 2);
    JsrAfter4Facts(d2);
    JsrLastTwo(d4, n);
  }

  /** The result of a JSR at PC: the return address less one (the address
      of the instruction's last byte) is pushed high byte first, S moves
      down two, and PC becomes the little-endian target that follows the
      opcode, read after the pushes. */
  lemma JsrEffect(c: Core)
    ensures var p: int := c.regs.pc;
            var ret := Wrap16(p + 2);
            var mem := c.bus.mem[StackAddress(c.regs.s) := Hi(ret)][StackAddress(Wrap8(c.regs.s - 1)) := Lo(ret)];
            var r := JsrResult(c);
            && r.regs == c.regs.(pc := MakeWord(mem[Wrap16(p + 1)], mem[Wrap16(p + 2)]), s := Wrap8(c.regs.s - 2))
            && r.bus.mem == mem && r.status == c.status && Idle(r)
  {
    var p: int := c.regs.pc;
    var d2 := JsrAfter2(c);
    var d4 := JsrAfter4(d2);
    JsrAfter2Facts(c);
    JsrAfter4Facts(d2);
    JsrAfter6Facts(d4);
    Wrap16Add(p + 1, 1);
    Wrap8Add(c.regs.s - 1, -1);
  }

  /** RTS, tick 2: decode, then pop the low byte of the return address. */
  lemma RtsTick2(c: Core)
    requires c.micro == MicroCode.None && c.next == OpCodeStatus.None && c.reading && c.bus.value == 0x60
    ensures Tick(c) == Ok(Popped(c.(reading := false, next := RTS_2_Implied)))
  {
  }

  /** RTS, tick 3: keep the low byte, then pop the high byte. */
  lemma RtsTick3(c: Core)
    requires c.micro == MicroCode.None && c.next == RTS_2_Implied
    ensures Tick(c) == Ok(Popped(c.(temp16 := c.temp, next := RTS_3_Implied)))
  {
    TickContinues(c);
  }

  /** RTS, ticks 4 to 6: assemble the address, add one, jump. */
  lemma RtsTick4(c: Core)
    requires c.micro == MicroCode.None && c.next == RTS_3_Implied
    ensures Tick(c) == Ok(RtsCombine(c))
  {
    TickContinues(c);
  }

  lemma RtsTick5(c: Core)
    requires c.micro == MicroCode.None && c.next == RTS_4_Implied
    ensures Tick(c) == Ok(RtsIncrement(c))
  {
    TickContinues(c);
  }

  lemma RtsTick6(c: Core)
    requires c.micro == MicroCode.None && c.next == RTS_5_Implied
    ensures Tick(c) == Ok(RtsJump(c))
  {
    TickContinues(c);
  }

  /** The state after the first three ticks of an RTS (fetch, then the two
      pops). */
  function RtsAfter3(c: Core): Core {
    var c2 := Popped(Fetch(c.(reading := true)).(reading := false, next := RTS_2_Implied));
    Popped(c2.(temp16 := c2.temp, next := RTS_3_Implied))
  }

  /** The state after ticks 4 and 5: the return address assembled and
      incremented in `_tempValue16`. */
  function RtsAssemble(c: Core): Core {
    RtsIncrement(RtsCombine(c))
  }

  /** Tick 4: the high byte joins the low byte. */
  function RtsCombine(c: Core): Core {
    c.(temp16 := OrHigh(c.temp16, c.temp), next := RTS_4_Implied)
  }

  /** Tick 5: the address moves past the JSR's last byte. */
  function RtsIncrement(c: Core): Core {
    c.(temp16 := Wrap16(c.temp16 + 1), next := RTS_5_Implied)
  }

  /** The state after tick 6: the jump. */
  function RtsJump(c: Core): Core {
    c.(regs := c.regs.(pc := c.temp16), next := OpCodeStatus.None)
  }

  /** The state after ticks 4 to 6. */
  function RtsAfter6(c: Core): Core {
    RtsJump(RtsAssemble(c))
  }

  /** The state an RTS leaves behind. */
  function RtsResult(c: Core): Core {
    RtsAfter6(RtsAfter3(c))
  }

  lemma RtsFirstThree(c: Core, n: nat)
    requires Idle(c) && c.bus.mem[c.regs.pc] == 0x60
    ensures Ticks(c, n + 3) == Ticks(RtsAfter3(c), n)
  {
    var c1 := Fetch(c.(reading := true));
    var c2 := Popped(c1.(reading := false, next := RTS_2_Implied));
    FetchTick(c);
    RtsTick2(c1);
    RtsTick3(c2);
    TicksStep(c2, RtsAfter3(c), n);
    TicksStep(c1, c2, n + 1);
    TicksStep(c, c1, n + 2);
  }

  lemma RtsAfter3Facts(c: Core)
    ensures var d := RtsAfter3(c);
            && d.micro == MicroCode.None && d.next == RTS_3_Implied && !d.reading
            && d.regs == c.regs.(pc := Wrap16(c.regs.pc as int + 1), s := Wrap8(c.regs.s + 2))
            && d.bus.mem == c.bus.mem && d.status == c.status
            && d.temp16 == c.bus.mem[StackAddress(Wrap8(c.regs.s + 1))]
            && d.temp == c.bus.mem[StackAddress(Wrap8(c.regs.s + 2))]
  {
    Wrap8Add(c.regs.s + 1, 1);
  }

  lemma RtsTicks45(c: Core, n: nat)
    requires c.micro == MicroCode.None && c.next == RTS_3_Implied
    ensures Ticks(c, n + 2) == Ticks(RtsAssemble(c), n)
  {
    RtsTick4(c);
    RtsTick5(RtsCombine(c));
    TicksStep(RtsCombine(c), RtsAssemble(c), n);
    TicksStep(c, RtsCombine(c), n + 1);
  }

  lemma RtsTicks6(c: Core, n: nat)
    requires c.micro == MicroCode.None && c.next == RTS_5_Implied
    ensures Ticks(c, n + 1) == Ticks(RtsJump(c), n)
  {
    RtsTick6(c);
    TicksStep(c, RtsJump(c), n);
  }

  lemma RtsLastThree(c: Core, n: nat)
    requires c.micro == MicroCode.None && c.next == RTS_3_Implied
    ensures Ticks(c, n + 3) == Ticks(RtsAfter6(c), n)
  {
    RtsTicks45(c, n + 1);
    RtsTicks6(RtsAssemble(c), n);
  }

  /** An RTS takes six ticks, after which the rest of the run goes on from
      its result. */
  lemma RtsRun(c: Core, n: nat)
    requires Idle(c) && c.bus.mem[c.regs.pc] == 0x60
    ensures Ticks(c, n + 6) == Ticks(RtsResult(c), n)
  {
    RtsFirstThree(c, n + 3);
    RtsAfter3Facts(c);
    RtsLastThree(RtsAfter3(c), n);
  }

  /** The result of an RTS: the two bytes above S, low byte first, spell
      the return address less one; PC becomes that address plus one, S
      moves up two, and memory is untouched. */
  lemma RtsEffect(c: Core)
    ensures var lo := c.bus.mem[StackAddress(Wrap8(c.regs.s + 1))];
            var hi := c.bus.mem[StackAddress(Wrap8(c.regs.s + 2))];
            var r := RtsResult(c);
            && r.regs == c.regs.(pc := Wrap16(MakeWord(lo, hi) as int + 1), s := Wrap8(c.regs.s + 2))
            && r.bus.mem == c.bus.mem && r.status == c.status && Idle(r)
  {
    var d := RtsAfter3(c);
    RtsAfter3Facts(c);
    OrHighOfByte(d.temp16 as Byte, d.temp);
  }

  /** The two bytes a JSR pushes from stack pointer `s`, read back the
      way an RTS reads them from `s - 2`, spell the pushed address, and the
      stack pointer returns to `s`. */
  lemma StackPair(s: Byte, ret: Word, m: Memory)
    requires m[StackAddress(s)] == Hi(ret) && m[StackAddress(Wrap8(s - 1))] == Lo(ret)
    ensures var s2 := Wrap8(s - 2);
            && MakeWord(m[StackAddress(Wrap8(s2 + 1))], m[StackAddress(Wrap8(s2 + 2))]) == ret
            && Wrap8(s2 + 2) == s
  {
    Wrap8Add(s - 2, 1);
    Wrap8Add(s - 2, 2);
    WordBytes(ret);
  }

  /** An RTS whose stack still holds what a JSR at `p` pushed from stack
      pointer `s0` (the bytes `JsrEffect` describes) returns to the
      instruction after the JSR, three bytes past its opcode, with the
      stack pointer back at `s0`. */
  lemma JsrRtsRoundTrip(p: Word, s0: Byte, d: Core)
    requires d.regs.s == Wrap8(s0 - 2)
    requires d.bus.mem[StackAddress(s0)] == Hi(Wrap16(p as int + 2))
    requires d.bus.mem[StackAddress(Wrap8(s0 - 1))] == Lo(Wrap16(p as int + 2))
    ensures RtsResult(d).regs.pc == Wrap16(p as int + 3)
    ensures RtsResult(d).regs.s == s0
  {
    StackPair(s0, Wrap16(p as int + 2), d.bus.mem);
    RtsEffect(d);
    Wrap16Add(p as int + 2, 1);
  }

  /** A call to a subroutine whose first instruction is RTS takes twelve
      ticks. */
  lemma CallReturnTicks(c: Core, n: nat)
    requires Idle(c) && c.bus.mem[c.regs.pc] == 0x20
    requires JsrResult(c).bus.mem[JsrResult(c).regs.pc] == 0x60
    ensures Ticks(c, n + 12) == Ticks(RtsResult(JsrResult(c)), n)
  {
    var j := JsrResult(c);
    JsrEffect(c);
    JsrRun(c, n + 6);
    RtsRun(j, n);
  }

  /** Such a call changes no register but PC, which ends three bytes past
      the JSR opcode, and no flag; the pushed bytes stay below the stack
      pointer. */
  lemma CallReturnEffect(c: Core)
    ensures var r := RtsResult(JsrResult(c));
            && r.regs == c.regs.(pc := Wrap16(c.regs.pc as int + 3))
            && r.status == c.status && Idle(r)
  {
    var j := JsrResult(c);
    JsrEffect(c);
    assert StackAddress(c.regs.s) != StackAddress(Wrap8(c.regs.s - 1));
    JsrRtsRoundTrip(c.regs.pc, c.regs.s, j);
    RtsEffect(j);
  }
}
