/** Whole instructions of the newer engine, tick by tick: the interrupt
    acknowledge, JSR and RTS, RTI. Each tick of these sequences runs one
    opcode-status step and the single-step micro-code it names, or one
    pending micro-code. */
module CpuSequences {
  import opened Bytes
  import opened Processor
  import opened MasterBus
  import opened CpuState
  import opened CpuMicroCode
  import opened CpuOpCodeStatus
  import opened CpuOpCode
  import opened Wrappers

  /** `n` consecutive ticks, stopping at the first exception. */
  function Ticks(m: Machine, d: Dispatch, n: nat): Result<Machine>
    decreases n
  {
    if n == 0 then Ok(m)
    else
      var m1 :- Tick(m, d);
      Ticks(m1, d, n - 1)
  }

  lemma TicksThrough(m: Machine, d: Dispatch, n: nat, m1: Machine)
    requires n > 0 && Tick(m, d) == Ok(m1)
    ensures Ticks(m, d, n) == Ticks(m1, d, n - 1)
  {
  }

  lemma OneTick(m: Machine, d: Dispatch, m1: Machine)
    requires Tick(m, d) == Ok(m1)
    ensures Ticks(m, d, 1) == Ok(m1)
  {
  }

  lemma TwoTicks(m: Machine, d: Dispatch, m1: Machine, m2: Machine)
    requires Tick(m, d) == Ok(m1) && Tick(m1, d) == Ok(m2)
    ensures Ticks(m, d, 2) == Ok(m2)
  {
  }

  /** Running `a` ticks and then `b` more is running `a + b` ticks. */
  lemma {:induction false} TicksAdd(m: Machine, d: Dispatch, a: nat, b: nat)
    requires Ticks(m, d, a).Ok?
    ensures Ticks(m, d, a + b) == Ticks(Ticks(m, d, a).value, d, b)
    decreases a
  {
    if a > 0 {
      var m1 := Tick(m, d).value;
      TicksThrough(m, d, a, m1);
      TicksThrough(m, d, a + b, m1);
      TicksAdd(m1, d, a - 1, b);
    }
  }

  /** Two runs of ticks, one after the other, make one run. */
  lemma TicksCompose(m: Machine, d: Dispatch, a: nat, b: nat, x: Machine, y: Machine)
    requires Ticks(m, d, a) == Ok(x) && Ticks(x, d, b) == Ok(y)
    ensures Ticks(m, d, a + b) == Ok(y)
  {
    TicksAdd(m, d, a, b);
  }

  // ---------------------------------------------------------------------
  // One tick of a status step

  /** A status step that puts `v` in ResultA and names Push, after the
      push has run in the same tick. */
  function Pushed(m: Machine, v: Byte, after: OpCodeStatus): Machine {
    PushResult(WithResultA(m, v)).(micro := MicroCode.None, next := after)
  }

  /** A status step naming Pop, after the pop has run in the same tick. */
  function Popped(m: Machine, after: OpCodeStatus): Machine {
    PopResult(m.(micro := MicroCode.None, next := after))
  }

  /** A status step naming Nop: only the tags change. */
  function Stored(m: Machine, after: OpCodeStatus): Machine {
    m.(micro := MicroCode.None, next := after)
  }

  /** A push writes the pushed byte at S, lowers S by one and sets that
      byte as ResultA. */
  lemma PushedFacts(m: Machine, v: Byte, after: OpCodeStatus)
    ensures var r := Pushed(m, v, after); var s: int := m.regs.s;
      && r.bus.mem == m.bus.mem[StackAddress(s) := v] && r.regs == m.regs.(s := Wrap8(s - 1))
      && r.addr == m.addr.(resultA := v) && r.status == m.status && r.interrupt == m.interrupt
      && r.bus.used == m.bus.used && r.next == after && r.micro.None?
  {
  }

  /** A pop raises S by one, reads the byte there into ResultA and leaves
      memory alone. */
  lemma PoppedFacts(m: Machine, after: OpCodeStatus)
    ensures var r := Popped(m, after); var s: int := m.regs.s;
      && r.bus.mem == m.bus.mem && r.regs == m.regs.(s := Wrap8(s + 1))
      && r.addr == m.addr.(resultA := m.bus.mem[StackAddress(Wrap8(s + 1))])
      && r.status == m.status && r.next == after && r.micro.None?
  {
  }

  /** A tick with a pending status runs that status step, stores its
      tags, and runs the micro-code it names. */
  lemma ContinueWith(m: Machine, d: Dispatch, t: Transition)
    requires !m.bus.used && m.micro.None? && !m.next.None? && StatusStep(m, m.next) == Ok(t)
    ensures Tick(m, d) == RunMicro(t.m.(micro := t.micro, next := t.next), t.micro, d)
  {
    TickContinues(m, d);
  }

  lemma RunPush(m: Machine, d: Dispatch)
    ensures RunMicro(m, Push, d) == Ok(PushResult(m).(micro := MicroCode.None))
  {
  }

  lemma RunPop(m: Machine, d: Dispatch)
    ensures RunMicro(m, Pop, d) == Ok(PopResult(m).(micro := MicroCode.None))
  {
  }

  lemma RunNop(m: Machine, d: Dispatch)
    ensures RunMicro(m, Nop, d) == Ok(m.(micro := MicroCode.None))
  {
  }

  lemma RunAddressing(m: Machine, d: Dispatch)
    ensures RunMicro(m, Addressing, d) == Ok(Dispatched(m.(micro := MicroCode.None), d))
  {
  }

  lemma RunAbsolute(m: Machine, d: Dispatch)
    ensures RunMicro(m, Absolute_1, d) == Ok(LoadLow(m).(micro := Absolute_2))
    ensures RunMicro(m, Absolute_2, d) == Ok(LoadHigh(m).(micro := Absolute_3))
    ensures RunMicro(m, Absolute_3, d) == Ok(Dispatched(m.(micro := MicroCode.None), d))
  {
  }

  lemma PushTickUnfolded(m: Machine, d: Dispatch, v: Byte, after: OpCodeStatus)
    requires !m.bus.used && m.micro.None? && !m.next.None?
    requires StatusStep(m, m.next) == Ok(Transition(WithResultA(m, v), Push, after))
    ensures Tick(m, d) == Ok(PushResult(WithResultA(m, v)).(micro := MicroCode.None, next := after))
  {
    ContinueWith(m, d, Transition(WithResultA(m, v), Push, after));
    RunPush(WithResultA(m, v).(micro := Push, next := after), d);
  }

  lemma PushTick(m: Machine, d: Dispatch, v: Byte, after: OpCodeStatus)
    requires !m.bus.used && m.micro.None? && !m.next.None?
    requires StatusStep(m, m.next) == Ok(Transition(WithResultA(m, v), Push, after))
    ensures Tick(m, d) == Ok(Pushed(m, v, after))
  {
    PushTickUnfolded(m, d, v, after);
  }

  lemma PopTick(m: Machine, d: Dispatch, m1: Machine, after: OpCodeStatus)
    requires !m.bus.used && m.micro.None? && !m.next.None?
    requires StatusStep(m, m.next) == Ok(Transition(m1, Pop, after))
    ensures Tick(m, d) == Ok(Popped(m1, after))
  {
    ContinueWith(m, d, Transition(m1, Pop, after));
    RunPop(m1.(micro := Pop, next := after), d);
  }

  lemma NopTick(m: Machine, d: Dispatch, m1: Machine, after: OpCodeStatus)
    requires !m.bus.used && m.micro.None? && !m.next.None?
    requires StatusStep(m, m.next) == Ok(Transition(m1, Nop, after))
    ensures Tick(m, d) == Ok(Stored(m1, after))
  {
    ContinueWith(m, d, Transition(m1, Nop, after));
    RunNop(m1.(micro := Nop, next := after), d);
  }

  /** A status step naming Addressing dispatches in the same tick. */
  lemma DispatchTick(m: Machine, d: Dispatch, m1: Machine)
    requires !m.bus.used && m.micro.None? && !m.next.None?
    requires StatusStep(m, m.next) == Ok(Transition(m1, Addressing, OpCodeStatus.None))
    ensures Tick(m, d) == Ok(Dispatched(Stored(m1, OpCodeStatus.None), d))
  {
    ContinueWith(m, d, Transition(m1, Addressing, OpCodeStatus.None));
    RunAddressing(m1.(micro := Addressing, next := OpCodeStatus.None), d);
  }

  // ---------------------------------------------------------------------
  // Interrupt acknowledge

  /** The three pushes of the acknowledge: PC high, PC low, the status byte. */
  function Stacked(m: Machine): Machine {
    Pushed(Pushed(Pushed(m, Hi(m.regs.pc), Interrupt_2), Lo(m.regs.pc), Interrupt_3),
           m.status.Value(), Interrupt_4)
  }

  /** Interrupt_1 to Interrupt_3 take one tick each. */
  lemma InterruptStackingTicks(m: Machine, d: Dispatch)
    requires !m.bus.used && m.micro.None? && m.next == Interrupt_1
    ensures Ticks(m, d, 3) == Ok(Stacked(m))
  {
    var m1 := Pushed(m, Hi(m.regs.pc), Interrupt_2);
    InterruptPushSteps(m);
    PushTick(m, d, Hi(m.regs.pc), Interrupt_2);
    var m2 := Pushed(m1, Lo(m.regs.pc), Interrupt_3);
    PushedFacts(m, Hi(m.regs.pc), Interrupt_2);
    InterruptPushSteps(m1);
    PushTick(m1, d, Lo(m.regs.pc), Interrupt_3);
    PushedFacts(m1, Lo(m.regs.pc), Interrupt_3);
    InterruptPushSteps(m2);
    PushTick(m2, d, m.status.Value(), Interrupt_4);
    TicksThrough(m, d, 3, m1);
    TicksThrough(m1, d, 2, m2);
    TicksThrough(m2, d, 1, Stacked(m));
  }

  /** Interrupt_1 to Interrupt_3 each put one byte in ResultA for Push. */
  lemma InterruptPushSteps(m: Machine)
    ensures StatusStep(m, Interrupt_1) == Ok(Transition(WithResultA(m, Hi(m.regs.pc)), Push, Interrupt_2))
    ensures StatusStep(m, Interrupt_2) == Ok(Transition(WithResultA(m, Lo(m.regs.pc)), Push, Interrupt_3))
    ensures StatusStep(m, Interrupt_3) == Ok(Transition(WithResultA(m, m.status.Value()), Push, Interrupt_4))
  {
  }

  /** The pushes store PC high, PC low and the status byte at descending
      stack addresses, drop S by three and change nothing else. */
  lemma StackedState(m: Machine)
    ensures var r := Stacked(m); var s := m.regs.s;
      && r.bus.mem == m.bus.mem[StackAddress(s) := Hi(m.regs.pc)]
                               [StackAddress(Wrap8(s - 1)) := Lo(m.regs.pc)]
                               [StackAddress(Wrap8(s - 2)) := m.status.Value()]
      && r.regs == m.regs.(s := Wrap8(s - 3))
      && r.status == m.status && r.interrupt == m.interrupt && r.bus.used == m.bus.used
      && r.micro.None? && r.next == Interrupt_4
  {
    var s: int := m.regs.s;
    Wrap8Add(s - 1, -1);
    Wrap8Add(s - 2, -1);
  }

  /** The pushes stay in page 1, so the vectors read afterwards are the
      bytes that were there before. */
  lemma StackedKeepsVectors(m: Machine, t: InterruptType)
    ensures var v := Vector(t); var r := Stacked(m);
      r.bus.mem[v] == m.bus.mem[v] && r.bus.mem[Wrap16(v + 1)] == m.bus.mem[Wrap16(v + 1)]
  {
    var v := Vector(t);
    VectorBytes(t);
    StackedAbove(m, v);
    StackedAbove(m, Wrap16(v + 1));
  }

  /** Both bytes of every vector lie in the last page. */
  lemma VectorBytes(t: InterruptType)
    ensures var v := Vector(t); 0xFFFA <= v < 0xFFFF && Wrap16(v + 1) == v + 1
  {
  }

  /** The pushes leave every byte above page 1 alone. */
  lemma StackedAbove(m: Machine, k: Word)
    requires k >= 0x200
    ensures Stacked(m).bus.mem[k] == m.bus.mem[k]
  {
    StackedState(m);
    UpdatesAbove(m.bus.mem, m.regs.s, Hi(m.regs.pc), Lo(m.regs.pc), m.status.Value(), k);
  }

  /** Three stack writes leave every byte above page 1 alone. */
  lemma UpdatesAbove(mem: Memory, s: Byte, a: Byte, b: Byte, c: Byte, k: Word)
    requires k >= 0x200
    ensures mem[StackAddress(s) := a][StackAddress(Wrap8(s - 1)) := b][StackAddress(Wrap8(s - 2)) := c][k] == mem[k]
  {
  }

  /** Interrupt_4 and Interrupt_5: MemoryAddress walks the vector and its
      two bytes land in ResultA and ResultB. */
  function VectorsRead(m: Machine): Machine
    requires m.interrupt.Some?
  {
    Stored(VectorHigh(Stored(VectorLow(m), Interrupt_5)), Interrupt_6)
  }

  /** Interrupt_4: MemoryAddress is the vector, its byte goes to ResultA. */
  function VectorLow(m: Machine): Machine
    requires m.interrupt.Some?
  {
    var v := Vector(m.interrupt.value);
    WithResultA(BusRead(WithAddress(m, v), v), m.bus.mem[v])
  }

  /** Interrupt_5: MemoryAddress moves to the next byte, which goes to ResultB. */
  function VectorHigh(m: Machine): Machine {
    var w := Wrap16(m.addr.memoryAddress + 1);
    var m1 := BusRead(WithAddress(m, w), w);
    m1.(addr := m1.addr.(resultB := m.bus.mem[w]))
  }

  lemma VectorSteps(m: Machine, m1: Machine)
    requires m.interrupt.Some?
    ensures StatusStep(m, Interrupt_4) == Ok(Transition(VectorLow(m), Nop, Interrupt_5))
    ensures StatusStep(m1, Interrupt_5) == Ok(Transition(VectorHigh(m1), Nop, Interrupt_6))
  {
  }

  /** Storing the tags leaves the bus flag alone. */
  lemma StoredTags(m: Machine, after: OpCodeStatus)
    ensures var r := Stored(m, after); r.bus.used == m.bus.used && r.micro.None? && r.next == after
  {
  }

  /** Interrupt_4 and Interrupt_5 take one tick each. */
  lemma InterruptVectorTicks(m: Machine, d: Dispatch)
    requires !m.bus.used && m.micro.None? && m.next == Interrupt_4 && m.interrupt.Some?
    ensures Ticks(m, d, 2) == Ok(VectorsRead(m))
  {
    var m1 := Stored(VectorLow(m), Interrupt_5);
    VectorSteps(m, m1);
    NopTick(m, d, VectorLow(m), Interrupt_5);
    StoredTags(VectorLow(m), Interrupt_5);
    NopTick(m1, d, VectorHigh(m1), Interrupt_6);
    TwoTicks(m, d, m1, VectorsRead(m));
  }

  /** The state Interrupt_6 leaves before its `Addressing` micro-code
      dispatches: the vector bytes form MemoryAddress, I is set, the
      pending interrupt is cleared and the descriptor moves MemoryAddress
      into PC. */
  function EnterHandler(m: Machine): Machine {
    m.(addr := m.addr.(memoryAddress := MakeWord(m.addr.resultA, m.addr.resultB))
                     .Set(Memory, NoOperand, PC, NoOp, false),
       status := m.status.WithI(true), interrupt := Option.None,
       micro := MicroCode.None, next := OpCodeStatus.None)
  }

  /** Interrupt_6 enters the handler in one tick, through the Addressing
      micro-code's dispatch. */
  lemma InterruptEntry(m: Machine, d: Dispatch)
    requires !m.bus.used && m.micro.None? && m.next == Interrupt_6
    ensures Tick(m, d) == Ok(Dispatched(EnterHandler(m), d))
  {
    DispatchTick(m, d, StatusStep(m, Interrupt_6).value.m);
  }

  /** The machine the acknowledge hands to its final dispatch. */
  function Acknowledged(m: Machine): Machine
    requires m.interrupt.Some?
  {
    EnterHandler(VectorsRead(Stacked(m)))
  }

  /** The tags and flags the pushes leave, which the vector ticks need. */
  lemma StackedTags(m: Machine)
    ensures var r := Stacked(m);
      r.bus.used == m.bus.used && r.micro.None? && r.next == Interrupt_4 && r.interrupt == m.interrupt
  {
  }

  /** The acknowledge takes six ticks from Interrupt_1: three pushes, two
      vector reads and the entry through the dispatch. */
  lemma InterruptTicks(m: Machine, d: Dispatch)
    requires !m.bus.used && m.micro.None? && m.next == Interrupt_1 && m.interrupt.Some?
    ensures Ticks(m, d, 6) == Ok(Dispatched(Acknowledged(m), d))
  {
    InterruptStackingTicks(m, d);
    var m3 := Stacked(m);
    StackedTags(m);
    InterruptVectorTicks(m3, d);
    var m5 := VectorsRead(m3);
    TicksCompose(m, d, 3, 2, m3, m5);
    StoredTags(VectorHigh(Stored(VectorLow(m3), Interrupt_5)), Interrupt_6);
    InterruptEntry(m5, d);
    OneTick(m5, d, Dispatched(EnterHandler(m5), d));
    TicksCompose(m, d, 5, 1, m5, Dispatched(Acknowledged(m), d));
  }

  /** What the acknowledge did: PC high, PC low and the status byte are on
      the stack at descending addresses, S dropped by three, the vector's
      low byte from the vector address and its high byte from the next one
      form the address handed to PC, I is set and the pending interrupt is
      cleared. */
  lemma AcknowledgedState(m: Machine)
    requires m.interrupt.Some?
    ensures var e := Acknowledged(m); var s := m.regs.s; var v := Vector(m.interrupt.value);
      && e.bus.mem == m.bus.mem[StackAddress(s) := Hi(m.regs.pc)]
                               [StackAddress(Wrap8(s - 1)) := Lo(m.regs.pc)]
                               [StackAddress(Wrap8(s - 2)) := m.status.Value()]
      && e.regs == m.regs.(s := Wrap8(s - 3))
      && e.addr.memoryAddress == MakeWord(m.bus.mem[v], m.bus.mem[Wrap16(v + 1)])
      && e.addr.dst == PC && e.addr.src1 == Memory
      && e.status == m.status.WithI(true) && e.interrupt.None? && e.next.None?
  {
    StackedState(m);
    StackedKeepsVectors(m, m.interrupt.value);
  }

  // ---------------------------------------------------------------------
  // Fetch and decode

  /** The fetch tick: the opcode byte at PC is latched and PC moves on. */
  function Fetched(m: Machine): Machine {
    IncPC(BusRead(m, m.regs.pc)).(reading := true)
  }

  /** The decoded status stored, the fetch flag cleared. */
  function Decoded(m: Machine, code: OpCodeStatus): Machine {
    m.(reading := false, next := code)
  }

  /** The fetch tick. */
  lemma FetchTick(m: Machine, d: Dispatch)
    requires !m.bus.used && m.micro.None? && m.next.None? && !m.reading
    ensures Tick(m, d) == Ok(Fetched(m))
  {
    TickFetches(m, d);
  }

  /** An instruction starts with a fetch tick, and the tick after it acts
      as a tick whose pending status is the decoded one. */
  lemma FetchDecode(m: Machine, d: Dispatch, code: OpCodeStatus)
    requires !m.bus.used && m.micro.None? && m.next.None? && !m.reading
    requires Decode(m.bus.mem[m.regs.pc]) == Ok(code)
    ensures Tick(m, d) == Ok(Fetched(m))
    ensures Tick(Fetched(m), d) == Tick(Decoded(Fetched(m), code), d)
  {
    TickFetches(m, d);
    TickDecodes(Fetched(m), d);
    TickContinues(Decoded(Fetched(m), code), d);
  }

  // ---------------------------------------------------------------------
  // Absolute addressing after a descriptor arm

  /** The machine an absolute-mode descriptor arm leaves once both operand
      bytes are read. */
  function AbsoluteRead(m: Machine, s: SetArm): Machine {
    LoadHigh(LoadLow(ApplySetArm(m, s).m)).(micro := MicroCode.None, next := s.next)
  }

  /** The status step of an absolute-mode descriptor arm reads the low
      operand byte in its own tick. */
  lemma AbsoluteFirstTick(m: Machine, d: Dispatch)
    requires !m.bus.used && m.micro.None? && !m.next.None?
    requires SetArmOf(m.next).Some? && SetArmOf(m.next).value.micro == Absolute_1
    ensures var s := SetArmOf(m.next).value;
      Tick(m, d) == Ok(LoadLow(ApplySetArm(m, s).m).(micro := Absolute_2, next := s.next))
  {
    var s := SetArmOf(m.next).value;
    SetArmStep(m, m.next);
    var t := ApplySetArm(m, s);
    ContinueWith(m, d, t);
    RunAbsolute(t.m.(micro := t.micro, next := t.next), d);
  }

  /** Absolute_2 reads the high byte on the next tick and Absolute_3
      dispatches on the one after. */
  lemma AbsoluteOperandTicks(k: Machine, d: Dispatch)
    requires !k.bus.used && k.micro == Absolute_2
    ensures Ticks(k, d, 2) == Ok(Dispatched(LoadHigh(k).(micro := MicroCode.None), d))
  {
    TickRunsMicroFirst(k, d);
    RunAbsolute(k, d);
    var k2 := LoadHigh(k).(micro := Absolute_3);
    TickRunsMicroFirst(k2, d);
    RunAbsolute(k2, d);
    TicksThrough(k, d, 2, k2);
    TicksThrough(k2, d, 1, Dispatched(LoadHigh(k).(micro := MicroCode.None), d));
  }

  /** Reading the high operand byte does not look at the tags. */
  lemma LoadHighTags(k: Machine, a: MicroCode, b: OpCodeStatus)
    ensures LoadHigh(k.(micro := a, next := b)) == LoadHigh(k).(micro := a, next := b)
  {
  }

  /** Any descriptor arm naming Absolute_1 takes three ticks: the status
      step with the low operand byte, the high byte, and the dispatch. */
  lemma AbsoluteTicks(m: Machine, d: Dispatch)
    requires !m.bus.used && m.micro.None? && !m.next.None?
    requires SetArmOf(m.next).Some? && SetArmOf(m.next).value.micro == Absolute_1
    ensures Ticks(m, d, 3) == Ok(Dispatched(AbsoluteRead(m, SetArmOf(m.next).value), d))
  {
    var s := SetArmOf(m.next).value;
    AbsoluteFirstTick(m, d);
    var k0 := LoadLow(ApplySetArm(m, s).m);
    var k := k0.(micro := Absolute_2, next := s.next);
    AbsoluteOperandTicks(k, d);
    TicksThrough(m, d, 3, k);
    LoadHighTags(k0, Absolute_2, s.next);
    LoadHighTags(k0, MicroCode.None, s.next);
    assert LoadHigh(k).(micro := MicroCode.None) == AbsoluteRead(m, s);
  }

  // ---------------------------------------------------------------------
  // JSR and RTS

  /** JSR's fetch and its two pushes. */
  function JsrPushed(m: Machine): Machine {
    var x := Decoded(Fetched(m), JSR_1_Absolute);
    var r := Wrap16(x.regs.pc + 1);
    Pushed(Pushed(x, Hi(r), JSR_2_Absolute), Lo(r), JSR_3_Absolute)
  }

  /** The machine JSR (opcode 0x20 at PC) hands to its final dispatch. */
  function JsrCall(m: Machine): Machine {
    AbsoluteRead(JsrPushed(m), JsrJump)
  }

  /** JSR's first three ticks: the fetch, then the two pushes, the first in
      the decode tick. */
  lemma JsrPushTicks(m: Machine, d: Dispatch)
    requires !m.bus.used && m.micro.None? && m.next.None? && !m.reading
    requires m.bus.mem[m.regs.pc] == 0x20
    ensures Ticks(m, d, 3) == Ok(JsrPushed(m))
  {
    FetchTick(m, d);
    JsrPushPair(m, d);
    TicksThrough(m, d, 3, Fetched(m));
  }

  /** The two pushes, in the decode tick and the one after. */
  lemma JsrPushPair(m: Machine, d: Dispatch)
    requires !m.bus.used && m.micro.None? && m.next.None? && !m.reading
    requires m.bus.mem[m.regs.pc] == 0x20
    ensures Ticks(Fetched(m), d, 2) == Ok(JsrPushed(m))
  {
    var x := Decoded(Fetched(m), JSR_1_Absolute);
    var j1 := Pushed(x, Hi(Wrap16(x.regs.pc + 1)), JSR_2_Absolute);
    JsrDecodeTick(m, d);
    JsrSecondPush(x, d);
    TwoTicks(Fetched(m), d, j1, JsrPushed(m));
  }

  /** The fetch of 0x20, then the decode tick, which runs JSR_1 and pushes
      the high byte of PC + 1. */
  lemma JsrDecodeTick(m: Machine, d: Dispatch)
    requires !m.bus.used && m.micro.None? && m.next.None? && !m.reading
    requires m.bus.mem[m.regs.pc] == 0x20
    ensures var x := Decoded(Fetched(m), JSR_1_Absolute);
      Tick(Fetched(m), d) == Ok(Pushed(x, Hi(Wrap16(x.regs.pc + 1)), JSR_2_Absolute))
  {
    DecodeExamples();
    FetchDecode(m, d, JSR_1_Absolute);
    var x := Decoded(Fetched(m), JSR_1_Absolute);
    JsrPasses(x);
    PushTick(x, d, Hi(Wrap16(x.regs.pc + 1)), JSR_2_Absolute);
  }

  /** JSR_2 pushes the low byte of the same PC + 1. */
  lemma JsrSecondPush(x: Machine, d: Dispatch)
    requires !x.bus.used
    ensures var r := Wrap16(x.regs.pc + 1); var j1 := Pushed(x, Hi(r), JSR_2_Absolute);
      Tick(j1, d) == Ok(Pushed(j1, Lo(r), JSR_3_Absolute))
  {
    var r := Wrap16(x.regs.pc + 1);
    var j1 := Pushed(x, Hi(r), JSR_2_Absolute);
    PushedFacts(x, Hi(r), JSR_2_Absolute);
    JsrPasses(j1);
    PushTick(j1, d, Lo(r), JSR_3_Absolute);
  }

  lemma JsrPushedTags(m: Machine)
    ensures var j := JsrPushed(m); j.bus.used == m.bus.used && j.micro.None? && j.next == JSR_3_Absolute
  {
  }

  /** JSR takes six ticks: fetch, the two pushes, and three ticks of
      absolute addressing. */
  lemma JsrTicks(m: Machine, d: Dispatch)
    requires !m.bus.used && m.micro.None? && m.next.None? && !m.reading
    requires m.bus.mem[m.regs.pc] == 0x20
    ensures Ticks(m, d, 6) == Ok(Dispatched(JsrCall(m), d))
  {
    var j := JsrPushed(m);
    JsrPushTicks(m, d);
    JsrPushedTags(m);
    JsrAbsoluteTicks(j, d);
    TicksCompose(m, d, 3, 3, j, Dispatched(JsrCall(m), d));
  }

  /** JSR_3 reads the target address in three ticks of absolute addressing. */
  lemma JsrAbsoluteTicks(j: Machine, d: Dispatch)
    requires !j.bus.used && j.micro.None? && j.next == JSR_3_Absolute
    ensures Ticks(j, d, 3) == Ok(Dispatched(AbsoluteRead(j, JsrJump), d))
  {
    JsrArm();
    AbsoluteTicks(j, d);
  }

  /** JSR at address `a` pushes the high and then the low byte of a + 2,
      the address of its last byte, and leaves PC on the operand. */
  lemma JsrPushedState(m: Machine)
    ensures var j := JsrPushed(m); var a: int := m.regs.pc; var s: int := m.regs.s;
      && j.bus.mem == m.bus.mem[StackAddress(s) := Hi(Wrap16(a + 2))]
                               [StackAddress(Wrap8(s - 1)) := Lo(Wrap16(a + 2))]
      && j.regs == m.regs.(pc := Wrap16(a + 1), s := Wrap8(s - 2))
  {
    var a: int := m.regs.pc;
    Wrap16Add(a + 1, 1);
    Wrap8Add(m.regs.s - 1, -1);
  }

  /** An absolute-mode arm that does not rewind reads its operand low byte
      first, moves PC past both bytes and keeps memory and the other
      registers. */
  lemma AbsoluteReadState(m: Machine, s: SetArm)
    requires !s.rewind
    ensures var e := AbsoluteRead(m, s); var p: int := m.regs.pc;
      && e.bus.mem == m.bus.mem && e.regs == m.regs.(pc := Wrap16(p + 2))
      && e.addr.memoryAddress == MakeWord(m.bus.mem[p], m.bus.mem[Wrap16(p + 1)])
      && e.addr.dst == s.dst && e.addr.src1 == s.src1 && e.addr.op == s.op
      && e.addr.affectFlags == s.affectFlags && e.micro.None? && e.next == s.next
  {
    TwoBytes(ApplySetArm(m, s).m);
  }

  /** What JSR at address `a` did: the high and then the low byte of a + 2
      (the address of its last byte) are on the stack, S dropped by two, PC
      is past the instruction, and the operand `lo | hi << 8` read after
      the pushes is the address handed to PC. */
  lemma JsrCallState(m: Machine)
    ensures var e := JsrCall(m); var a: int := m.regs.pc; var s := m.regs.s;
      && e.bus.mem == m.bus.mem[StackAddress(s) := Hi(Wrap16(a + 2))]
                               [StackAddress(Wrap8(s - 1)) := Lo(Wrap16(a + 2))]
      && e.regs == m.regs.(pc := Wrap16(a + 3), s := Wrap8(s - 2))
      && e.addr.memoryAddress == MakeWord(e.bus.mem[Wrap16(a + 1)], e.bus.mem[Wrap16(a + 2)])
      && e.addr.dst == PC && e.addr.src1 == Memory && e.addr.op == NoOp && !e.addr.affectFlags
      && e.micro.None? && e.next.None?
  {
    var j := JsrPushed(m);
    JsrArm();
    JsrPushedState(m);
    AbsoluteReadState(j, JsrJump);
    JsrOffsets(m.regs.pc);
  }

  /** JSR_3's descriptor: Absolute addressing into PC. */
  const JsrJump := SetArm(Memory, NoOperand, PC, NoOp, false, Absolute_1, OpCodeStatus.None, false)

  lemma JsrArm()
    ensures SetArmOf(JSR_3_Absolute) == Some(JsrJump)
  {
  }

  /** The operand bytes of a JSR at `a` are at a + 1 and a + 2, and the
      next instruction is at a + 3. */
  lemma JsrOffsets(a: Word)
    ensures Wrap16(Wrap16(a + 1) + 1) == Wrap16(a + 2) && Wrap16(Wrap16(a + 1) + 2) == Wrap16(a + 3)
  {
    Wrap16Add(a + 1, 1);
    Wrap16Add(a + 1, 2);
  }

  /** RTS's fetch and its two pops. */
  function RtsPopped(m: Machine): Machine {
    var x := Decoded(Fetched(m), RTS_1_Implied);
    var y1 := Popped(x, RTS_2_Implied);
    Popped(WithAddress(y1, y1.addr.resultA), RTS_3_Implied)
  }

  /** RTS_3 and RTS_4: the popped bytes joined, then plus one. */
  function RtsJoined(y: Machine): Machine {
    RtsIncremented(RtsHigh(y))
  }

  /** A descriptor arm naming PC as destination and Addressing as micro-code:
      the machine it hands to the dispatch. */
  function HandedToPC(y: Machine): Machine {
    y.(addr := y.addr.Set(NoOperand, NoOperand, PC, NoOp, false), micro := MicroCode.None,
       next := OpCodeStatus.None)
  }

  /** The rest of RTS: the popped bytes joined, plus one, handed to PC. */
  function RtsFinish(y: Machine): Machine {
    HandedToPC(RtsJoined(y))
  }

  /** RTS_5 and RTI_5 hand MemoryAddress to PC through the dispatch. */
  lemma HandToPcTick(y: Machine, d: Dispatch)
    requires !y.bus.used && y.micro.None? && (y.next == RTS_5_Implied || y.next == RTI_5_Implied)
    ensures Tick(y, d) == Ok(Dispatched(HandedToPC(y), d))
  {
    SetArmStep(y, y.next);
    DispatchTick(y, d, y.(addr := y.addr.Set(NoOperand, NoOperand, PC, NoOp, false)));
  }

  /** The machine RTS (opcode 0x60 at PC) hands to its final dispatch. */
  function RtsReturn(m: Machine): Machine {
    RtsFinish(RtsPopped(m))
  }

  /** RTS's first three ticks: the fetch, then the two pops, the first in
      the decode tick. */
  /** The decode tick of RTS runs RTS_1 and its pop. */
  lemma RtsDecodeTick(m: Machine, d: Dispatch)
    requires !m.bus.used && m.micro.None? && m.next.None? && !m.reading
    requires m.bus.mem[m.regs.pc] == 0x60
    ensures Tick(m, d) == Ok(Fetched(m))
    ensures Tick(Fetched(m), d) == Ok(Popped(Decoded(Fetched(m), RTS_1_Implied), RTS_2_Implied))
  {
    DecodeExamples();
    FetchDecode(m, d, RTS_1_Implied);
    var x := Decoded(Fetched(m), RTS_1_Implied);
    RtsSteps(x);
    PopTick(x, d, x, RTS_2_Implied);
  }

  /** RTS_2 keeps the first popped byte as MemoryAddress and pops again. */
  lemma RtsSecondPop(x: Machine, d: Dispatch)
    requires !x.bus.used
    ensures var y1 := Popped(x, RTS_2_Implied);
      Tick(y1, d) == Ok(Popped(WithAddress(y1, y1.addr.resultA), RTS_3_Implied))
  {
    var y1 := Popped(x, RTS_2_Implied);
    PoppedFacts(x, RTS_2_Implied);
    RtsSteps(y1);
    PopTick(y1, d, WithAddress(y1, y1.addr.resultA), RTS_3_Implied);
  }

  /** The arms of RTS_1 and RTS_2. */
  lemma RtsSteps(m: Machine)
    ensures StatusStep(m, RTS_1_Implied) == Ok(Transition(m, Pop, RTS_2_Implied))
    ensures StatusStep(m, RTS_2_Implied) == Ok(Transition(WithAddress(m, m.addr.resultA), Pop, RTS_3_Implied))
  {
  }

  lemma RtsPopTicks(m: Machine, d: Dispatch)
    requires !m.bus.used && m.micro.None? && m.next.None? && !m.reading
    requires m.bus.mem[m.regs.pc] == 0x60
    ensures Ticks(m, d, 3) == Ok(RtsPopped(m))
  {
    RtsDecodeTick(m, d);
    var x := Decoded(Fetched(m), RTS_1_Implied);
    var y1 := Popped(x, RTS_2_Implied);
    RtsSecondPop(x, d);
    TicksThrough(m, d, 3, Fetched(m));
    TicksThrough(Fetched(m), d, 2, y1);
    OneTick(y1, d, RtsPopped(m));
  }

  lemma RtsPoppedTags(m: Machine)
    ensures var y := RtsPopped(m); y.bus.used == m.bus.used && y.micro.None? && y.next == RTS_3_Implied
  {
  }

  /** RTS_3 joins the popped bytes in one tick. */
  function RtsHigh(y: Machine): Machine {
    Stored(WithAddress(y, OrHigh(y.addr.memoryAddress, y.addr.resultA)), RTS_4_Implied)
  }

  lemma RtsHighTick(y: Machine, d: Dispatch)
    requires !y.bus.used && y.micro.None? && y.next == RTS_3_Implied
    ensures Tick(y, d) == Ok(RtsHigh(y))
  {
    NopTick(y, d, WithAddress(y, OrHigh(y.addr.memoryAddress, y.addr.resultA)), RTS_4_Implied);
  }

  /** RTS_4 adds one in the next tick. */
  function RtsIncremented(y3: Machine): Machine {
    Stored(WithAddress(y3, Wrap16(y3.addr.memoryAddress + 1)), RTS_5_Implied)
  }

  lemma RtsIncrementTick(y3: Machine, d: Dispatch)
    requires !y3.bus.used && y3.micro.None? && y3.next == RTS_4_Implied
    ensures Tick(y3, d) == Ok(RtsIncremented(y3))
  {
    NopTick(y3, d, WithAddress(y3, Wrap16(y3.addr.memoryAddress + 1)), RTS_5_Implied);
  }

  /** RTS_3 and RTS_4 take a tick each. */
  lemma RtsJoinTicks(y: Machine, d: Dispatch)
    requires !y.bus.used && y.micro.None? && y.next == RTS_3_Implied
    ensures Ticks(y, d, 2) == Ok(RtsJoined(y))
  {
    RtsHighTick(y, d);
    RtsIncrementTick(RtsHigh(y), d);
    TwoTicks(y, d, RtsHigh(y), RtsJoined(y));
  }

  /** RTS's last three ticks: join, increment, dispatch. */
  lemma RtsFinishTicks(y: Machine, d: Dispatch)
    requires !y.bus.used && y.micro.None? && y.next == RTS_3_Implied
    ensures Ticks(y, d, 3) == Ok(Dispatched(RtsFinish(y), d))
  {
    var y4 := RtsJoined(y);
    RtsJoinTicks(y, d);
    HandToPcTick(y4, d);
    OneTick(y4, d, Dispatched(RtsFinish(y), d));
    TicksCompose(y, d, 2, 1, y4, Dispatched(RtsFinish(y), d));
  }

  /** RTS takes six ticks. */
  lemma RtsTicks(m: Machine, d: Dispatch)
    requires !m.bus.used && m.micro.None? && m.next.None? && !m.reading
    requires m.bus.mem[m.regs.pc] == 0x60
    ensures Ticks(m, d, 6) == Ok(Dispatched(RtsReturn(m), d))
  {
    RtsPopTicks(m, d);
    RtsPoppedTags(m);
    RtsFinishTicks(RtsPopped(m), d);
    TicksCompose(m, d, 3, 3, RtsPopped(m), Dispatched(RtsReturn(m), d));
  }

  /** RTS's pops: the low byte lands in MemoryAddress, the high byte in
      ResultA. */
  lemma RtsPoppedState(m: Machine)
    ensures var y := RtsPopped(m); var s: int := m.regs.s;
      && y.bus.mem == m.bus.mem
      && y.regs == m.regs.(pc := Wrap16(m.regs.pc + 1), s := Wrap8(s + 2))
      && y.addr.memoryAddress == m.bus.mem[StackAddress(Wrap8(s + 1))]
      && y.addr.resultA == m.bus.mem[StackAddress(Wrap8(s + 2))]
  {
    Wrap8Add(m.regs.s + 1, 1);
  }

  lemma RtsFinishState(y: Machine)
    ensures var e := RtsFinish(y);
      && e.bus.mem == y.bus.mem && e.regs == y.regs
      && e.addr.memoryAddress == Wrap16(OrHigh(y.addr.memoryAddress, y.addr.resultA) + 1)
      && e.addr.dst == PC && e.addr.src1 == NoOperand && !e.addr.affectFlags
  {
  }

  /** What RTS did: it popped the low byte and then the high byte, S rose
      by two, memory is untouched, and the popped address plus one is
      handed to PC. */
  lemma RtsReturnState(m: Machine)
    ensures var e := RtsReturn(m); var s: int := m.regs.s;
      && e.bus.mem == m.bus.mem
      && e.regs == m.regs.(pc := Wrap16(m.regs.pc + 1), s := Wrap8(s + 2))
      && e.addr.memoryAddress ==
         Wrap16(MakeWord(m.bus.mem[StackAddress(Wrap8(s + 1))], m.bus.mem[StackAddress(Wrap8(s + 2))]) + 1)
      && e.addr.dst == PC && e.addr.src1 == NoOperand && !e.addr.affectFlags
  {
    var s: int := m.regs.s;
    RtsPoppedState(m);
    RtsFinishState(RtsPopped(m));
    OrHighOfByte(m.bus.mem[StackAddress(Wrap8(s + 1))], m.bus.mem[StackAddress(Wrap8(s + 2))]);
  }

  /** The two bytes JSR pushed at S and S - 1, read back by pops from
      S - 2, form the address JSR pushed. */
  lemma StackPairRoundTrip(mem: Memory, s: Byte, w: Word)
    requires mem[StackAddress(s)] == Hi(w) && mem[StackAddress(Wrap8(s - 1))] == Lo(w)
    ensures var t: int := Wrap8(s - 2);
      && MakeWord(mem[StackAddress(Wrap8(t + 1))], mem[StackAddress(Wrap8(t + 2))]) == w
      && Wrap8(t + 2) == s
  {
    var si: int := s;
    Wrap8Add(si - 2, 1);
    Wrap8Add(si - 2, 2);
    WordBytes(w);
  }

  /** JSR and RTS are inverse: an RTS that finds S and the two stack bytes
      as JSR at address `a` left them returns to a + 3, the instruction
      after the JSR, with S back where it was before the call. */
  lemma JsrRtsRoundTrip(call: Machine, ret: Machine)
    requires ret.regs.s == JsrCall(call).regs.s
    requires var s := call.regs.s;
      && ret.bus.mem[StackAddress(s)] == JsrCall(call).bus.mem[StackAddress(s)]
      && ret.bus.mem[StackAddress(Wrap8(s - 1))] == JsrCall(call).bus.mem[StackAddress(Wrap8(s - 1))]
    ensures RtsReturn(ret).addr.memoryAddress == Wrap16(call.regs.pc + 3)
    ensures RtsReturn(ret).regs.s == call.regs.s
  {
    var s: int := call.regs.s;
    var w := Wrap16(call.regs.pc + 2);
    JsrCallState(call);
    RtsReturnState(ret);
    StackPairRoundTrip(ret.bus.mem, call.regs.s, w);
    Wrap16Add(call.regs.pc + 2, 1);
  }

  // ---------------------------------------------------------------------
  // RTI

  /** RTI's three pops: the status byte (restored into P), PC low, PC high. */
  function RtiPopped(m: Machine): Machine {
    var z1 := Popped(m, RTI_2_Implied);
    var z2 := Popped(z1.(status := StatusOf(z1.addr.resultA)), RTI_3_Implied);
    Popped(WithAddress(z2, z2.addr.resultA), RTI_4_Implied)
  }

  /** RTI_4 joins the popped bytes. */
  function RtiJoined(z: Machine): Machine {
    Stored(WithAddress(z, OrHigh(z.addr.memoryAddress, z.addr.resultA)), RTI_5_Implied)
  }

  /** The rest of RTI: the popped bytes joined and handed to PC. */
  function RtiFinish(z: Machine): Machine {
    HandedToPC(RtiJoined(z))
  }

  /** The machine RTI hands to its final dispatch, from RTI_1 on. RTI has
      a status sequence but no entry in the opcode table, so it starts only
      when RTI_1_Implied is stored. */
  function RtiReturn(m: Machine): Machine {
    RtiFinish(RtiPopped(m))
  }

  /** The arms of RTI_1 to RTI_4. */
  lemma RtiSteps(m: Machine)
    ensures StatusStep(m, RTI_1_Implied) == Ok(Transition(m, Pop, RTI_2_Implied))
    ensures StatusStep(m, RTI_2_Implied) == Ok(Transition(m.(status := StatusOf(m.addr.resultA)), Pop, RTI_3_Implied))
    ensures StatusStep(m, RTI_3_Implied) == Ok(Transition(WithAddress(m, m.addr.resultA), Pop, RTI_4_Implied))
    ensures StatusStep(m, RTI_4_Implied) ==
      Ok(Transition(WithAddress(m, OrHigh(m.addr.memoryAddress, m.addr.resultA)), Nop, RTI_5_Implied))
  {
  }

  /** RTI_1 pops the status byte. */
  lemma RtiFirstPop(m: Machine, d: Dispatch)
    requires !m.bus.used && m.micro.None? && m.next == RTI_1_Implied
    ensures Tick(m, d) == Ok(Popped(m, RTI_2_Implied))
  {
    RtiSteps(m);
    PopTick(m, d, m, RTI_2_Implied);
  }

  /** RTI_2 restores P from the popped byte and pops PC low. */
  lemma RtiSecondPop(z1: Machine, d: Dispatch)
    requires !z1.bus.used && z1.micro.None? && z1.next == RTI_2_Implied
    ensures Tick(z1, d) == Ok(Popped(z1.(status := StatusOf(z1.addr.resultA)), RTI_3_Implied))
  {
    RtiSteps(z1);
    PopTick(z1, d, z1.(status := StatusOf(z1.addr.resultA)), RTI_3_Implied);
  }

  /** RTI_3 keeps PC low as MemoryAddress and pops PC high. */
  lemma RtiThirdPop(z2: Machine, d: Dispatch)
    requires !z2.bus.used && z2.micro.None? && z2.next == RTI_3_Implied
    ensures Tick(z2, d) == Ok(Popped(WithAddress(z2, z2.addr.resultA), RTI_4_Implied))
  {
    RtiSteps(z2);
    PopTick(z2, d, WithAddress(z2, z2.addr.resultA), RTI_4_Implied);
  }

  lemma RtiPopTicks(m: Machine, d: Dispatch)
    requires !m.bus.used && m.micro.None? && m.next == RTI_1_Implied
    ensures Ticks(m, d, 3) == Ok(RtiPopped(m))
  {
    var z1 := Popped(m, RTI_2_Implied);
    var z2 := Popped(z1.(status := StatusOf(z1.addr.resultA)), RTI_3_Implied);
    RtiFirstPop(m, d);
    PoppedFacts(m, RTI_2_Implied);
    RtiSecondPop(z1, d);
    PoppedFacts(z1.(status := StatusOf(z1.addr.resultA)), RTI_3_Implied);
    RtiThirdPop(z2, d);
    TicksThrough(m, d, 3, z1);
    TicksThrough(z1, d, 2, z2);
    OneTick(z2, d, RtiPopped(m));
  }

  lemma RtiPoppedTags(m: Machine)
    ensures var z := RtiPopped(m); z.bus.used == m.bus.used && z.micro.None? && z.next == RTI_4_Implied
  {
  }

  /** RTI_4 joins the popped bytes in one tick. */
  lemma RtiJoinTick(z: Machine, d: Dispatch)
    requires !z.bus.used && z.micro.None? && z.next == RTI_4_Implied
    ensures Tick(z, d) == Ok(RtiJoined(z))
  {
    RtiSteps(z);
    NopTick(z, d, WithAddress(z, OrHigh(z.addr.memoryAddress, z.addr.resultA)), RTI_5_Implied);
  }

  lemma RtiFinishTicks(z: Machine, d: Dispatch)
    requires !z.bus.used && z.micro.None? && z.next == RTI_4_Implied
    ensures Ticks(z, d, 2) == Ok(Dispatched(RtiFinish(z), d))
  {
    var z4 := RtiJoined(z);
    RtiJoinTick(z, d);
    HandToPcTick(z4, d);
    TwoTicks(z, d, z4, Dispatched(RtiFinish(z), d));
  }

  /** From RTI_1, RTI takes five ticks: three pops, the address assembly
      and the dispatch. */
  lemma RtiTicks(m: Machine, d: Dispatch)
    requires !m.bus.used && m.micro.None? && m.next == RTI_1_Implied
    ensures Ticks(m, d, 5) == Ok(Dispatched(RtiReturn(m), d))
  {
    RtiPopTicks(m, d);
    RtiPoppedTags(m);
    RtiFinishTicks(RtiPopped(m), d);
    TicksCompose(m, d, 3, 2, RtiPopped(m), Dispatched(RtiReturn(m), d));
  }

  lemma RtiPoppedState(m: Machine)
    ensures var z := RtiPopped(m); var s: int := m.regs.s;
      && z.bus.mem == m.bus.mem && z.regs == m.regs.(s := Wrap8(s + 3))
      && z.status == StatusOf(m.bus.mem[StackAddress(Wrap8(s + 1))])
      && z.addr.memoryAddress == m.bus.mem[StackAddress(Wrap8(s + 2))]
      && z.addr.resultA == m.bus.mem[StackAddress(Wrap8(s + 3))]
  {
    var s: int := m.regs.s;
    Wrap8Add(s + 1, 1);
    Wrap8Add(s + 2, 1);
  }

  lemma RtiFinishState(z: Machine)
    ensures var e := RtiFinish(z);
      && e.bus.mem == z.bus.mem && e.regs == z.regs && e.status == z.status
      && e.addr.memoryAddress == OrHigh(z.addr.memoryAddress, z.addr.resultA)
      && e.addr.dst == PC && !e.addr.affectFlags
  {
  }

  /** What RTI did: it popped the status byte first, then the PC low byte,
      then the PC high byte; S rose by three and memory is untouched. */
  lemma RtiReturnState(m: Machine)
    ensures var e := RtiReturn(m); var s: int := m.regs.s;
      && e.bus.mem == m.bus.mem
      && e.regs == m.regs.(s := Wrap8(s + 3))
      && e.status == StatusOf(m.bus.mem[StackAddress(Wrap8(s + 1))])
      && e.addr.memoryAddress ==
         MakeWord(m.bus.mem[StackAddress(Wrap8(s + 2))], m.bus.mem[StackAddress(Wrap8(s + 3))])
      && e.addr.dst == PC && !e.addr.affectFlags
  {
    var s: int := m.regs.s;
    RtiPoppedState(m);
    RtiFinishState(RtiPopped(m));
    OrHighOfByte(m.bus.mem[StackAddress(Wrap8(s + 2))], m.bus.mem[StackAddress(Wrap8(s + 3))]);
  }

  /** The three bytes the acknowledge pushed at S, S - 1 and S - 2, read
      back by pops from S - 3, give the status byte and then the address. */
  lemma StackTripleRoundTrip(mem: Memory, s: Byte, w: Word, p: Byte)
    requires mem[StackAddress(s)] == Hi(w) && mem[StackAddress(Wrap8(s - 1))] == Lo(w)
    requires mem[StackAddress(Wrap8(s - 2))] == p
    ensures var t: int := Wrap8(s - 3);
      && mem[StackAddress(Wrap8(t + 1))] == p
      && MakeWord(mem[StackAddress(Wrap8(t + 2))], mem[StackAddress(Wrap8(t + 3))]) == w
      && Wrap8(t + 3) == s
  {
    var si: int := s;
    Wrap8Add(si - 3, 1);
    Wrap8Add(si - 3, 2);
    Wrap8Add(si - 3, 3);
    WordBytes(w);
  }

  /** The three bytes the acknowledge leaves on the stack, and S after it. */
  lemma AcknowledgedStack(m: Machine)
    requires m.interrupt.Some?
    ensures var e := Acknowledged(m); var s := m.regs.s;
      && e.bus.mem[StackAddress(s)] == Hi(m.regs.pc)
      && e.bus.mem[StackAddress(Wrap8(s - 1))] == Lo(m.regs.pc)
      && e.bus.mem[StackAddress(Wrap8(s - 2))] == m.status.Value()
      && e.regs.s == Wrap8(s - 3)
  {
    AcknowledgedState(m);
  }

  /** The acknowledge and RTI are inverse: an RTI that finds S and the
      three stack bytes as the acknowledge left them restores the status
      byte, returns to the interrupted PC and puts S back. */
  lemma InterruptRtiRoundTrip(m: Machine, ret: Machine)
    requires m.interrupt.Some?
    requires ret.regs.s == Acknowledged(m).regs.s
    requires var s := m.regs.s; var e := Acknowledged(m);
      && ret.bus.mem[StackAddress(s)] == e.bus.mem[StackAddress(s)]
      && ret.bus.mem[StackAddress(Wrap8(s - 1))] == e.bus.mem[StackAddress(Wrap8(s - 1))]
      && ret.bus.mem[StackAddress(Wrap8(s - 2))] == e.bus.mem[StackAddress(Wrap8(s - 2))]
    ensures RtiReturn(ret).addr.memoryAddress == m.regs.pc
    ensures RtiReturn(ret).status == m.status
    ensures RtiReturn(ret).regs.s == m.regs.s
  {
    AcknowledgedStack(m);
    RtiReturnState(ret);
    StackTripleRoundTrip(ret.bus.mem, m.regs.s, m.regs.pc, m.status.Value());
    StatusValueRoundTrip(0, m.status);
  }
}
