/** The micro-code step of the newer engine (CPU.MicroCode.cs): the
    addressing modes, the stack and the flag set/clear operations. */
module CpuMicroCode {
  import opened Bytes
  import opened Processor
  import opened MasterBus
  import opened CpuState
  import opened Wrappers

  /** The outcome of one micro-code step: the machine, the next micro-code
      and whether the arm ended by calling `DispatchAddressing()`. Every arm
      that dispatches does so as its last action, so the engine applies the
      dispatch to `m` afterwards. */
  datatype Step = Step(m: Machine, next: MicroCode, dispatch: bool)

  /** `ExecuteMicroCode(code)`, or the exception thrown for a tag without an arm. */
  function MicroStep(m: Machine, code: MicroCode): Result<Step> {
    match code
    case Nop => Ok(Step(m, MicroCode.None, false))
    case Addressing => Ok(Step(m, MicroCode.None, true))
    case Immediate => Ok(Step(ImmediateOperand(m), MicroCode.None, true))
    case Relative => Ok(Step(RelativeOperand(m), MicroCode.None, true))
    case Absolute_1 => Ok(Step(LoadLow(m), Absolute_2, false))
    case Absolute_2 => Ok(Step(LoadHigh(m), Absolute_3, false))
    case Absolute_3 => Ok(Step(m, MicroCode.None, true))
    case ZeroPage_1 => Ok(Step(LoadLow(m), ZeroPage_2, false))
    case ZeroPage_2 => Ok(Step(m, MicroCode.None, true))
    case ZeroPageX_1 => Ok(Step(LoadLow(m), ZeroPageX_2, false))
    case ZeroPageX_2 => Ok(Step(IndexZeroPage(m), ZeroPageX_3, false))
    case ZeroPageX_3 => Ok(Step(m, MicroCode.None, true))
    case AbsoluteX_1 => Ok(Step(LoadLow(m), AbsoluteX_2, false))
    case AbsoluteX_2 => Ok(Step(LoadHigh(m), AbsoluteX_3, false))
    case AbsoluteX_3 => Ok(Step(IndexAbsolute(m, m.regs.x), MicroCode.None, true))
    case AbsoluteY_1 => Ok(Step(LoadLow(m), AbsoluteX_2, false))
    case AbsoluteY_2 => Ok(Step(LoadHigh(m), AbsoluteX_3, false))
    case AbsoluteY_3 => Ok(Step(IndexAbsolute(m, m.regs.y), MicroCode.None, true))
    case IndirectY_1 => Ok(Step(LoadPointer(m), IndirectY_2, false))
    case IndirectY_2 => Ok(Step(LoadIndirectLow(m), IndirectY_3, false))
    case IndirectY_3 => Ok(Step(LoadIndirectHigh(m), IndirectY_4, false))
    case IndirectY_4 => Ok(Step(IndexAbsolute(m, m.regs.y), MicroCode.None, true))
    case Push => Ok(Step(PushResult(m), MicroCode.None, false))
    case Pop => Ok(Step(PopResult(m), MicroCode.None, false))
    case SEI => Ok(Step(m.(status := m.status.WithI(true)), MicroCode.None, false))
    case CLC => Ok(Step(m.(status := m.status.WithC(false)), MicroCode.None, false))
    case CLD => Ok(Step(m.(status := m.status.WithD(false)), MicroCode.None, false))
    case _ => Err(InvalidProgram)
  }

  /** Immediate: `MemoryAddress = Registers.PC++`. */
  function ImmediateOperand(m: Machine): Machine {
    IncPC(m.(addr := m.addr.(memoryAddress := m.regs.pc)))
  }

  /** Relative: `Read(PC++)`, `MemoryAddress = (ushort)(PC + (sbyte)Value)`. */
  function RelativeOperand(m: Machine): Machine {
    var m1 := IncPC(BusRead(m, m.regs.pc));
    m1.(addr := m1.addr.(memoryAddress := Wrap16(m1.regs.pc + Signed8(m1.bus.value))))
  }

  /** Zero page,X: `MemoryAddress = (byte)(MemoryAddress + X)`. */
  function IndexZeroPage(m: Machine): Machine {
    m.(addr := m.addr.(memoryAddress := Wrap8(m.addr.memoryAddress + m.regs.x)))
  }

  /** `MemoryAddress += index` on the 16-bit address. */
  function IndexAbsolute(m: Machine, index: Byte): Machine {
    m.(addr := m.addr.(memoryAddress := Wrap16(m.addr.memoryAddress + index)))
  }

  /** (Indirect),Y step 1: `Read(PC++)`, `MemoryAddress8 = Value`. */
  function LoadPointer(m: Machine): Machine {
    var m1 := IncPC(BusRead(m, m.regs.pc));
    m1.(addr := m1.addr.(memoryAddress8 := m1.bus.value))
  }

  /** (Indirect),Y step 2: `Read(MemoryAddress8)`, `MemoryAddress = Value`. */
  function LoadIndirectLow(m: Machine): Machine {
    var m1 := BusRead(m, m.addr.memoryAddress8);
    m1.(addr := m1.addr.(memoryAddress := m1.bus.value))
  }

  /** (Indirect),Y step 3: `Read((byte)(MemoryAddress8 + 1))`,
      `MemoryAddress |= Value << 8`. */
  function LoadIndirectHigh(m: Machine): Machine {
    var m1 := BusRead(m, Wrap8(m.addr.memoryAddress8 as int + 1));
    m1.(addr := m1.addr.(memoryAddress := OrHigh(m1.addr.memoryAddress, m1.bus.value)))
  }

  /** Push: `Value = ResultA`, `Write(0x100 + S--)`. */
  function PushResult(m: Machine): Machine {
    var b := m.bus.Latch(m.addr.resultA).Write(StackAddress(m.regs.s));
    m.(bus := b, regs := m.regs.(s := Wrap8(m.regs.s - 1)))
  }

  /** Pop: `Read(0x100 + ++S)`, `ResultA = Value`. */
  function PopResult(m: Machine): Machine {
    var s := Wrap8(m.regs.s + 1);
    var b := m.bus.Read(StackAddress(s));
    m.(bus := b, regs := m.regs.(s := s), addr := m.addr.(resultA := b.value))
  }

  /** The first operand byte: `Read(PC++)`, `MemoryAddress = Value`. */
  function LoadLow(m: Machine): Machine {
    var m1 := IncPC(BusRead(m, m.regs.pc));
    m1.(addr := m1.addr.(memoryAddress := m1.bus.value))
  }

  /** The second operand byte: `Read(PC++)`, `MemoryAddress |= Value << 8`. */
  function LoadHigh(m: Machine): Machine {
    var m1 := IncPC(BusRead(m, m.regs.pc));
    m1.(addr := m1.addr.(memoryAddress := OrHigh(m1.addr.memoryAddress, m1.bus.value)))
  }

  /** Consecutive micro-code steps, as consecutive ticks run them, until an
      arm dispatches, the micro-code is `None`, or `n` steps have run. */
  function MicroChain(m: Machine, code: MicroCode, n: nat): Result<Step>
    decreases n
  {
    if n == 0 || code == MicroCode.None then Ok(Step(m, code, false))
    else match MicroStep(m, code)
      case Err(e) => Err(e)
      case Ok(st) => if st.dispatch then Ok(st) else MicroChain(st.m, st.next, n - 1)
  }

  /** The machine as the dispatch sees it after an addressing mode has read
      `k` operand bytes, the last one `latch`, and formed address `ea`. */
  function Operand(m: Machine, ea: Word, k: nat, latch: Byte): Machine {
    m.(regs := m.regs.(pc := Wrap16(m.regs.pc + k)),
       addr := m.addr.(memoryAddress := ea),
       bus := m.bus.(value := latch))
  }

  /** The byte `k` places after PC. */
  function AtPC(m: Machine, k: nat): Byte { m.bus.mem[Wrap16(m.regs.pc + k)] }

  /** Immediate: the operand address is the PC itself, and PC moves past it. */
  lemma ImmediateAddress(m: Machine)
    ensures MicroStep(m, Immediate) == Ok(Step(Operand(m, m.regs.pc, 1, m.bus.value), MicroCode.None, true))
  {
  }

  /** Relative: the signed offset at PC is added to the PC after the offset. */
  lemma RelativeTarget(m: Machine)
    ensures MicroStep(m, Relative) ==
      Ok(Step(Operand(m, Wrap16(Wrap16(m.regs.pc + 1) + Signed8(AtPC(m, 0))), 1, AtPC(m, 0)), MicroCode.None, true))
  {
  }

  /** Absolute: three steps; the address is `lo | hi << 8` from PC and PC+1,
      PC advances by 2, and the dispatch happens at the third step. */
  lemma AbsoluteAddress(m: Machine)
    ensures MicroChain(m, Absolute_1, 3) ==
      Ok(Step(Operand(m, MakeWord(AtPC(m, 0), AtPC(m, 1)), 2, AtPC(m, 1)), MicroCode.None, true))
  {
    var m1 := LoadLow(m);
    var m2 := LoadHigh(m1);
    ChainThrough(m, Absolute_1, 3, Step(m1, Absolute_2, false));
    ChainThrough(m1, Absolute_2, 2, Step(m2, Absolute_3, false));
    ChainEnd(m2, Absolute_3, 1, Step(m2, MicroCode.None, true));
    TwoBytes(m);
  }

  /** After LoadLow and LoadHigh the address is the little-endian word at PC
      and PC has moved by 2. */
  lemma TwoBytes(m: Machine)
    ensures LoadHigh(LoadLow(m)) == Operand(m, MakeWord(AtPC(m, 0), AtPC(m, 1)), 2, AtPC(m, 1))
  {
    var m1 := LoadLow(m);
    assert m1.addr.memoryAddress == AtPC(m, 0);
    assert m1.regs.pc == Wrap16(m.regs.pc + 1);
    assert AtPC(m1, 0) == AtPC(m, 1);
    OrHighOfByte(AtPC(m, 0), AtPC(m, 1));
    assert Wrap16(m1.regs.pc + 1) == Wrap16(m.regs.pc + 2);
  }

  /** Zero page: the address is the byte at PC, always in page 0. */
  lemma ZeroPageAddress(m: Machine)
    ensures MicroChain(m, ZeroPage_1, 2) ==
      Ok(Step(Operand(m, AtPC(m, 0), 1, AtPC(m, 0)), MicroCode.None, true))
  {
  }

  /** One step of a chain that does not dispatch hands over to the rest. */
  lemma ChainThrough(m: Machine, code: MicroCode, n: nat, st: Step)
    requires n > 0 && code != MicroCode.None && MicroStep(m, code) == Ok(st) && !st.dispatch
    ensures MicroChain(m, code, n) == MicroChain(st.m, st.next, n - 1)
  {
  }

  /** Two steps, the second of which dispatches. */
  lemma ChainTwo(m: Machine, code: MicroCode, m1: Machine, code1: MicroCode, st: Step)
    requires code != MicroCode.None && code1 != MicroCode.None
    requires MicroStep(m, code) == Ok(Step(m1, code1, false))
    requires MicroStep(m1, code1) == Ok(st) && st.dispatch
    ensures MicroChain(m, code, 2) == Ok(st)
  {
  }

  /** A step that dispatches ends the chain with its own outcome. */
  lemma ChainEnd(m: Machine, code: MicroCode, n: nat, st: Step)
    requires n > 0 && code != MicroCode.None && MicroStep(m, code) == Ok(st) && st.dispatch
    ensures MicroChain(m, code, n) == Ok(st)
  {
  }

  /** Zero page,X: `(operand + X) mod 256`, so the address never leaves page 0. */
  lemma ZeroPageXAddress(m: Machine)
    ensures MicroChain(m, ZeroPageX_1, 3) ==
      Ok(Step(Operand(m, Wrap8(AtPC(m, 0) + m.regs.x), 1, AtPC(m, 0)), MicroCode.None, true))
  {
    ZeroPageXChain(m);
    ZeroPageXOperand(m);
  }

  /** The three zero page,X steps: load the operand, index it, dispatch. */
  lemma ZeroPageXChain(m: Machine)
    ensures MicroChain(m, ZeroPageX_1, 3) == Ok(Step(IndexZeroPage(LoadLow(m)), MicroCode.None, true))
  {
    var m1 := LoadLow(m);
    var m2 := IndexZeroPage(m1);
    ChainThrough(m, ZeroPageX_1, 3, Step(m1, ZeroPageX_2, false));
    ChainThrough(m1, ZeroPageX_2, 2, Step(m2, ZeroPageX_3, false));
    ChainEnd(m2, ZeroPageX_3, 1, Step(m2, MicroCode.None, true));
  }

  /** Loading the operand byte and indexing it by X on page 0. */
  lemma ZeroPageXOperand(m: Machine)
    ensures IndexZeroPage(LoadLow(m)) == Operand(m, Wrap8(AtPC(m, 0) + m.regs.x), 1, AtPC(m, 0))
  {
    assert Wrap16(m.regs.pc + 0) == m.regs.pc;
  }

  /** Absolute,X and Absolute,Y as written share their last two steps:
      the two operand bytes, then the index X. */
  lemma AbsoluteIndexChain(m: Machine, first: MicroCode)
    requires first in {AbsoluteX_1, AbsoluteY_1}
    ensures MicroChain(m, first, 3) ==
      Ok(Step(IndexAbsolute(LoadHigh(LoadLow(m)), m.regs.x), MicroCode.None, true))
  {
    var m1 := LoadLow(m);
    var m2 := LoadHigh(m1);
    ChainThrough(m, first, 3, Step(m1, AbsoluteX_2, false));
    ChainThrough(m1, AbsoluteX_2, 2, Step(m2, AbsoluteX_3, false));
    ChainEnd(m2, AbsoluteX_3, 1, Step(IndexAbsolute(m2, m2.regs.x), MicroCode.None, true));
  }

  /** Indexing an operand address adds the index modulo 65536. */
  lemma IndexOperand(m: Machine, ea: Word, k: nat, latch: Byte, index: Byte)
    ensures IndexAbsolute(Operand(m, ea, k, latch), index) == Operand(m, Wrap16(ea + index), k, latch)
  {
  }

  /** The two operand bytes indexed by X: the little-endian base plus X
      modulo 65536, with PC moved by 2. */
  lemma IndexedBase(m: Machine)
    ensures IndexAbsolute(LoadHigh(LoadLow(m)), m.regs.x) ==
      Operand(m, Wrap16(MakeWord(AtPC(m, 0), AtPC(m, 1)) + m.regs.x), 2, AtPC(m, 1))
  {
    TwoBytes(m);
    IndexOperand(m, MakeWord(AtPC(m, 0), AtPC(m, 1)), 2, AtPC(m, 1), m.regs.x);
  }

  /** Absolute,X: `(base + X) mod 65536`. */
  lemma AbsoluteXAddress(m: Machine)
    ensures MicroChain(m, AbsoluteX_1, 3) ==
      Ok(Step(Operand(m, Wrap16(MakeWord(AtPC(m, 0), AtPC(m, 1)) + m.regs.x), 2, AtPC(m, 1)),
              MicroCode.None, true))
  {
    AbsoluteIndexChain(m, AbsoluteX_1);
    IndexedBase(m);
  }

  /** Absolute,Y as written continues into AbsoluteX_2 and AbsoluteX_3, so
      the index added is X, not Y. */
  lemma AbsoluteYAddsX(m: Machine)
    ensures MicroChain(m, AbsoluteY_1, 3) ==
      Ok(Step(Operand(m, Wrap16(MakeWord(AtPC(m, 0), AtPC(m, 1)) + m.regs.x), 2, AtPC(m, 1)),
              MicroCode.None, true))
  {
    AbsoluteIndexChain(m, AbsoluteY_1);
    IndexedBase(m);
  }

  /** (Indirect),Y: the pointer p is the byte at PC, the base is read from
      p and `(p + 1) mod 256`, and Y is added modulo 65536. */
  lemma IndirectYAddress(m: Machine)
    ensures MicroChain(m, IndirectY_1, 4) == Ok(Step(IndirectOperand(m), MicroCode.None, true))
  {
    var m1 := LoadPointer(m);
    var m2 := LoadIndirectLow(m1);
    ChainThrough(m, IndirectY_1, 4, Step(m1, IndirectY_2, false));
    ChainThrough(m1, IndirectY_2, 3, Step(m2, IndirectY_3, false));
    IndirectYTail(m2);
    IndirectBytes(m);
  }

  /** The last two (indirect),Y steps: read the high byte, then add Y. */
  lemma IndirectYTail(m: Machine)
    ensures MicroChain(m, IndirectY_3, 2) ==
      Ok(Step(IndexAbsolute(LoadIndirectHigh(m), m.regs.y), MicroCode.None, true))
  {
    var m1 := LoadIndirectHigh(m);
    HighKeepsRegisters(m);
    IndirectYSteps(m, m1);
    ChainTwo(m, IndirectY_3, m1, IndirectY_4, Step(IndexAbsolute(m1, m1.regs.y), MicroCode.None, true));
  }

  /** Reading the high byte of the base changes no register. */
  lemma HighKeepsRegisters(m: Machine)
    ensures LoadIndirectHigh(m).regs == m.regs
  {
  }

  /** The arms of IndirectY_3 and IndirectY_4, one step each. */
  lemma IndirectYSteps(m: Machine, m1: Machine)
    ensures MicroStep(m, IndirectY_3) == Ok(Step(LoadIndirectHigh(m), IndirectY_4, false))
    ensures MicroStep(m1, IndirectY_4) == Ok(Step(IndexAbsolute(m1, m1.regs.y), MicroCode.None, true))
  {
  }

  /** The machine the (indirect),Y dispatch sees: PC moved by 1, the
      pointer kept in MemoryAddress8, the last byte read latched, and the
      address `(mem[p] | mem[(p + 1) mod 256] << 8) + Y` modulo 65536. */
  function IndirectOperand(m: Machine): Machine {
    var p := AtPC(m, 0);
    var hi := m.bus.mem[Wrap8(p as int + 1)];
    var o := Operand(m, Wrap16(MakeWord(m.bus.mem[p], hi) + m.regs.y), 1, hi);
    o.(addr := o.addr.(memoryAddress8 := p))
  }

  /** The three reads of (indirect),Y form the base address from page 0. */
  lemma IndirectBytes(m: Machine)
    ensures IndexAbsolute(LoadIndirectHigh(LoadIndirectLow(LoadPointer(m))), m.regs.y) == IndirectOperand(m)
  {
    var m1 := LoadPointer(m);
    var m2 := LoadIndirectLow(m1);
    var p := AtPC(m, 0);
    var lo := m.bus.mem[p];
    var hi := m.bus.mem[Wrap8(p as int + 1)];
    assert m1.addr.memoryAddress8 == p;
    assert m2.addr.memoryAddress == lo;
    OrHighOfByte(lo, hi);
  }

  /** Push writes ResultA at `0x100 + S` and then decrements S; Pop
      increments S and then reads `0x100 + S`. A push followed by a pop
      returns the pushed byte and restores S, and both touch page 1 only. */
  lemma PushPop(m: Machine)
    ensures MicroStep(m, Push) == Ok(Step(PushResult(m), MicroCode.None, false))
    ensures var m1 := PushResult(m);
      && m1.bus.mem == m.bus.mem[StackAddress(m.regs.s) := m.addr.resultA]
      && m1.regs.s == (m.regs.s + 0xFF) % 0x100
      && MicroStep(m1, Pop) == Ok(Step(PopResult(m1), MicroCode.None, false))
      && var m2 := PopResult(m1);
         m2.addr.resultA == m.addr.resultA && m2.regs == m.regs && m2.bus.mem == m1.bus.mem
    ensures 0x100 <= StackAddress(m.regs.s) <= 0x1FF
  {
  }

  /** SEI, CLC and CLD each change their own flag and nothing else. */
  lemma FlagOps(m: Machine)
    ensures var r := MicroStep(m, SEI).value.m;
      r.status.I() && r.status.bits & !MaskI == m.status.bits & !MaskI && r == m.(status := r.status)
    ensures var r := MicroStep(m, CLC).value.m;
      !r.status.C() && r.status.bits & !MaskC == m.status.bits & !MaskC && r == m.(status := r.status)
    ensures var r := MicroStep(m, CLD).value.m;
      !r.status.D() && r.status.bits & !MaskD == m.status.bits & !MaskD && r == m.(status := r.status)
  {
    WithFlagFrame(m.status, MaskI, true);
    WithFlagFrame(m.status, MaskC, false);
    WithFlagFrame(m.status, MaskD, false);
  }

  /** Exactly the tags without an arm (None, the zero page,Y and
      (indirect,X) modes, ADC) raise InvalidProgramException; every other
      tag steps. */
  lemma MicroCodeWithoutArm(m: Machine, code: MicroCode)
    ensures MicroStep(m, code).Err? <==>
      || code in {MicroCode.None, ZeroPageY_1, ZeroPageY_2, ZeroPageY_3, IndirectX_1,
                  IndirectX_2, IndirectX_3, IndirectX_4, IndirectX_5, ADC}
    ensures MicroStep(m, code).Err? ==> MicroStep(m, code).error == InvalidProgram
  {
  }
}
