/** The opcode table and the per-tick driver of the newer engine
    (CPU.OpCode.cs). */
module CpuOpCode {
  import opened Bytes
  import opened Processor
  import opened MasterBus
  import opened CpuState
  import opened CpuMicroCode
  import opened CpuOpCodeStatus
  import opened Wrappers

  /** The declared members of `enum OpCode : byte`. */
  datatype OpCode =
    | BPL_Relative | JSR_Absolute | AND_Immediate | BIT_Absolute | RTS_Implied | ADC_Immediate
    | SEI_Implied | STA_ZeroPage | STX_ZeroPage | TXA_Implied | STY_Absolute | STA_Absolute
    | STX_Absolute | STA_ZeroPageX | TXS_Implied | STA_AbsoluteX | LDY_Immediate | LDX_Immediate
    | LDA_ZeroPage | LDA_Immediate | TAX_Implied | LDA_Absolute | LDA_AbsoluteX | CMP_Absolute
    | BNE_Relative | CLD_Implied | CPX_Immediate | INC_ZeroPage | INX_Implied | BEQ_Relative
  {
    /** The byte each member stands for. */
    function Value(): Byte {
      match this
      case BPL_Relative => 0x10 case JSR_Absolute => 0x20 case AND_Immediate => 0x29
      case BIT_Absolute => 0x2C case RTS_Implied => 0x60 case ADC_Immediate => 0x69
      case SEI_Implied => 0x78 case STA_ZeroPage => 0x85 case STX_ZeroPage => 0x86
      case TXA_Implied => 0x8A case STY_Absolute => 0x8C case STA_Absolute => 0x8D
      case STX_Absolute => 0x8E case STA_ZeroPageX => 0x95 case TXS_Implied => 0x9A
      case STA_AbsoluteX => 0x9D case LDY_Immediate => 0xA0 case LDX_Immediate => 0xA2
      case LDA_ZeroPage => 0xA5 case LDA_Immediate => 0xA9 case TAX_Implied => 0xAA
      case LDA_Absolute => 0xAD case LDA_AbsoluteX => 0xBD case CMP_Absolute => 0xCD
      case BNE_Relative => 0xD0 case CLD_Implied => 0xD8 case CPX_Immediate => 0xE0
      case INC_ZeroPage => 0xE6 case INX_Implied => 0xE8 case BEQ_Relative => 0xF0
    }
  }

  /** The member a byte names, if any: the cast `(OpCode)value`, which
      names a member only for the 30 declared values. */
  function OpCodeOf(b: Byte): Option<OpCode> {
    match b
    case 0x10 => Some(BPL_Relative) case 0x20 => Some(JSR_Absolute) case 0x29 => Some(AND_Immediate)
    case 0x2C => Some(BIT_Absolute) case 0x60 => Some(RTS_Implied) case 0x69 => Some(ADC_Immediate)
    case 0x78 => Some(SEI_Implied) case 0x85 => Some(STA_ZeroPage) case 0x86 => Some(STX_ZeroPage)
    case 0x8A => Some(TXA_Implied) case 0x8C => Some(STY_Absolute) case 0x8D => Some(STA_Absolute)
    case 0x8E => Some(STX_Absolute) case 0x95 => Some(STA_ZeroPageX) case 0x9A => Some(TXS_Implied)
    case 0x9D => Some(STA_AbsoluteX) case 0xA0 => Some(LDY_Immediate) case 0xA2 => Some(LDX_Immediate)
    case 0xA5 => Some(LDA_ZeroPage) case 0xA9 => Some(LDA_Immediate) case 0xAA => Some(TAX_Implied)
    case 0xAD => Some(LDA_Absolute) case 0xBD => Some(LDA_AbsoluteX) case 0xCD => Some(CMP_Absolute)
    case 0xD0 => Some(BNE_Relative) case 0xD8 => Some(CLD_Implied) case 0xE0 => Some(CPX_Immediate)
    case 0xE6 => Some(INC_ZeroPage) case 0xE8 => Some(INX_Implied) case 0xF0 => Some(BEQ_Relative)
    case _ => Option.None
  }

  /** `Value` and `OpCodeOf` are inverse on the declared members: every
      member casts back from its byte... */
  lemma OpCodeRoundTrip(op: OpCode)
    ensures OpCodeOf(op.Value()) == Some(op)
  {
  }

  /** ...and a byte that names a member is that member's value. */
  lemma ByteRoundTrip(b: Byte)
    ensures OpCodeOf(b).Some? ==> OpCodeOf(b).value.Value() == b
  {
  }

  /** `ExecuteOpCode(OpCode)`: the first status of each instruction. */
  function DecodeOp(op: OpCode): Result<OpCodeStatus> {
    match op
    case SEI_Implied => Ok(SEI_1_Implied)
    case CLD_Implied => Ok(CLD_1_Implied)
    case LDX_Immediate => Ok(LDX_1_Immediate)
    case STX_Absolute => Ok(STX_1_Absolute)
    case TXS_Implied => Ok(TXS_1_Implied)
    case INX_Implied => Ok(INX_1_Implied)
    case LDA_Immediate => Ok(LDA_1_Immediate)
    case LDA_Absolute => Ok(LDA_1_Absolute)
    case JSR_Absolute => Ok(JSR_1_Absolute)
    case BIT_Absolute => Ok(BIT_1_Absolute)
    case BPL_Relative => Ok(BPL_1_Relative)
    case TXA_Implied => Ok(TXA_1_Implied)
    case STA_ZeroPageX => Ok(STA_1_ZeroPageX)
    case STA_AbsoluteX => Ok(STA_1_AbsoluteX)
    case BNE_Relative => Ok(BNE_1_Relative)
    case LDY_Immediate => Ok(LDY_1_Immediate)
    case CMP_Absolute => Ok(CMP_1_Absolute)
    case STA_Absolute => Ok(STA_1_Absolute)
    case STY_Absolute => Ok(STY_1_Absolute)
    case STA_ZeroPage => Ok(STA_1_ZeroPage)
    case LDA_ZeroPage => Ok(LDA_1_ZeroPage)
    case AND_Immediate => Ok(AND_1_Immediate)
    case TAX_Implied => Ok(TAX_1_Implied)
    case STX_ZeroPage => Ok(STX_1_ZeroPage)
    case RTS_Implied => Ok(RTS_1_Implied)
    case LDA_AbsoluteX => Ok(LDA_1_AbsoluteX)
    case CPX_Immediate => Ok(CPX_1_Immediate)
    case BEQ_Relative => Ok(BEQ_1_Relative)
    case INC_ZeroPage => Ok(INC_1_ZeroPage)
    case _ => Err(InvalidProgram)
  }

  /** The opcode fetched as a byte, decoded. */
  function Decode(b: Byte): Result<OpCodeStatus> {
    match OpCodeOf(b)
    case None => Err(InvalidProgram)
    case Some(op) => DecodeOp(op)
  }

  /** A byte decodes exactly when it is a declared opcode other than ADC
      (0x69); every other byte raises InvalidProgramException. */
  lemma DecodeDomain(b: Byte)
    ensures Decode(b).Ok? <==> OpCodeOf(b).Some? && b != 0x69
    ensures Decode(b).Err? ==> Decode(b).error == InvalidProgram
  {
  }

  /** Different opcodes decode to different first statuses. */
  lemma DecodeOpInjective(x: OpCode, y: OpCode)
    requires DecodeOp(x).Ok? && DecodeOp(y).Ok? && x != y
    ensures DecodeOp(x).value != DecodeOp(y).value
  {
    match x
    case BPL_Relative => case JSR_Absolute => case AND_Immediate => case BIT_Absolute =>
    case RTS_Implied => case ADC_Immediate => case SEI_Implied => case STA_ZeroPage =>
    case STX_ZeroPage => case TXA_Implied => case STY_Absolute => case STA_Absolute =>
    case STX_Absolute => case STA_ZeroPageX => case TXS_Implied => case STA_AbsoluteX =>
    case LDY_Immediate => case LDX_Immediate => case LDA_ZeroPage => case LDA_Immediate =>
    case TAX_Implied => case LDA_Absolute => case LDA_AbsoluteX => case CMP_Absolute =>
    case BNE_Relative => case CLD_Implied => case CPX_Immediate => case INC_ZeroPage =>
    case INX_Implied => case BEQ_Relative =>
  }

  /** Two different opcodes never start the same instruction. */
  lemma DecodeInjective(a: Byte, b: Byte)
    requires Decode(a).Ok? && Decode(b).Ok? && a != b
    ensures Decode(a).value != Decode(b).value
  {
    ByteRoundTrip(a);
    ByteRoundTrip(b);
    DecodeOpInjective(OpCodeOf(a).value, OpCodeOf(b).value);
  }

  /** Every decoded status has an arm in the status step. */
  lemma DecodedHasArm(b: Byte)
    requires Decode(b).Ok?
    ensures HasArm(Decode(b).value)
  {
  }

  /** A few entries of the table: 0xF0 starts BEQ, 0xE6 starts INC on page
      0, 0x20 starts JSR and 0x60 starts RTS. */
  lemma DecodeExamples()
    ensures Decode(0xF0) == Ok(BEQ_1_Relative) && Decode(0xE6) == Ok(INC_1_ZeroPage)
    ensures Decode(0x20) == Ok(JSR_1_Absolute) && Decode(0x60) == Ok(RTS_1_Implied)
    ensures Decode(0x69) == Err(InvalidProgram) && Decode(0xFF) == Err(InvalidProgram)
  {
  }

  /** `_nextMicroCode = ExecuteMicroCode(code)`, with `DispatchAddressing`
      applied when the arm calls it. */
  function RunMicro(m: Machine, code: MicroCode, d: Dispatch): Result<Machine> {
    var st :- MicroStep(m, code);
    var m1 := st.m.(micro := st.next);
    Ok(if st.dispatch then Dispatched(m1, d) else m1)
  }

  /** `(_nextMicroCode, _nextOpCodeStatus) = ExecuteOpCode(_nextOpCodeStatus)`
      followed by `_nextMicroCode = ExecuteMicroCode(_nextMicroCode)`. */
  function Continue(m: Machine, d: Dispatch): Result<Machine> {
    var t :- StatusStep(m, m.next);
    RunMicro(t.m.(micro := t.micro, next := t.next), t.micro, d)
  }

  /** `ExecuteOpCode()`, one CPU tick. */
  function Tick(m: Machine, d: Dispatch): Result<Machine> {
    if m.bus.used then Ok(m)
    else if m.micro.None? then
      if m.next.None? then
        if !m.reading then Ok(IncPC(BusRead(m, m.regs.pc)).(reading := true))
        else
          var st :- Decode(m.bus.value);
          Continue(m.(reading := false, next := st), d)
      else Continue(m, d)
    else RunMicro(m, m.micro, d)
  }

  /** While another master holds the bus, `TryAcquire` fails and the tick
      changes nothing. */
  lemma TickWhileBusy(m: Machine, d: Dispatch)
    requires m.bus.used
    ensures Tick(m, d) == Ok(m)
  {
  }

  /** With nothing pending, a tick only fetches: it reads the byte at PC,
      advances PC by one and notes that an opcode is being read. */
  lemma TickFetches(m: Machine, d: Dispatch)
    requires !m.bus.used && m.micro.None? && m.next.None? && !m.reading
    ensures Tick(m, d) ==
      Ok(m.(regs := m.regs.(pc := Wrap16(m.regs.pc + 1)), bus := m.bus.(value := m.bus.mem[m.regs.pc]),
            reading := true))
  {
  }

  /** On the tick after a fetch the byte is decoded, and the first status
      step and the micro-code it names run in that same tick. */
  lemma TickDecodes(m: Machine, d: Dispatch)
    requires !m.bus.used && m.micro.None? && m.next.None? && m.reading
    ensures Decode(m.bus.value).Err? ==> Tick(m, d) == Err(InvalidProgram)
    ensures Decode(m.bus.value).Ok? ==>
      Tick(m, d) == Continue(m.(reading := false, next := Decode(m.bus.value).value), d)
  {
  }

  /** With an opcode status pending and no micro-code, a tick runs that
      status step and then its micro-code. */
  lemma TickContinues(m: Machine, d: Dispatch)
    requires !m.bus.used && m.micro.None? && !m.next.None?
    ensures Tick(m, d) == Continue(m, d)
  {
  }

  /** A pending micro-code runs on its own: the status step does not run
      and the pending status is carried over unchanged. */
  lemma TickRunsMicroFirst(m: Machine, d: Dispatch)
    requires !m.bus.used && !m.micro.None?
    ensures Tick(m, d) == RunMicro(m, m.micro, d)
    ensures Tick(m, d).Ok? ==> Tick(m, d).value.next == m.next
  {
  }
}
