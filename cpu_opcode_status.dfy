/** The opcode-status step of the newer engine (CPU.OpCodeStatus.cs): each
    tag does its own small piece of an instruction and names the micro-code
    to run next and the tag to continue with. */
module CpuOpCodeStatus {
  import opened Bytes
  import opened Processor
  import opened CpuState
  import opened Wrappers

  /** What `ExecuteOpCode(OpCodeStatus)` returns, with the machine it leaves. */
  datatype Transition = Transition(m: Machine, micro: MicroCode, next: OpCodeStatus)

  /** An arm whose only effect is `_addressState.Set(...)`, possibly after
      `Registers.PC--`: the descriptor it installs and the tags it returns. */
  datatype SetArm = SetArm(
    src1: AddressOperand, src2: AddressOperand, dst: AddressOperand,
    op: AddressOperation, affectFlags: bool,
    micro: MicroCode, next: OpCodeStatus, rewind: bool)

  /** The arms that only install a descriptor, and the second passes of the
      read-modify-write instructions, which first step PC back by one. */
  function SetArmOf(code: OpCodeStatus): Option<SetArm> {
    match code
    case Relative_Jump => Some(SetArm(Memory, NoOperand, PC, NoOp, false, Relative, OpCodeStatus.None, false))
    case STY_1_Absolute => Some(SetArm(Y, NoOperand, Memory, NoOp, false, Absolute_1, OpCodeStatus.None, false))
    case STY_1_ZeroPage => Some(SetArm(Y, NoOperand, Memory, NoOp, false, ZeroPage_1, OpCodeStatus.None, false))
    case STA_1_ZeroPage => Some(SetArm(A, NoOperand, Memory, NoOp, false, ZeroPage_1, OpCodeStatus.None, false))
    case STA_1_ZeroPageX => Some(SetArm(A, NoOperand, Memory, NoOp, false, ZeroPageX_1, OpCodeStatus.None, false))
    case STA_1_AbsoluteX => Some(SetArm(A, NoOperand, Memory, NoOp, false, AbsoluteX_1, OpCodeStatus.None, false))
    case STA_1_Absolute => Some(SetArm(A, NoOperand, Memory, NoOp, false, Absolute_1, OpCodeStatus.None, false))
    case STX_1_ZeroPage => Some(SetArm(X, NoOperand, Memory, NoOp, false, ZeroPage_1, OpCodeStatus.None, false))
    case STX_1_Absolute => Some(SetArm(X, NoOperand, Memory, NoOp, false, Absolute_1, OpCodeStatus.None, false))
    case LDY_1_Immediate => Some(SetArm(Memory, NoOperand, Y, NoOp, true, Immediate, OpCodeStatus.None, false))
    case LDY_1_Absolute => Some(SetArm(Memory, NoOperand, Y, NoOp, true, Absolute_1, OpCodeStatus.None, false))
    case LDY_1_ZeroPage => Some(SetArm(Memory, NoOperand, Y, NoOp, true, ZeroPage_1, OpCodeStatus.None, false))
    case LDX_1_Immediate => Some(SetArm(Memory, NoOperand, X, NoOp, true, Immediate, OpCodeStatus.None, false))
    case TAX_1_Implied => Some(SetArm(A, NoOperand, X, NoOp, true, Addressing, OpCodeStatus.None, false))
    case TAY_1_Implied => Some(SetArm(A, NoOperand, Y, NoOp, true, Addressing, OpCodeStatus.None, false))
    case TXA_1_Implied => Some(SetArm(X, NoOperand, A, NoOp, true, Addressing, OpCodeStatus.None, false))
    case TYA_1_Implied => Some(SetArm(Y, NoOperand, A, NoOp, true, Addressing, OpCodeStatus.None, false))
    case TXS_1_Implied => Some(SetArm(X, NoOperand, S, NoOp, false, Addressing, OpCodeStatus.None, false))
    case INC_1_ZeroPage => Some(SetArm(Memory, NoOperand, NoOperand, NoOp, false, ZeroPage_1, INC_2_ZeroPage, false))
    case INC_2_ZeroPage => Some(SetArm(NoOperand, NoOperand, Memory, Inc, true, ZeroPage_1, OpCodeStatus.None, true))
    case DEC_1_ZeroPage => Some(SetArm(Memory, NoOperand, NoOperand, NoOp, false, ZeroPage_1, DEC_2_ZeroPage, false))
    case DEC_2_ZeroPage => Some(SetArm(NoOperand, NoOperand, Memory, Dec, true, ZeroPage_1, OpCodeStatus.None, true))
    case INX_1_Implied => Some(SetArm(X, NoOperand, X, Inc, true, Addressing, OpCodeStatus.None, false))
    case INY_1_Implied => Some(SetArm(Y, NoOperand, Y, Inc, true, Addressing, OpCodeStatus.None, false))
    case DEX_1_Implied => Some(SetArm(X, NoOperand, X, Dec, true, Addressing, OpCodeStatus.None, false))
    case DEY_1_Implied => Some(SetArm(Y, NoOperand, Y, Dec, true, Addressing, OpCodeStatus.None, false))
    case LDA_1_Immediate => Some(SetArm(Memory, NoOperand, A, NoOp, true, Immediate, OpCodeStatus.None, false))
    case LDA_1_Absolute => Some(SetArm(Memory, NoOperand, A, NoOp, true, Absolute_1, OpCodeStatus.None, false))
    case LDA_1_AbsoluteX => Some(SetArm(Memory, NoOperand, A, NoOp, true, AbsoluteX_1, OpCodeStatus.None, false))
    case LDA_1_AbsoluteY => Some(SetArm(Memory, NoOperand, A, NoOp, true, AbsoluteY_1, OpCodeStatus.None, false))
    case LDA_1_IndirectY => Some(SetArm(Memory, NoOperand, A, NoOp, true, IndirectY_1, OpCodeStatus.None, false))
    case LDA_1_ZeroPage => Some(SetArm(Memory, NoOperand, A, NoOp, true, ZeroPage_1, OpCodeStatus.None, false))
    case LDA_1_ZeroPageX => Some(SetArm(Memory, NoOperand, A, NoOp, true, ZeroPageX_1, OpCodeStatus.None, false))
    case JSR_3_Absolute => Some(SetArm(Memory, NoOperand, PC, NoOp, false, Absolute_1, OpCodeStatus.None, false))
    case BIT_1_Absolute => Some(SetArm(A, Memory, NoOperand, BitTest, true, Absolute_1, OpCodeStatus.None, false))
    case CMP_1_Immediate => Some(SetArm(A, Memory, NoOperand, Compare, true, Immediate, OpCodeStatus.None, false))
    case CMP_1_ZeroPage => Some(SetArm(A, Memory, NoOperand, Compare, true, ZeroPage_1, OpCodeStatus.None, false))
    case CMP_1_Absolute => Some(SetArm(A, Memory, NoOperand, Compare, true, Absolute_1, OpCodeStatus.None, false))
    case CMP_1_ZeroPageX => Some(SetArm(A, Memory, NoOperand, Compare, true, ZeroPageX_1, OpCodeStatus.None, false))
    case CPX_1_Immediate => Some(SetArm(X, Memory, NoOperand, Compare, true, Immediate, OpCodeStatus.None, false))
    case CPY_1_Immediate => Some(SetArm(Y, Memory, NoOperand, Compare, true, Immediate, OpCodeStatus.None, false))
    case AND_1_Immediate => Some(SetArm(A, Memory, A, And, true, Immediate, OpCodeStatus.None, false))
    case AND_1_ZeroPageX => Some(SetArm(A, Memory, A, And, true, ZeroPageX_1, OpCodeStatus.None, false))
    case ORA_1_Immediate => Some(SetArm(A, Memory, A, Or, true, Immediate, OpCodeStatus.None, false))
    case ORA_1_ZeroPage => Some(SetArm(A, Memory, A, Or, true, ZeroPage_1, OpCodeStatus.None, false))
    case RTI_5_Implied => Some(SetArm(NoOperand, NoOperand, PC, NoOp, false, Addressing, OpCodeStatus.None, false))
    case JMP_1_Absolute => Some(SetArm(Memory, NoOperand, PC, NoOp, false, Absolute_1, OpCodeStatus.None, false))
    case RTS_5_Implied => Some(SetArm(NoOperand, NoOperand, PC, NoOp, false, Addressing, OpCodeStatus.None, false))
    case ADC_1_Immediate => Some(SetArm(A, Memory, A, Adc, true, Immediate, OpCodeStatus.None, false))
    case ROL_1_ZeroPage => Some(SetArm(Memory, NoOperand, NoOperand, NoOp, false, ZeroPage_1, ROL_2_ZeroPage, false))
    case ROL_2_ZeroPage => Some(SetArm(NoOperand, NoOperand, Memory, Rol, true, ZeroPage_1, OpCodeStatus.None, true))
    case ASL_1_ZeroPage => Some(SetArm(Memory, NoOperand, NoOperand, NoOp, false, ZeroPage_1, ASL_2_ZeroPage, false))
    case ASL_2_ZeroPage => Some(SetArm(NoOperand, NoOperand, Memory, Asl, true, ZeroPage_1, OpCodeStatus.None, true))
    case EOR_1_Immediate => Some(SetArm(A, Memory, A, Xor, true, Immediate, OpCodeStatus.None, false))
    case _ => Option.None
  }

  /** Installs a descriptor arm: `Registers.PC--` when it rewinds, then `Set`. */
  function ApplySetArm(m: Machine, s: SetArm): Transition {
    var m1 := if s.rewind then DecPC(m) else m;
    Transition(m1.(addr := m1.addr.Set(s.src1, s.src2, s.dst, s.op, s.affectFlags)), s.micro, s.next)
  }

  /** The five conditional branches and the flag each one tests. */
  predicate IsBranch(code: OpCodeStatus) {
    code in {BPL_1_Relative, BMI_1_Relative, BNE_1_Relative, BEQ_1_Relative, BCC_1_Relative}
  }

  /** Whether a branch is taken: BPL on N clear, BMI on N set, BNE on Z
      clear, BEQ on Z set, BCC on C clear. */
  predicate Taken(code: OpCodeStatus, p: Status)
    requires IsBranch(code)
  {
    match code
    case BPL_1_Relative => !p.N()
    case BMI_1_Relative => p.N()
    case BNE_1_Relative => !p.Z()
    case BEQ_1_Relative => p.Z()
    case BCC_1_Relative => !p.C()
  }

  /** A taken branch continues with `Relative_Jump`; one not taken skips
      the offset byte (`Registers.PC++`) and ends the instruction. */
  function Branch(m: Machine, code: OpCodeStatus): Transition
    requires IsBranch(code)
  {
    if Taken(code, m.status) then Transition(m, Nop, Relative_Jump)
    else Transition(IncPC(m), Nop, OpCodeStatus.None)
  }

  /** `_addressState.ResultA = v`. */
  function WithResultA(m: Machine, v: Byte): Machine { m.(addr := m.addr.(resultA := v)) }

  /** `_addressState.MemoryAddress = w`. */
  function WithAddress(m: Machine, w: Word): Machine { m.(addr := m.addr.(memoryAddress := w)) }

  /** `ExecuteOpCode(OpCodeStatus code)`, or the exception it throws:
      InvalidOperationException when Interrupt_4 reads `_interruptType.Value`
      with no interrupt pending, InvalidProgramException for a tag without
      an arm. */
  function StatusStep(m: Machine, code: OpCodeStatus): Result<Transition> {
    match code
    case Interrupt_1 => Ok(Transition(WithResultA(m, Hi(m.regs.pc)), Push, Interrupt_2))
    case Interrupt_2 => Ok(Transition(WithResultA(m, Lo(m.regs.pc)), Push, Interrupt_3))
    case Interrupt_3 => Ok(Transition(WithResultA(m, m.status.Value()), Push, Interrupt_4))
    case Interrupt_4 =>
      if m.interrupt.None? then Err(InvalidOperation)
      else
        var m1 := BusRead(WithAddress(m, Vector(m.interrupt.value)), Vector(m.interrupt.value));
        Ok(Transition(WithResultA(m1, m1.bus.value), Nop, Interrupt_5))
    case Interrupt_5 =>
      var w := Wrap16(m.addr.memoryAddress + 1);
      var m1 := BusRead(WithAddress(m, w), w);
      Ok(Transition(m1.(addr := m1.addr.(resultB := m1.bus.value)), Nop, Interrupt_6))
    case Interrupt_6 =>
      // (ResultB << 8) | ResultA: the two bytes occupy disjoint bits.
      var m1 := WithAddress(m, MakeWord(m.addr.resultA, m.addr.resultB));
      Ok(Transition(m1.(status := m1.status.WithI(true), interrupt := Option.None,
                        addr := m1.addr.Set(Memory, NoOperand, PC, NoOp, false)),
                    Addressing, OpCodeStatus.None))
    case SEI_1_Implied => Ok(Transition(m, SEI, OpCodeStatus.None))
    case CLC_1_Implied => Ok(Transition(m, CLC, OpCodeStatus.None))
    case CLD_1_Implied => Ok(Transition(m, CLD, OpCodeStatus.None))
    case JSR_1_Absolute => Ok(Transition(WithResultA(m, Wrap8((m.regs.pc + 1) / 0x100)), Push, JSR_2_Absolute))
    case JSR_2_Absolute => Ok(Transition(WithResultA(m, (m.regs.pc + 1) % 0x100), Push, JSR_3_Absolute))
    case BPL_1_Relative => Ok(Branch(m, code))
    case BNE_1_Relative => Ok(Branch(m, code))
    case BEQ_1_Relative => Ok(Branch(m, code))
    case BCC_1_Relative => Ok(Branch(m, code))
    case BMI_1_Relative => Ok(Branch(m, code))
    case RTI_1_Implied => Ok(Transition(m, Pop, RTI_2_Implied))
    case RTI_2_Implied => Ok(Transition(m.(status := StatusOf(m.addr.resultA)), Pop, RTI_3_Implied))
    case RTI_3_Implied => Ok(Transition(WithAddress(m, m.addr.resultA), Pop, RTI_4_Implied))
    case RTI_4_Implied =>
      Ok(Transition(WithAddress(m, OrHigh(m.addr.memoryAddress, m.addr.resultA)), Nop, RTI_5_Implied))
    case RTS_1_Implied => Ok(Transition(m, Pop, RTS_2_Implied))
    case RTS_2_Implied => Ok(Transition(WithAddress(m, m.addr.resultA), Pop, RTS_3_Implied))
    case RTS_3_Implied =>
      Ok(Transition(WithAddress(m, OrHigh(m.addr.memoryAddress, m.addr.resultA)), Nop, RTS_4_Implied))
    case RTS_4_Implied => Ok(Transition(WithAddress(m, Wrap16(m.addr.memoryAddress + 1)), Nop, RTS_5_Implied))
    case _ =>
      match SetArmOf(code)
      case Some(s) => Ok(ApplySetArm(m, s))
      case None => Err(InvalidProgram)
  }

  /** The tags for which `StatusStep` has an arm. */
  predicate HasArm(code: OpCodeStatus) {
    || code in {Interrupt_1, Interrupt_2, Interrupt_3, Interrupt_4, Interrupt_5, Interrupt_6}
    || code in {SEI_1_Implied, CLC_1_Implied, CLD_1_Implied, JSR_1_Absolute, JSR_2_Absolute}
    || IsBranch(code)
    || code in {RTI_1_Implied, RTI_2_Implied, RTI_3_Implied, RTI_4_Implied}
    || code in {RTS_1_Implied, RTS_2_Implied, RTS_3_Implied, RTS_4_Implied}
    || SetArmOf(code).Some?
  }

  /** Exactly the tags without an arm raise InvalidProgramException: None,
      the ADC addressing tags and ADC_2. */
  lemma UnlistedTagsThrow(m: Machine, code: OpCodeStatus)
    ensures StatusStep(m, code) == Err(InvalidProgram) <==> !HasArm(code)
    ensures !HasArm(code) <==>
      || code in {OpCodeStatus.None, ADC_1_Addressing_ZeroPage, ADC_1_Addressing_ZeroPageX,
                  ADC_1_Addressing_Absolute, ADC_1_Addressing_AbsoluteX, ADC_1_Addressing_AbsoluteY,
                  ADC_1_Addressing_IndirectX, ADC_1_Addressing_IndirectY, ADC_2}
  {
    if HasArm(code) {
      ArmedTagsStep(m, code);
    } else {
      UnarmedTagsThrow(m, code);
    }
    UnarmedTags(code);
  }

  /** A tag with an arm does not raise InvalidProgramException. */
  lemma ArmedTagsStep(m: Machine, code: OpCodeStatus)
    requires HasArm(code)
    ensures StatusStep(m, code) != Err(InvalidProgram)
  {
    if SetArmOf(code).Some? {
      SetArmStep(m, code);
    }
  }

  /** A tag without an arm falls through to the exception. */
  lemma UnarmedTagsThrow(m: Machine, code: OpCodeStatus)
    requires !HasArm(code)
    ensures StatusStep(m, code) == Err(InvalidProgram)
  {
  }

  /** The tags without an arm, listed. */
  lemma UnarmedTags(code: OpCodeStatus)
    ensures !HasArm(code) <==>
      || code in {OpCodeStatus.None, ADC_1_Addressing_ZeroPage, ADC_1_Addressing_ZeroPageX,
                  ADC_1_Addressing_Absolute, ADC_1_Addressing_AbsoluteX, ADC_1_Addressing_AbsoluteY,
                  ADC_1_Addressing_IndirectX, ADC_1_Addressing_IndirectY, ADC_2}
  {
  }

  /** Interrupt_4 with no pending interrupt fails on `_interruptType.Value`. */
  lemma InterruptWithoutType(m: Machine)
    requires m.interrupt.None?
    ensures StatusStep(m, Interrupt_4) == Err(InvalidOperation)
  {
  }

  /** Branch conditions: each branch is taken exactly when its flag test
      holds; taken continues with Relative_Jump and leaves the machine
      alone, not taken moves PC past the offset and ends the instruction. */
  lemma BranchConditions(m: Machine, code: OpCodeStatus)
    requires IsBranch(code)
    ensures StatusStep(m, code).Ok?
    ensures var t := StatusStep(m, code).value;
      && t.micro == Nop
      && (t.next == Relative_Jump <==> Taken(code, m.status))
      && (Taken(code, m.status) ==> t.m == m)
      && (!Taken(code, m.status) ==> t.m == IncPC(m) && t.next == OpCodeStatus.None)
    ensures code == BPL_1_Relative ==> (Taken(code, m.status) <==> !m.status.N())
    ensures code == BMI_1_Relative ==> (Taken(code, m.status) <==> m.status.N())
    ensures code == BNE_1_Relative ==> (Taken(code, m.status) <==> !m.status.Z())
    ensures code == BEQ_1_Relative ==> (Taken(code, m.status) <==> m.status.Z())
    ensures code == BCC_1_Relative ==> (Taken(code, m.status) <==> !m.status.C())
  {
  }

  /** A taken branch's Relative_Jump reads the offset through Relative
      addressing with PC as the destination and no flag effect. */
  lemma RelativeJumpDescriptor(m: Machine)
    ensures var t := StatusStep(m, Relative_Jump).value;
      && StatusStep(m, Relative_Jump).Ok?
      && t.micro == Relative && t.next == OpCodeStatus.None
      && t.m == m.(addr := m.addr.Set(Memory, NoOperand, PC, NoOp, false))
  {
  }

  /** Stores (STA, STX, STY) and TXS install no flag effect; loads,
      transfers into A, X or Y and the increments and decrements of X and
      Y do. */
  lemma AffectFlagsPerInstruction(code: OpCodeStatus)
    ensures code in {STA_1_ZeroPage, STA_1_ZeroPageX, STA_1_Absolute, STA_1_AbsoluteX,
                     STX_1_ZeroPage, STX_1_Absolute, STY_1_Absolute, STY_1_ZeroPage,
                     TXS_1_Implied} ==>
      SetArmOf(code).Some? && !SetArmOf(code).value.affectFlags && SetArmOf(code).value.op.None?
    ensures code in {LDA_1_Immediate, LDA_1_Absolute, LDA_1_AbsoluteX, LDA_1_AbsoluteY,
                     LDA_1_IndirectY, LDA_1_ZeroPage, LDA_1_ZeroPageX,
                     LDX_1_Immediate, LDY_1_Immediate, LDY_1_Absolute, LDY_1_ZeroPage,
                     TAX_1_Implied, TAY_1_Implied, TXA_1_Implied, TYA_1_Implied,
                     INX_1_Implied, INY_1_Implied, DEX_1_Implied, DEY_1_Implied} ==>
      SetArmOf(code).Some? && SetArmOf(code).value.affectFlags
  {
    if code in {STA_1_ZeroPage, STA_1_ZeroPageX, STA_1_Absolute, STA_1_AbsoluteX} {
      StoresKeepFlags(code);
    } else if code in {STX_1_ZeroPage, STX_1_Absolute, STY_1_Absolute, STY_1_ZeroPage, TXS_1_Implied} {
      OtherStoresKeepFlags(code);
    } else if code in {LDA_1_Immediate, LDA_1_Absolute, LDA_1_AbsoluteX, LDA_1_AbsoluteY,
                       LDA_1_IndirectY, LDA_1_ZeroPage, LDA_1_ZeroPageX} {
      LoadsSetFlags(code);
    } else if code in {LDX_1_Immediate, LDY_1_Immediate, LDY_1_Absolute, LDY_1_ZeroPage} {
      IndexLoadsSetFlags(code);
    } else if code in {TAX_1_Implied, TAY_1_Implied, TXA_1_Implied, TYA_1_Implied} {
      TransfersSetFlags(code);
    } else if code in {INX_1_Implied, INY_1_Implied, DEX_1_Implied, DEY_1_Implied} {
      StepsSetFlags(code);
    }
  }

  lemma StoresKeepFlags(code: OpCodeStatus)
    requires code in {STA_1_ZeroPage, STA_1_ZeroPageX, STA_1_Absolute, STA_1_AbsoluteX}
    ensures SetArmOf(code).Some? && !SetArmOf(code).value.affectFlags && SetArmOf(code).value.op.None?
  {
  }

  lemma OtherStoresKeepFlags(code: OpCodeStatus)
    requires code in {STX_1_ZeroPage, STX_1_Absolute, STY_1_Absolute, STY_1_ZeroPage, TXS_1_Implied}
    ensures SetArmOf(code).Some? && !SetArmOf(code).value.affectFlags && SetArmOf(code).value.op.None?
  {
  }

  lemma LoadsSetFlags(code: OpCodeStatus)
    requires code in {LDA_1_Immediate, LDA_1_Absolute, LDA_1_AbsoluteX, LDA_1_AbsoluteY,
                      LDA_1_IndirectY, LDA_1_ZeroPage, LDA_1_ZeroPageX}
    ensures SetArmOf(code).Some? && SetArmOf(code).value.affectFlags
  {
  }

  lemma IndexLoadsSetFlags(code: OpCodeStatus)
    requires code in {LDX_1_Immediate, LDY_1_Immediate, LDY_1_Absolute, LDY_1_ZeroPage}
    ensures SetArmOf(code).Some? && SetArmOf(code).value.affectFlags
  {
  }

  lemma TransfersSetFlags(code: OpCodeStatus)
    requires code in {TAX_1_Implied, TAY_1_Implied, TXA_1_Implied, TYA_1_Implied}
    ensures SetArmOf(code).Some? && SetArmOf(code).value.affectFlags
  {
  }

  lemma StepsSetFlags(code: OpCodeStatus)
    requires code in {INX_1_Implied, INY_1_Implied, DEX_1_Implied, DEY_1_Implied}
    ensures SetArmOf(code).Some? && SetArmOf(code).value.affectFlags
  {
  }

  /** The first pass of a zero-page read-modify-write instruction. */
  predicate IsFirstPass(code: OpCodeStatus) {
    code in {INC_1_ZeroPage, DEC_1_ZeroPage, ROL_1_ZeroPage, ASL_1_ZeroPage}
  }

  /** The second pass of each read-modify-write and the operation it applies. */
  function SecondPass(code: OpCodeStatus): (OpCodeStatus, AddressOperation)
    requires IsFirstPass(code)
  {
    match code
    case INC_1_ZeroPage => (INC_2_ZeroPage, Inc)
    case DEC_1_ZeroPage => (DEC_2_ZeroPage, Dec)
    case ROL_1_ZeroPage => (ROL_2_ZeroPage, Rol)
    case ASL_1_ZeroPage => (ASL_2_ZeroPage, Asl)
  }

  /** INC, DEC, ROL and ASL on page 0 run in two passes. The first reads
      the operand through zero-page addressing with no destination and no
      flags, and continues with the instruction's second pass. */
  lemma ReadModifyWriteFirstPass(m: Machine, code: OpCodeStatus)
    requires IsFirstPass(code)
    ensures StatusStep(m, code) ==
      Ok(Transition(m.(addr := m.addr.Set(Memory, NoOperand, NoOperand, NoOp, false)), ZeroPage_1, SecondPass(code).0))
  {
    match code
    case INC_1_ZeroPage =>
    case DEC_1_ZeroPage =>
    case ROL_1_ZeroPage =>
    case ASL_1_ZeroPage =>
  }

  /** The second pass steps PC back by one, then writes `op(value)` to
      memory with flags through zero-page addressing: Inc, Dec, Rol or Asl. */
  lemma ReadModifyWriteSecondPass(m: Machine, code: OpCodeStatus)
    requires IsFirstPass(code)
    ensures StatusStep(m, SecondPass(code).0) ==
      Ok(Transition(DecPC(m).(addr := m.addr.Set(NoOperand, NoOperand, Memory, SecondPass(code).1, true)),
                    ZeroPage_1, OpCodeStatus.None))
  {
    SecondPassArm(code);
    SetArmStep(m, SecondPass(code).0);
  }

  /** The descriptor arm of each second pass. */
  lemma SecondPassArm(code: OpCodeStatus)
    requires IsFirstPass(code)
    ensures SetArmOf(SecondPass(code).0) ==
      Some(SetArm(NoOperand, NoOperand, Memory, SecondPass(code).1, true, ZeroPage_1, OpCodeStatus.None, true))
  {
    match code
    case INC_1_ZeroPage =>
    case DEC_1_ZeroPage =>
    case ROL_1_ZeroPage =>
    case ASL_1_ZeroPage =>
  }

  /** A descriptor arm steps by its table entry. */
  lemma SetArmStep(m: Machine, code: OpCodeStatus)
    requires SetArmOf(code).Some?
    ensures StatusStep(m, code) == Ok(ApplySetArm(m, SetArmOf(code).value))
  {
  }

  /** JSR's first two passes prepare the two bytes of PC+1 for the pushes,
      the high one first; the third jumps through Absolute addressing with
      PC as the destination. */
  lemma JsrPasses(m: Machine)
    ensures StatusStep(m, JSR_1_Absolute) ==
      Ok(Transition(WithResultA(m, Hi(Wrap16(m.regs.pc + 1))), Push, JSR_2_Absolute))
    ensures StatusStep(m, JSR_2_Absolute) ==
      Ok(Transition(WithResultA(m, Lo(Wrap16(m.regs.pc + 1))), Push, JSR_3_Absolute))
    ensures StatusStep(m, JSR_3_Absolute) ==
      Ok(Transition(m.(addr := m.addr.Set(Memory, NoOperand, PC, NoOp, false)), Absolute_1, OpCodeStatus.None))
  {
    var p: int := m.regs.pc;
    if p == 0xFFFF {
      assert Wrap16(p + 1) == 0;
    } else {
      assert Wrap16(p + 1) == p + 1;
    }
  }

  /** The arms with no effect beyond a descriptor leave PC, S, A, X, Y, the
      flags, the bus and the scratch registers as they were, except that
      the second read-modify-write passes step PC back by exactly one. */
  lemma SetArmFrame(m: Machine, code: OpCodeStatus)
    requires SetArmOf(code).Some?
    ensures StatusStep(m, code).Ok?
    ensures var t := StatusStep(m, code).value; var s := SetArmOf(code).value;
      && t.m.status == m.status && t.m.bus == m.bus && t.m.interrupt == m.interrupt
      && t.m.regs == (if s.rewind then m.regs.(pc := Wrap16(m.regs.pc - 1)) else m.regs)
      && t.m.addr.memoryAddress == m.addr.memoryAddress && t.m.addr.resultA == m.addr.resultA
      && t.m.addr.resultB == m.addr.resultB && t.m.addr.memoryAddress8 == m.addr.memoryAddress8
      && (t.m.addr.src1, t.m.addr.src2, t.m.addr.dst, t.m.addr.op, t.m.addr.affectFlags)
         == (s.src1, s.src2, s.dst, s.op, s.affectFlags)
  {
    SetArmStep(m, code);
    ApplySetArmFrame(m, SetArmOf(code).value);
  }

  /** What installing a descriptor changes. */
  lemma ApplySetArmFrame(m: Machine, s: SetArm)
    ensures var t := ApplySetArm(m, s);
      && t.m.status == m.status && t.m.bus == m.bus && t.m.interrupt == m.interrupt
      && t.m.regs == (if s.rewind then m.regs.(pc := Wrap16(m.regs.pc - 1)) else m.regs)
      && t.m.addr.memoryAddress == m.addr.memoryAddress && t.m.addr.resultA == m.addr.resultA
      && t.m.addr.resultB == m.addr.resultB && t.m.addr.memoryAddress8 == m.addr.memoryAddress8
      && (t.m.addr.src1, t.m.addr.src2, t.m.addr.dst, t.m.addr.op, t.m.addr.affectFlags)
         == (s.src1, s.src2, s.dst, s.op, s.affectFlags)
  {
  }
}
