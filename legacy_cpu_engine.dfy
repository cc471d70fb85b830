/** The older engine as an object (CPU.cs): the fields its methods update,
    and each method proved to change them as the matching function of
    `LegacyCpu` describes. */
module LegacyCpuEngine {
  import opened Bytes
  import opened Wrappers
  import opened Processor
  import opened MasterBus
  import L = LegacyCpu

  /** The statuses whose arm does more than set the descriptor. */
  const SequenceStatuses: set<L.OpCodeStatus> := {
    L.SEI_1_Implied, L.CLD_1_Implied, L.TAX_1_Implied, L.TXA_1_Implied, L.TXS_1_Implied,
    L.JSR_1_Absolute, L.JSR_2_Absolute, L.BPL_1_Relative, L.BNE_1_Relative,
    L.RTS_1_Implied, L.RTS_2_Implied, L.RTS_3_Implied, L.RTS_4_Implied, L.RTS_5_Implied }

  /** The one-tick modes that take their operand at PC: immediate and
      relative. */
  const OneTickMicroCodes: set<L.MicroCode> := { L.Immediate, L.Relative }

  /** The last tick of the page-zero and absolute modes: dispatch at the
      address formed on the earlier ticks. */
  const DispatchingMicroCodes: set<L.MicroCode> := { L.Absolute_3, L.ZeroPage_2, L.ZeroPageX_3, L.AbsoluteX_4 }

  /** The micro-codes that fetch operand bytes or index an address. */
  const OperandMicroCodes: set<L.MicroCode> := {
    L.Absolute_1, L.Absolute_2, L.ZeroPage_1, L.ZeroPageX_1, L.ZeroPageX_2,
    L.AbsoluteX_1, L.AbsoluteX_2, L.AbsoluteX_3 }

  class Cpu {
    var registers: Registers
    var status: Status
    var nextMicroCode: L.MicroCode
    var nextOpCodeStatus: L.OpCodeStatus
    var readingOpCode: bool
    var addressDst: L.Destination
    var addressDir: L.Direction
    var addressOper: L.Operation
    var tempValue: Byte
    var tempValue16: Word
    /** What `_masterClient` sees of the bus. */
    var masterClient: FlatBus

    /** The fields as one engine value. */
    function State(): L.Core
      reads this
    {
      L.Core(registers, status, nextMicroCode, nextOpCodeStatus, readingOpCode,
             addressDst, addressDir, addressOper, tempValue, tempValue16, masterClient)
    }

    /** `new CPU(masterClient)`: every other field has its default value
        (zero, or the first member of its enum). */
    constructor (bus: FlatBus)
      ensures State() == L.Core(Registers(0, 0, 0, 0, 0), StatusOf(0), L.MicroCode.None, L.OpCodeStatus.None,
                                false, L.Destination.None, L.Read, L.Operation.None, 0, 0, bus)
    {
      registers, status := Registers(0, 0, 0, 0, 0), StatusOf(0);
      nextMicroCode, nextOpCodeStatus, readingOpCode := L.MicroCode.None, L.OpCodeStatus.None, false;
      addressDst, addressDir, addressOper := L.Destination.None, L.Read, L.Operation.None;
      tempValue, tempValue16, masterClient := 0, 0, bus;
    }

    /** `UpdateNZ(result)`. */
    method UpdateNZ(result: Byte)
      modifies this`status
      ensures status == L.UpdateNZ(old(status), result)
    {
      status := status.WithN(Bit7(result));
      status := status.WithZ(result == 0);
    }

    /** `DoOperation(value, affectFlag)`: the flags in `Status`, the byte
        returned. */
    method DoOperation(value: Byte, affectFlag: bool) returns (r: Byte)
      modifies this`status
      ensures (status, r) == L.DoOperation(addressOper, registers, old(status), value, affectFlag)
    {
      match addressOper
      case None =>
        r := value;
        if affectFlag { UpdateNZ(r); }
      case Inc =>
        r := Wrap8(value + 1);
        if affectFlag { UpdateNZ(r); }
      case BitTest =>
        if affectFlag {
          status := status.WithZ(And8(registers.a, value) == 0);
          status := status.WithN(Bit7(value));
          status := status.WithV(Bit6(value));
        }
        r := value;
      case Compare =>
        if affectFlag {
          status := status.WithC(registers.a >= value);
          status := status.WithZ(registers.a == value);
          status := status.WithN(registers.a - value < 0);
        }
        r := value;
      case CompareX =>
        if affectFlag {
          status := status.WithC(registers.x >= value);
          status := status.WithZ(registers.x == value);
          status := status.WithN(registers.x - value < 0);
        }
        r := value;
      case And =>
        r := And8(value, registers.a);
        if affectFlag {
          status := status.WithZ(registers.a == 0);
          status := status.WithN(Bit7(r));
        }
    }

    /** `DispatchRegisterAddressing()`; a destination other than X or A
        throws before anything changes. */
    method DispatchRegisterAddressing() returns (o: Outcome)
      modifies this`registers, this`status
      ensures var r := L.DispatchRegister(old(State()));
              && (r.Ok? ==> o == Pass && State() == r.value)
              && (r.Err? ==> o == Fail(r.error) && State() == old(State()))
    {
      match addressDst
      case X =>
        var v := DoOperation(registers.x, true);
        registers := registers.(x := v);
        o := Pass;
      case A =>
        var v := DoOperation(registers.a, true);
        registers := registers.(a := v);
        o := Pass;
      case _ =>
        o := Fail(Argument);
    }

    /** `DispatchMemoryAddressing(address)`. */
    method DispatchMemoryAddressing(address: Word) returns (o: Outcome)
      modifies this`registers, this`status, this`masterClient
      ensures var r := L.DispatchMemory(old(State()), address);
              && (r.Ok? ==> o == Pass && State() == r.value)
              && (r.Err? ==> o == Fail(r.error))
    {
      match addressDir
      case Read =>
        masterClient := masterClient.Read(address);
        match addressDst {
        case None =>
          var _ := DoOperation(masterClient.value, true);
          o := Pass;
        case X =>
          var v := DoOperation(masterClient.value, true);
          registers := registers.(x := v);
          o := Pass;
        case Y =>
          var v := DoOperation(masterClient.value, true);
          registers := registers.(y := v);
          o := Pass;
        case A =>
          var v := DoOperation(masterClient.value, true);
          registers := registers.(a := v);
          o := Pass;
        case PC =>
          o := Fail(Argument);
        }
      case Write =>
        match addressDst {
        case X =>
          masterClient := masterClient.Latch(registers.x).Write(address);
          o := Pass;
        case Y =>
          masterClient := masterClient.Latch(registers.y).Write(address);
          o := Pass;
        case A =>
          masterClient := masterClient.Latch(registers.a).Write(address);
          o := Pass;
        case _ =>
          o := Fail(Argument);
        }
      case Jump =>
        if addressDst == L.PC {
          registers := registers.(pc := address);
          o := Pass;
        } else {
          o := Fail(Argument);
        }
    }

    /** `ReadUShort(address)`. */
    method ReadUShort(address: Word) returns (v: Word)
      modifies this`masterClient
      ensures (masterClient, v) == L.ReadWord(old(masterClient), address)
    {
      masterClient := masterClient.Read(address);
      var lo := masterClient.value;
      masterClient := masterClient.Read(Wrap16(address + 1));
      v := MakeWord(lo, masterClient.value);
    }

    /** `Interrupt(interrupt)`. */
    method Interrupt(t: InterruptType)
      modifies this`status, this`registers, this`masterClient
      ensures State() == L.Interrupt(old(State()), t)
    {
      status := status.WithI(true);
      var pc := ReadUShort(Vector(t));
      registers := registers.(pc := pc);
    }

    /** `_masterClient.Read(Registers.PC++)`. */
    method FetchOperand()
      modifies this`masterClient, this`registers
      ensures State() == L.Fetch(old(State()))
    {
      masterClient := masterClient.Read(registers.pc);
      registers := registers.(pc := Wrap16(registers.pc + 1));
    }

    /** `_addressDst`, `_addressOper` and `_addressDir` set together. */
    method Describe(d: L.Destination, op: L.Operation, r: L.Direction)
      modifies this`addressDst, this`addressOper, this`addressDir
      ensures State() == old(State()).Describe(d, op, r)
    {
      addressDst, addressOper, addressDir := d, op, r;
    }

    /** `ExecuteOpCode(OpCodeStatus)`: the arm's effect on the fields, and
        the pair `(nextMicroCode, nextOpCodeStatus)` it returns; a status
        without an arm throws before anything changes. */
    method ExecuteOpCodeStatus(code: L.OpCodeStatus) returns (r: Result<(L.MicroCode, L.OpCodeStatus)>)
      modifies this
      ensures var s := L.StatusStep(old(State()), code);
              && (s.Ok? ==> r == Ok((s.value.micro, s.value.next))
                            && State() == s.value.(micro := old(nextMicroCode), next := old(nextOpCodeStatus)))
              && (s.Err? ==> r == Err(s.error) && State() == old(State()))
    {
      if code in SequenceStatuses {
        r := ExecuteSequenceStatus(code);
      } else {
        r := ExecuteDescriptorStatus(code);
      }
    }

    /** The arms that only set the operand descriptor and name the
        addressing micro-code, and the throwing default. */
    method ExecuteDescriptorStatus(code: L.OpCodeStatus) returns (r: Result<(L.MicroCode, L.OpCodeStatus)>)
      requires code !in SequenceStatuses
      modifies this
      ensures var s := L.StatusStep(old(State()), code);
              && (s.Ok? ==> r == Ok((s.value.micro, s.value.next))
                            && State() == s.value.(micro := old(nextMicroCode), next := old(nextOpCodeStatus)))
              && (s.Err? ==> r == Err(s.error) && State() == old(State()))
    {
      match code
      case Relative_Jump =>
        Describe(L.PC, L.Operation.None, L.Jump);
        r := Ok((L.Relative, L.OpCodeStatus.None));
      case STY_1_Absolute =>
        Describe(L.Y, L.Operation.None, L.Write);
        r := Ok((L.Absolute_1, L.OpCodeStatus.None));
      case STA_1_ZeroPage =>
        Describe(L.A, L.Operation.None, L.Write);
        r := Ok((L.ZeroPage_1, L.OpCodeStatus.None));
      case STA_1_ZeroPageX =>
        Describe(L.A, L.Operation.None, L.Write);
        r := Ok((L.ZeroPageX_1, L.OpCodeStatus.None));
      case STA_1_AbsoluteX =>
        Describe(L.A, L.Operation.None, L.Write);
        r := Ok((L.AbsoluteX_1, L.OpCodeStatus.None));
      case STA_1_Absolute =>
        Describe(L.A, L.Operation.None, L.Write);
        r := Ok((L.Absolute_1, L.OpCodeStatus.None));
      case STX_1_ZeroPage =>
        Describe(L.X, L.Operation.None, L.Write);
        r := Ok((L.ZeroPage_1, L.OpCodeStatus.None));
      case STX_1_Absolute =>
        Describe(L.X, L.Operation.None, L.Write);
        r := Ok((L.Absolute_1, L.OpCodeStatus.None));
      case LDY_1_Immediate =>
        Describe(L.Y, L.Operation.None, L.Read);
        r := Ok((L.Immediate, L.OpCodeStatus.None));
      case LDX_1_Immediate =>
        Describe(L.X, L.Operation.None, L.Read);
        r := Ok((L.Immediate, L.OpCodeStatus.None));
      case INX_1_Implied =>
        Describe(L.X, L.Inc, L.Read);
        r := Ok((L.Register, L.OpCodeStatus.None));
      case LDA_1_Immediate =>
        Describe(L.A, L.Operation.None, L.Read);
        r := Ok((L.Immediate, L.OpCodeStatus.None));
      case LDA_1_Absolute =>
        Describe(L.A, L.Operation.None, L.Read);
        r := Ok((L.Absolute_1, L.OpCodeStatus.None));
      case LDA_1_AbsoluteX =>
        Describe(L.A, L.Operation.None, L.Read);
        r := Ok((L.AbsoluteX_1, L.OpCodeStatus.None));
      case LDA_1_ZeroPage =>
        Describe(L.A, L.Operation.None, L.Read);
        r := Ok((L.ZeroPage_1, L.OpCodeStatus.None));
      case JSR_3_Absolute =>
        Describe(L.PC, L.Operation.None, L.Jump);
        r := Ok((L.Absolute_1, L.OpCodeStatus.None));
      case BIT_1_Absolute =>
        Describe(L.Destination.None, L.BitTest, L.Read);
        r := Ok((L.Absolute_1, L.OpCodeStatus.None));
      case CMP_1_Absolute =>
        Describe(L.Destination.None, L.Compare, L.Read);
        r := Ok((L.Absolute_1, L.OpCodeStatus.None));
      case CPX_1_Immediate =>
        Describe(L.Destination.None, L.CompareX, L.Read);
        r := Ok((L.Immediate, L.OpCodeStatus.None));
      case AND_1_Immediate =>
        Describe(L.A, L.And, L.Read);
        r := Ok((L.Immediate, L.OpCodeStatus.None));
      case _ =>
        r := Err(InvalidProgram);
    }

    /** The arms of the implied instructions, the subroutine call and
        return, and the two branches. */
    method ExecuteSequenceStatus(code: L.OpCodeStatus) returns (r: Result<(L.MicroCode, L.OpCodeStatus)>)
      requires code in SequenceStatuses
      modifies this
      ensures var s := L.StatusStep(old(State()), code);
              && (s.Ok? ==> r == Ok((s.value.micro, s.value.next))
                            && State() == s.value.(micro := old(nextMicroCode), next := old(nextOpCodeStatus)))
              && (s.Err? ==> r == Err(s.error) && State() == old(State()))
    {
      match code
      case SEI_1_Implied =>
        r := Ok((L.SEI, L.OpCodeStatus.None));
      case CLD_1_Implied =>
        r := Ok((L.CLD, L.OpCodeStatus.None));
      case TAX_1_Implied =>
        r := Ok((L.TAX, L.OpCodeStatus.None));
      case TXA_1_Implied =>
        r := Ok((L.TXA, L.OpCodeStatus.None));
      case TXS_1_Implied =>
        r := Ok((L.TXS, L.OpCodeStatus.None));
      case JSR_1_Absolute =>
        tempValue := Hi(Wrap16(registers.pc + 1));
        r := Ok((L.Push, L.JSR_2_Absolute));
      case JSR_2_Absolute =>
        tempValue := Lo(Wrap16(registers.pc + 1));
        r := Ok((L.Push, L.JSR_3_Absolute));
      case BPL_1_Relative =>
        if status.N() {
          registers := registers.(pc := Wrap16(registers.pc + 1));
          r := Ok((L.Nop, L.OpCodeStatus.None));
        } else {
          r := Ok((L.Nop, L.Relative_Jump));
        }
      case BNE_1_Relative =>
        if status.Z() {
          registers := registers.(pc := Wrap16(registers.pc + 1));
          r := Ok((L.Nop, L.OpCodeStatus.None));
        } else {
          r := Ok((L.Nop, L.Relative_Jump));
        }
      case RTS_1_Implied =>
        r := Ok((L.Pop, L.RTS_2_Implied));
      case RTS_2_Implied =>
        tempValue16 := tempValue;
        r := Ok((L.Pop, L.RTS_3_Implied));
      case RTS_3_Implied =>
        tempValue16 := OrHigh(tempValue16, tempValue);
        r := Ok((L.Nop, L.RTS_4_Implied));
      case RTS_4_Implied =>
        tempValue16 := Wrap16(tempValue16 + 1);
        r := Ok((L.Nop, L.RTS_5_Implied));
      case RTS_5_Implied =>
        registers := registers.(pc := tempValue16);
        r := Ok((L.Nop, L.OpCodeStatus.None));
      case _ =>
        // Every member of SequenceStatuses has an arm above; the other
        // statuses go to ExecuteDescriptorStatus, which holds the default.
        assert false;
        r := Err(InvalidProgram);
    }

    /** `ExecuteMicroCode(code)`: the arm's effect on the fields and the
        micro-code it returns; a micro-code without an arm throws. */
    method ExecuteMicroCode(code: L.MicroCode) returns (r: Result<L.MicroCode>)
      modifies this
      ensures var m := L.MicroStep(old(State()), code);
              && (m.Ok? ==> r == Ok(m.value.micro) && State() == m.value.(micro := old(nextMicroCode)))
              && (m.Err? ==> r.Err? && r.error == m.error)
    {
      if code in OneTickMicroCodes {
        r := ExecuteOneTickMicroCode(code);
      } else if code in DispatchingMicroCodes {
        r := ExecuteDispatchingMicroCode(code);
      } else if code in OperandMicroCodes {
        r := ExecuteOperandMicroCode(code);
      } else {
        r := ExecuteImpliedMicroCode(code);
      }
    }

    /** The immediate and relative arms. */
    method ExecuteOneTickMicroCode(code: L.MicroCode) returns (r: Result<L.MicroCode>)
      requires code in OneTickMicroCodes
      modifies this
      ensures var m := L.MicroStep(old(State()), code);
              && (m.Ok? ==> r == Ok(m.value.micro) && State() == m.value.(micro := old(nextMicroCode)))
              && (m.Err? ==> r.Err? && r.error == m.error)
    {
      match code
      case Immediate =>
        var pc := registers.pc;
        registers := registers.(pc := Wrap16(pc as int + 1));
        r := Dispatch(pc);
      case Relative =>
        FetchOperand();
        r := Dispatch(Wrap16(registers.pc + Signed8(masterClient.value)));
    }

    /** The arms that dispatch at the address they have formed. */
    method ExecuteDispatchingMicroCode(code: L.MicroCode) returns (r: Result<L.MicroCode>)
      requires code in DispatchingMicroCodes
      modifies this
      ensures var m := L.MicroStep(old(State()), code);
              && (m.Ok? ==> r == Ok(m.value.micro) && State() == m.value.(micro := old(nextMicroCode)))
              && (m.Err? ==> r.Err? && r.error == m.error)
    {
      match code
      case Absolute_3 =>
        r := Dispatch(MakeWord(tempValue, masterClient.value));
      case ZeroPage_2 =>
        r := Dispatch(tempValue);
      case ZeroPageX_3 =>
        r := Dispatch(tempValue);
      case AbsoluteX_4 =>
        r := Dispatch(tempValue16);
    }

    /** The arms that fetch an operand byte or index the address. */
    method ExecuteOperandMicroCode(code: L.MicroCode) returns (r: Result<L.MicroCode>)
      requires code in OperandMicroCodes
      modifies this
      ensures var m := L.MicroStep(old(State()), code);
              && (m.Ok? ==> r == Ok(m.value.micro) && State() == m.value.(micro := old(nextMicroCode)))
              && (m.Err? ==> r.Err? && r.error == m.error)
    {
      match code
      case Absolute_1 =>
        FetchOperand();
        tempValue := masterClient.value;
        r := Ok(L.Absolute_2);
      case Absolute_2 =>
        FetchOperand();
        r := Ok(L.Absolute_3);
      case ZeroPage_1 =>
        FetchOperand();
        tempValue := masterClient.value;
        r := Ok(L.ZeroPage_2);
      case ZeroPageX_1 =>
        FetchOperand();
        tempValue := masterClient.value;
        r := Ok(L.ZeroPageX_2);
      case ZeroPageX_2 =>
        tempValue := Wrap8(tempValue + registers.x);
        r := Ok(L.ZeroPageX_3);
      case AbsoluteX_1 =>
        FetchOperand();
        tempValue := masterClient.value;
        r := Ok(L.AbsoluteX_2);
      case AbsoluteX_2 =>
        FetchOperand();
        tempValue16 := MakeWord(tempValue, masterClient.value);
        r := Ok(L.AbsoluteX_3);
      case AbsoluteX_3 =>
        tempValue16 := Wrap16(tempValue16 + registers.x);
        r := Ok(L.AbsoluteX_4);
    }

    /** `DispatchMemoryAddressing(address); return MicroCode.None;`. */
    method Dispatch(address: Word) returns (r: Result<L.MicroCode>)
      modifies this`registers, this`status, this`masterClient
      ensures var f := L.Finish(L.DispatchMemory(old(State()), address));
              && (f.Ok? ==> r == Ok(L.MicroCode.None) && State() == f.value.(micro := old(nextMicroCode)))
              && (f.Err? ==> r.Err? && r.error == f.error)
    {
      var o := DispatchMemoryAddressing(address);
      if o.Fail? {
        return Err(o.error);
      }
      r := Ok(L.MicroCode.None);
    }

    /** The register mode, the stack, flag and transfer arms, Nop, and the
        throwing default. */
    method ExecuteImpliedMicroCode(code: L.MicroCode) returns (r: Result<L.MicroCode>)
      requires code !in OneTickMicroCodes && code !in DispatchingMicroCodes && code !in OperandMicroCodes
      modifies this
      ensures var m := L.MicroStep(old(State()), code);
              && (m.Ok? ==> r == Ok(m.value.micro) && State() == m.value.(micro := old(nextMicroCode)))
              && (m.Err? ==> r.Err? && r.error == m.error)
    {
      match code
      case Nop =>
        r := Ok(L.MicroCode.None);
      case Register =>
        var o := DispatchRegisterAddressing();
        if o.Fail? {
          return Err(o.error);
        }
        r := Ok(L.MicroCode.None);
      case Push =>
        masterClient := masterClient.Latch(tempValue);
        masterClient := masterClient.Write(StackAddress(registers.s));
        registers := registers.(s := Wrap8(registers.s - 1));
        r := Ok(L.MicroCode.None);
      case Pop =>
        registers := registers.(s := Wrap8(registers.s + 1));
        masterClient := masterClient.Read(StackAddress(registers.s));
        tempValue := masterClient.value;
        r := Ok(L.MicroCode.None);
      case SEI =>
        status := status.WithI(true);
        r := Ok(L.MicroCode.None);
      case TAX =>
        registers := registers.(x := registers.a);
        UpdateNZ(registers.x);
        r := Ok(L.MicroCode.None);
      case TXA =>
        registers := registers.(a := registers.x);
        UpdateNZ(registers.a);
        r := Ok(L.MicroCode.None);
      case TXS =>
        registers := registers.(s := registers.x);
        r := Ok(L.MicroCode.None);
      case CLD =>
        status := status.WithD(false);
        r := Ok(L.MicroCode.None);
      case _ =>
        r := Err(InvalidProgram);
    }

    /** `ExecuteOpCode()`, one tick: the fields change as `Tick` describes;
        a thrown exception is reported as the failure. */
    method ExecuteOpCode() returns (o: Outcome)
      modifies this
      ensures var r := L.Tick(old(State()));
              && (r.Ok? ==> o == Pass && State() == r.value)
              && (r.Err? ==> o == Fail(r.error))
    {
      if nextMicroCode == L.MicroCode.None {
        if nextOpCodeStatus == L.OpCodeStatus.None {
          if !readingOpCode {
            readingOpCode := true;
            FetchOperand();
            return Pass;
          }
          readingOpCode := false;
          var first := L.Decode(masterClient.value);
          if first.Err? {
            return Fail(first.error);
          }
          nextOpCodeStatus := first.value;
        }
        var tags := ExecuteOpCodeStatus(nextOpCodeStatus);
        if tags.Err? {
          return Fail(tags.error);
        }
        nextMicroCode, nextOpCodeStatus := tags.value.0, tags.value.1;
      }
      var next := ExecuteMicroCode(nextMicroCode);
      if next.Err? {
        return Fail(next.error);
      }
      nextMicroCode := next.value;
      o := Pass;
    }

    /** `IClockSink.OnTick`. */
    method OnTick() returns (o: Outcome)
      modifies this
      ensures var r := L.Tick(old(State()));
              && (r.Ok? ==> o == Pass && State() == r.value)
              && (r.Err? ==> o == Fail(r.error))
    {
      o := ExecuteOpCode();
    }

    /** `IClockSink.OnPowerUp`, with its loop of writes to 0x4000..0x400F. */
    method OnPowerUp()
      modifies this
      ensures State() == L.PowerUp(old(State()))
    {
      PowerUpRegisters();
      SilenceChannels();
      Interrupt(Reset);
    }

    /** The tags, the flags and A, X, Y, S take their power-up values. */
    method PowerUpRegisters()
      modifies this`nextOpCodeStatus, this`nextMicroCode, this`status, this`registers
      ensures State() == old(State()).(next := L.OpCodeStatus.None, micro := L.MicroCode.None, status := StatusOf(0x34),
                                        regs := Registers(old(registers.pc), 0xFD, 0, 0, 0))
    {
      nextOpCodeStatus := L.OpCodeStatus.None;
      nextMicroCode := L.MicroCode.None;
      status := StatusOf(0x34);
      registers := registers.(a := 0, x := 0, y := 0, s := 0xFD);
    }

    /** The power-up writes: the latch cleared, 0x4017 and 0x4015 written,
        then the loop over 0x4000..0x400F. */
    method SilenceChannels()
      modifies this`masterClient
      ensures State() == old(State()).(bus := L.Silence(old(masterClient)))
    {
      masterClient := masterClient.Latch(0);
      masterClient := masterClient.Write(0x4017);
      masterClient := masterClient.Write(0x4015);
      ghost var silenced := L.WriteRun(masterClient, 0x4000, 0x10);
      for i := 0x4000 to 0x4010
        invariant L.WriteRun(masterClient, i, 0x4010 - i) == silenced
      {
        masterClient := masterClient.Write(i);
      }
    }

    /** `IClockSink.OnReset`. */
    method OnReset()
      modifies this
      ensures State() == L.ResetCore(old(State()))
    {
      registers := registers.(s := Wrap8(registers.s - 3));
      status := status.WithI(true);
      Interrupt(Reset);
    }
  }
}
