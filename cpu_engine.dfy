/** The newer engine as an object (CPU.OpCode.cs, CPU.OpCodeStatus.cs,
    CPU.MicroCode.cs): the fields the three files update, and the per-tick
    driver `ExecuteOpCode()` that branches on them. Each status and
    micro-code arm is specified by `StatusStep` and `MicroStep`; the methods
    here apply one arm's effect to the fields. */
module CpuEngine {
  import opened Bytes
  import opened Processor
  import opened MasterBus
  import opened CpuState
  import opened CpuMicroCode
  import opened CpuOpCodeStatus
  import opened CpuOpCode
  import opened Wrappers

  class Cpu {
    var registers: Registers
    var status: Status
    var addressState: AddressState
    var nextMicroCode: MicroCode
    var nextOpCodeStatus: OpCodeStatus
    var readingOpCode: bool
    var interruptType: Option<InterruptType>
    /** What `_masterClient` sees of the bus. */
    var masterClient: FlatBus
    /** `DispatchAddressing()`. */
    const dispatch: Dispatch

    /** The fields as one machine value. */
    function State(): Machine
      reads this
    {
      Machine(registers, status, addressState, nextMicroCode, nextOpCodeStatus, readingOpCode,
              interruptType, masterClient)
    }

    constructor (m: Machine, dispatch: Dispatch)
      ensures State() == m && this.dispatch == dispatch
    {
      registers, status, addressState := m.regs, m.status, m.addr;
      nextMicroCode, nextOpCodeStatus, readingOpCode := m.micro, m.next, m.reading;
      interruptType, masterClient := m.interrupt, m.bus;
      this.dispatch := dispatch;
    }

    /** Store the effect of an arm: every field of the machine it produced. */
    method Apply(m: Machine)
      modifies this
      ensures State() == m
    {
      registers, status, addressState := m.regs, m.status, m.addr;
      nextMicroCode, nextOpCodeStatus, readingOpCode := m.micro, m.next, m.reading;
      interruptType, masterClient := m.interrupt, m.bus;
    }

    /** `DispatchAddressing()`: the registers, flags, address state and
        memory it hands back; the tags, the interrupt latch and the bus
        ownership stay. */
    method DispatchAddressing()
      modifies this
      ensures State() == Dispatched(old(State()), dispatch)
    {
      var n := dispatch(State());
      registers, status, addressState := n.regs, n.status, n.addr;
      masterClient := n.bus.(used := masterClient.used);
    }

    /** `_nextMicroCode = ExecuteMicroCode(code)`. */
    method ExecuteMicroCode(code: MicroCode) returns (o: Outcome)
      modifies this
      ensures var r := RunMicro(old(State()), code, dispatch);
              && (r.Ok? ==> o == Pass && State() == r.value)
              && (r.Err? ==> o == Fail(r.error))
    {
      var st := MicroStep(State(), code);
      if st.Err? {
        return Fail(st.error);
      }
      Apply(st.value.m.(micro := st.value.next));
      if st.value.dispatch {
        DispatchAddressing();
      }
      o := Pass;
    }

    /** `(_nextMicroCode, _nextOpCodeStatus) = ExecuteOpCode(code)`. */
    method ExecuteOpCodeStatus(code: OpCodeStatus) returns (o: Outcome)
      modifies this
      ensures var r := StatusStep(old(State()), code);
              && (r.Ok? ==> o == Pass && State() == r.value.m.(micro := r.value.micro, next := r.value.next))
              && (r.Err? ==> o == Fail(r.error))
    {
      var t := StatusStep(State(), code);
      if t.Err? {
        return Fail(t.error);
      }
      Apply(t.value.m);
      nextMicroCode, nextOpCodeStatus := t.value.micro, t.value.next;
      o := Pass;
    }

    /** `ExecuteOpCode()`: one CPU tick. The fields change as `Tick`
        describes; a thrown exception is reported as the failure. */
    method ExecuteOpCode() returns (o: Outcome)
      modifies this
      ensures var r := Tick(old(State()), dispatch);
              && (r.Ok? ==> o == Pass && State() == r.value)
              && (r.Err? ==> o == Fail(r.error))
    {
      if masterClient.used {
        return Pass;
      }
      if nextMicroCode == MicroCode.None {
        if nextOpCodeStatus == OpCodeStatus.None {
          if !readingOpCode {
            readingOpCode := true;
            masterClient := masterClient.Read(registers.pc);
            registers := registers.(pc := Wrap16(registers.pc + 1));
            return Pass;
          }
          readingOpCode := false;
          var first := Decode(masterClient.value);
          if first.Err? {
            return Fail(first.error);
          }
          nextOpCodeStatus := first.value;
        }
        o := ExecuteOpCodeStatus(nextOpCodeStatus);
        if o.Fail? {
          return;
        }
      }
      o := ExecuteMicroCode(nextMicroCode);
    }
  }
}
