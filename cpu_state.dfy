/** The state of the newer 6502 engine (the `partial class CPU` of
    CPU.OpCode.cs, CPU.OpCodeStatus.cs and CPU.MicroCode.cs), including the
    members those files use but do not declare: `_addressState` with its
    `Set` descriptor, the `AddressOperand`/`AddressOperation` tags and
    `_interruptType`. */
module CpuState {
  import opened Bytes
  import opened Processor
  import opened MasterBus
  import Wrappers

  /** Where a dispatched micro-operation takes an operand from or puts its
      result: the tags named in CPU.OpCodeStatus.cs. */
  datatype AddressOperand = None | Memory | A | X | Y | S | PC

  /** The operation a dispatched micro-operation applies. */
  datatype AddressOperation = None | Inc | Dec | BitTest | Compare | And | Or | Xor | Adc | Rol | Asl

  /** `AddressOperand.None` and `AddressOperation.None`, named apart from
      the other `None` tags. */
  const NoOperand: AddressOperand := AddressOperand.None
  const NoOp: AddressOperation := AddressOperation.None

  /** `_addressState`: the operand descriptor written by `Set` plus the
      scratch registers of the addressing micro-code. */
  datatype AddressState = AddressState(
    src1: AddressOperand, src2: AddressOperand, dst: AddressOperand,
    op: AddressOperation, affectFlags: bool,
    memoryAddress: Word, memoryAddress8: Byte, resultA: Byte, resultB: Byte)
  {
    /** `Set(src1, src2, dst, op, affectFlags)`: replaces the descriptor and
        keeps the scratch registers. */
    function Set(s1: AddressOperand, s2: AddressOperand, d: AddressOperand,
                 o: AddressOperation, f: bool): AddressState
    {
      this.(src1 := s1, src2 := s2, dst := d, op := o, affectFlags := f)
    }
  }

  /** The micro-code tags of CPU.MicroCode.cs, in declaration order. */
  datatype MicroCode =
    | None | Nop | Addressing | Immediate | Relative | ZeroPage_1
    | ZeroPage_2 | ZeroPageX_1 | ZeroPageX_2 | ZeroPageX_3 | ZeroPageY_1 | ZeroPageY_2
    | ZeroPageY_3 | Absolute_1 | Absolute_2 | Absolute_3 | AbsoluteX_1 | AbsoluteX_2
    | AbsoluteX_3 | AbsoluteY_1 | AbsoluteY_2 | AbsoluteY_3 | IndirectX_1 | IndirectX_2
    | IndirectX_3 | IndirectX_4 | IndirectX_5 | IndirectY_1 | IndirectY_2 | IndirectY_3
    | IndirectY_4 | Push | Pop | ADC | SEI | CLC
    | CLD

  /** The opcode-status tags of CPU.OpCodeStatus.cs, in declaration order. */
  datatype OpCodeStatus =
    | None | Interrupt_1 | Interrupt_2 | Interrupt_3
    | Interrupt_4 | Interrupt_5 | Interrupt_6 | Relative_Jump
    | ASL_1_ZeroPage | ASL_2_ZeroPage | ORA_1_Immediate | ORA_1_ZeroPage
    | BNE_1_Relative | BPL_1_Relative | CLC_1_Implied | JSR_1_Absolute
    | JSR_2_Absolute | JSR_3_Absolute | BMI_1_Relative | BIT_1_Absolute
    | RTI_1_Implied | RTI_2_Implied | RTI_3_Implied | RTI_4_Implied
    | RTI_5_Implied | JMP_1_Absolute | EOR_1_Immediate | RTS_1_Implied
    | RTS_2_Implied | RTS_3_Implied | RTS_4_Implied | RTS_5_Implied
    | ADC_1_Immediate | ADC_1_Addressing_ZeroPage | ADC_1_Addressing_ZeroPageX | ADC_1_Addressing_Absolute
    | ADC_1_Addressing_AbsoluteX | ADC_1_Addressing_AbsoluteY | ADC_1_Addressing_IndirectX | ADC_1_Addressing_IndirectY
    | ADC_2 | ROL_1_ZeroPage | ROL_2_ZeroPage | AND_1_Immediate
    | AND_1_ZeroPageX | SEI_1_Implied | TXA_1_Implied | TYA_1_Implied
    | STY_1_Absolute | STY_1_ZeroPage | BCC_1_Relative | STA_1_ZeroPage
    | STA_1_ZeroPageX | STA_1_Absolute | STA_1_AbsoluteX | STX_1_ZeroPage
    | STX_1_Absolute | TXS_1_Implied | LDX_1_Immediate | LDY_1_Immediate
    | LDY_1_Absolute | LDY_1_ZeroPage | TAX_1_Implied | TAY_1_Implied
    | LDA_1_Immediate | LDA_1_Absolute | LDA_1_AbsoluteX | LDA_1_AbsoluteY
    | LDA_1_IndirectY | LDA_1_ZeroPage | LDA_1_ZeroPageX | CMP_1_Immediate
    | CMP_1_ZeroPage | CMP_1_Absolute | CMP_1_ZeroPageX | CLD_1_Implied
    | CPX_1_Immediate | CPY_1_Immediate | DEC_1_ZeroPage | DEC_2_ZeroPage
    | INC_1_ZeroPage | INC_2_ZeroPage | INX_1_Implied | INY_1_Implied
    | DEX_1_Implied | DEY_1_Implied | BEQ_1_Relative

  /** Every field of the CPU object the three files read or write. */
  datatype Machine = Machine(
    regs: Registers, status: Status, addr: AddressState,
    micro: MicroCode, next: OpCodeStatus, reading: bool,
    interrupt: Wrappers.Option<InterruptType>, bus: FlatBus)

  /** `DispatchAddressing()`, which the files call but do not define: some
      transformation of the machine by the current descriptor. */
  type Dispatch = Machine -> Machine

  /** The part of `DispatchAddressing` the model keeps: it may change the
      registers, the flags, the address state and the memory, and leaves the
      tags, the interrupt latch and the bus ownership alone. */
  function Dispatched(m: Machine, d: Dispatch): (r: Machine)
    ensures r.micro == m.micro && r.next == m.next && r.reading == m.reading
    ensures r.interrupt == m.interrupt && r.bus.used == m.bus.used
  {
    var n := d(m);
    n.(micro := m.micro, next := m.next, reading := m.reading, interrupt := m.interrupt,
       bus := n.bus.(used := m.bus.used))
  }

  /** `Registers.PC++` / `Registers.PC--` on the 16-bit program counter. */
  function IncPC(m: Machine): Machine { m.(regs := m.regs.(pc := Wrap16(m.regs.pc + 1))) }
  function DecPC(m: Machine): Machine { m.(regs := m.regs.(pc := Wrap16(m.regs.pc - 1))) }

  /** `_masterClient.Read(a)`. */
  function BusRead(m: Machine, a: Word): Machine { m.(bus := m.bus.Read(a)) }
}
