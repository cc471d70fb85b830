/** The older, self-contained 6502 engine (CPU.cs): its own tag enums, the
    operand descriptor `_addressDst`/`_addressDir`/`_addressOper`, the ALU
    of `DoOperation`, the two dispatchers, the status and micro-code steps,
    the interrupt entry and the power-up and reset hooks, as functions over
    the engine's fields. */
module LegacyCpu {
  import opened Bytes
  import opened Wrappers
  import opened Processor
  import opened MasterBus

  /** `OpCodeStatus` of CPU.cs, in declaration order. */
  datatype OpCodeStatus =
    | None | Relative_Jump | BNE_1_Relative | BPL_1_Relative
    | JSR_1_Absolute | JSR_2_Absolute | JSR_3_Absolute | BIT_1_Absolute
    | RTS_1_Implied | RTS_2_Implied | RTS_3_Implied | RTS_4_Implied | RTS_5_Implied
    | ADC_1_Addressing_Immediate | ADC_1_Addressing_ZeroPage | ADC_1_Addressing_ZeroPageX
    | ADC_1_Addressing_Absolute | ADC_1_Addressing_AbsoluteX | ADC_1_Addressing_AbsoluteY
    | ADC_1_Addressing_IndirectX | ADC_1_Addressing_IndirectY | ADC_2
    | AND_1_Immediate | SEI_1_Implied | TXA_1_Implied | STY_1_Absolute
    | STA_1_ZeroPage | STA_1_ZeroPageX | STA_1_Absolute | STA_1_AbsoluteX
    | STX_1_ZeroPage | STX_1_Absolute | TXS_1_Implied | LDX_1_Immediate
    | LDY_1_Immediate | TAX_1_Implied | LDA_1_Immediate | LDA_1_Absolute
    | LDA_1_AbsoluteX | LDA_1_ZeroPage | CMP_1_Absolute | CLD_1_Implied
    | CPX_1_Immediate | INX_1_Implied

  /** `MicroCode` of CPU.cs, in declaration order. */
  datatype MicroCode =
    | None | Nop | Register | Immediate | Relative | ZeroPage_1 | ZeroPage_2
    | ZeroPageX_1 | ZeroPageX_2 | ZeroPageX_3 | ZeroPageY_1 | ZeroPageY_2 | ZeroPageY_3
    | Absolute_1 | Absolute_2 | Absolute_3 | AbsoluteX_1 | AbsoluteX_2 | AbsoluteX_3 | AbsoluteX_4
    | AbsoluteY_1 | AbsoluteY_2 | AbsoluteY_3
    | IndirectX_1 | IndirectX_2 | IndirectX_3 | IndirectX_4 | IndirectX_5
    | IndirectY_1 | IndirectY_2 | IndirectY_3 | IndirectY_4
    | Push | Pop | ADC | SEI | TAX | TXA | TXS | CLD

  /** `AddressDestination`, `AddressDirection` and `AddressOperation`. */
  datatype Destination = None | X | Y | A | PC
  datatype Direction = Read | Write | Jump
  datatype Operation = None | Inc | BitTest | Compare | CompareX | And

  /** Every field of the engine object. */
  datatype Core = Core(
    regs: Registers, status: Status,
    micro: MicroCode, next: OpCodeStatus, reading: bool,
    dst: Destination, dir: Direction, oper: Operation,
    temp: Byte, temp16: Word, bus: FlatBus)
  {
    /** `_addressDst`, `_addressOper` and `_addressDir` set together. */
    function Describe(d: Destination, o: Operation, r: Direction): Core {
      this.(dst := d, oper := o, dir := r)
    }
  }

  /** `ExecuteOpCode(OpCode)` on the fetched byte: 27 opcodes have a first
      status; ADC (0x69), though declared, and every undeclared byte throw. */
  function Decode(b: Byte): Result<OpCodeStatus> {
    match b
    case 0x78 => Ok(SEI_1_Implied) case 0xD8 => Ok(CLD_1_Implied) case 0xA2 => Ok(LDX_1_Immediate)
    case 0x8E => Ok(STX_1_Absolute) case 0x9A => Ok(TXS_1_Implied) case 0xE8 => Ok(INX_1_Implied)
    case 0xA9 => Ok(LDA_1_Immediate) case 0xAD => Ok(LDA_1_Absolute) case 0x20 => Ok(JSR_1_Absolute)
    case 0x2C => Ok(BIT_1_Absolute) case 0x10 => Ok(BPL_1_Relative) case 0x8A => Ok(TXA_1_Implied)
    case 0x95 => Ok(STA_1_ZeroPageX) case 0x9D => Ok(STA_1_AbsoluteX) case 0xD0 => Ok(BNE_1_Relative)
    case 0xA0 => Ok(LDY_1_Immediate) case 0xCD => Ok(CMP_1_Absolute) case 0x8D => Ok(STA_1_Absolute)
    case 0x8C => Ok(STY_1_Absolute) case 0x85 => Ok(STA_1_ZeroPage) case 0xA5 => Ok(LDA_1_ZeroPage)
    case 0x29 => Ok(AND_1_Immediate) case 0xAA => Ok(TAX_1_Implied) case 0x86 => Ok(STX_1_ZeroPage)
    case 0x60 => Ok(RTS_1_Implied) case 0xBD => Ok(LDA_1_AbsoluteX) case 0xE0 => Ok(CPX_1_Immediate)
    case _ => Err(InvalidProgram)
  }

  /** The bytes the legacy table decodes. */
  const DecodedBytes: set<Byte> := {
    0x10, 0x20, 0x29, 0x2C, 0x60, 0x78, 0x85, 0x86, 0x8A, 0x8C, 0x8D, 0x8E, 0x95, 0x9A,
    0x9D, 0xA0, 0xA2, 0xA5, 0xA9, 0xAA, 0xAD, 0xBD, 0xCD, 0xD0, 0xD8, 0xE0, 0xE8 }

  /** Exactly the 27 listed bytes decode; anything else is an invalid
      program, and no two bytes start the same instruction. */
  lemma DecodeDomain(b: Byte, b2: Byte)
    ensures Decode(b).Ok? <==> b in DecodedBytes
    ensures Decode(b).Err? ==> Decode(b).error == InvalidProgram
    ensures Decode(b).Ok? && Decode(b2).Ok? && b != b2 ==> Decode(b).value != Decode(b2).value
  {
  }

  /** `UpdateNZ(result)`: N from bit 7, Z from zero. */
  function UpdateNZ(s: Status, result: Byte): Status {
    s.WithN(Bit7(result)).WithZ(result == 0)
  }

  /** N and Z then describe the result, and the other six bits of the
      status byte are kept. */
  lemma UpdateNZFacts(s: Status, result: Byte)
    ensures UpdateNZ(s, result).N() == (result >= 0x80) && UpdateNZ(s, result).Z() == (result == 0)
    ensures UpdateNZ(s, result).bits & !(MaskN | MaskZ) == s.bits & !(MaskN | MaskZ)
  {
  }

  /** `DoOperation(value, affectFlag)`: the flags after the operation and the
      byte it returns, for the current `_addressOper`. */
  function DoOperation(oper: Operation, regs: Registers, s: Status, value: Byte, affectFlag: bool): (Status, Byte) {
    match oper
    case None => (if affectFlag then UpdateNZ(s, value) else s, value)
    case Inc =>
      var v := Wrap8(value + 1);
      (if affectFlag then UpdateNZ(s, v) else s, v)
    case BitTest =>
      (if affectFlag then s.WithZ(And8(regs.a, value) == 0).WithN(Bit7(value)).WithV(Bit6(value)) else s, value)
    case Compare =>
      (if affectFlag then s.WithC(regs.a >= value).WithZ(regs.a == value).WithN(regs.a - value < 0) else s, value)
    case CompareX =>
      (if affectFlag then s.WithC(regs.x >= value).WithZ(regs.x == value).WithN(regs.x - value < 0) else s, value)
    case And =>
      var v := And8(value, regs.a);
      (if affectFlag then s.WithZ(regs.a == 0).WithN(Bit7(v)) else s, v)
  }

  /** None passes the operand through and Inc adds one modulo 256; both set
      N and Z from the byte they return. */
  lemma LoadAndIncFlags(regs: Registers, s: Status, value: Byte)
    ensures var (t, v) := DoOperation(Operation.None, regs, s, value, true);
            v == value && t.N() == (value >= 0x80) && t.Z() == (value == 0)
    ensures var (t, v) := DoOperation(Inc, regs, s, value, true);
            v == (value + 1) % 0x100 && t.N() == (v >= 0x80) && t.Z() == (v == 0)
  {
    UpdateNZFacts(s, value);
    UpdateNZFacts(s, Wrap8(value + 1));
  }

  /** Compare sets C for register >= operand and Z for equality; N is set
      for register < operand (the integer difference is negative), which is
      the complement of C rather than bit 7 of the 8-bit difference. The
      operand is returned unchanged. */
  lemma CompareFlags(regs: Registers, s: Status, value: Byte)
    ensures var (t, v) := DoOperation(Compare, regs, s, value, true);
            v == value && t.C() == (regs.a >= value) && t.Z() == (regs.a == value)
            && t.N() == (regs.a < value) && t.N() == !t.C()
    ensures var (t, v) := DoOperation(CompareX, regs, s, value, true);
            v == value && t.C() == (regs.x >= value) && t.Z() == (regs.x == value)
            && t.N() == (regs.x < value) && t.N() == !t.C()
  {
    FlagAfter3(s, MaskC, regs.a >= value, MaskZ, regs.a == value, MaskN, regs.a - value < 0);
    FlagAfter3(s, MaskC, regs.x >= value, MaskZ, regs.x == value, MaskN, regs.x - value < 0);
  }

  /** Three flag setters in a row: each flag reads back as set. */
  lemma FlagAfter3(s: Status, m1: bv8, b1: bool, m2: bv8, b2: bool, m3: bv8, b3: bool)
    requires IsFlagMask(m1) && IsFlagMask(m2) && IsFlagMask(m3)
    requires m1 != m2 && m2 != m3 && m1 != m3
    ensures var t := s.WithFlag(m1, b1).WithFlag(m2, b2).WithFlag(m3, b3);
            t.Flag(m1) == b1 && t.Flag(m2) == b2 && t.Flag(m3) == b3
  {
  }

  /** BIT: Z is set when A and the operand share no bit, N and V copy bits 7
      and 6 of the operand, and the operand comes back unchanged. */
  lemma BitTestFlags(regs: Registers, s: Status, value: Byte)
    ensures var (t, v) := DoOperation(BitTest, regs, s, value, true);
            v == value && t.Z() == (And8(regs.a, value) == 0) && t.N() == (value >= 0x80) && t.V() == Bit6(value)
  {
    FlagAfter3(s, MaskZ, And8(regs.a, value) == 0, MaskN, Bit7(value), MaskV, Bit6(value));
  }

  /** AND returns operand & A with N from its bit 7, but Z reflects the old
      A, not the result. */
  lemma AndFlags(regs: Registers, s: Status, value: Byte)
    ensures var (t, v) := DoOperation(And, regs, s, value, true);
            v == And8(value, regs.a) && v <= value && v <= regs.a
            && t.Z() == (regs.a == 0) && t.N() == (v >= 0x80)
  {
    AndBitsBelow(value, regs.a, ByteWidth());
  }

  /** `DispatchRegisterAddressing()`: the operation applied to X or A;
      any other destination throws. */
  function DispatchRegister(c: Core): Result<Core> {
    match c.dst
    case X =>
      var (s, v) := DoOperation(c.oper, c.regs, c.status, c.regs.x, true);
      Ok(c.(status := s, regs := c.regs.(x := v)))
    case A =>
      var (s, v) := DoOperation(c.oper, c.regs, c.status, c.regs.a, true);
      Ok(c.(status := s, regs := c.regs.(a := v)))
    case _ => Err(Argument)
  }

  /** `DispatchMemoryAddressing(address)`. A read latches the byte, applies
      the operation and stores the result into the destination (None keeps
      only the flags); a write latches the source register and stores it; a
      jump loads PC. Every other combination throws. */
  function DispatchMemory(c: Core, address: Word): Result<Core> {
    match c.dir
    case Read =>
      var b := c.bus.Read(address);
      var (s, v) := DoOperation(c.oper, c.regs, c.status, b.value, true);
      var c1 := c.(bus := b, status := s);
      (match c.dst
       case None => Ok(c1)
       case X => Ok(c1.(regs := c.regs.(x := v)))
       case Y => Ok(c1.(regs := c.regs.(y := v)))
       case A => Ok(c1.(regs := c.regs.(a := v)))
       case PC => Err(Argument))
    case Write =>
      (match c.dst
       case X => Ok(c.(bus := c.bus.Latch(c.regs.x).Write(address)))
       case Y => Ok(c.(bus := c.bus.Latch(c.regs.y).Write(address)))
       case A => Ok(c.(bus := c.bus.Latch(c.regs.a).Write(address)))
       case _ => Err(Argument))
    case Jump =>
      if c.dst == PC then Ok(c.(regs := c.regs.(pc := address))) else Err(Argument)
  }

  /** The register a destination names, if it names one of A, X, Y. */
  function RegisterOf(regs: Registers, d: Destination): Byte
    requires d == X || d == Y || d == A
  {
    if d == X then regs.x else if d == Y then regs.y else regs.a
  }

  /** The dispatch succeeds exactly for read into None/X/Y/A, write from
      X/Y/A and jump to PC, and then: a read leaves memory alone and puts the
      operation's result into the destination register; a write stores the
      register at the address and changes no other byte; a jump changes only
      PC. */
  lemma DispatchMemoryFacts(c: Core, address: Word, other: Word)
    ensures DispatchMemory(c, address).Ok? <==>
      match c.dir
      case Read => c.dst != PC
      case Write => c.dst == X || c.dst == Y || c.dst == A
      case Jump => c.dst == PC
    ensures DispatchMemory(c, address).Err? ==> DispatchMemory(c, address).error == Argument
    ensures c.dir == Read && c.dst != PC ==>
      var r := DispatchMemory(c, address).value;
      var (s, v) := DoOperation(c.oper, c.regs, c.status, c.bus.mem[address], true);
      && r.bus.mem == c.bus.mem && r.bus.value == c.bus.mem[address] && r.status == s
      && r.regs == (match c.dst case X => c.regs.(x := v) case Y => c.regs.(y := v)
                                case A => c.regs.(a := v) case _ => c.regs)
    ensures c.dir == Write && (c.dst == X || c.dst == Y || c.dst == A) ==>
      var r := DispatchMemory(c, address).value;
      && r.bus.mem[address] == RegisterOf(c.regs, c.dst)
      && (other != address ==> r.bus.mem[other] == c.bus.mem[other])
      && r.regs == c.regs && r.status == c.status
    ensures c.dir == Jump && c.dst == PC ==>
      DispatchMemory(c, address).value == c.(regs := c.regs.(pc := address))
  {
  }

  /** `ReadUShort(address)`: the low byte at `address`, the high byte at
      the next address (wrapping at 0xFFFF); the latch ends with the high byte. */
  function ReadWord(b: FlatBus, address: Word): (FlatBus, Word) {
    var b1 := b.Read(address);
    var b2 := b1.Read(Wrap16(address + 1));
    (b2, MakeWord(b1.value, b2.value))
  }

  /** The word read is little-endian and the memory is unchanged. */
  lemma ReadWordLittleEndian(b: FlatBus, address: Word)
    ensures ReadWord(b, address).1 == b.mem[address] as int + b.mem[Wrap16(address + 1)] as int * 0x100
    ensures ReadWord(b, address).0.mem == b.mem
  {
  }

  /** `Interrupt(type)`: set I and load PC from the type's vector. */
  function Interrupt(c: Core, t: InterruptType): Core {
    var (b, pc) := ReadWord(c.bus, Vector(t));
    c.(status := c.status.WithI(true), bus := b, regs := c.regs.(pc := pc))
  }

  /** The power-up register writes: 0 to 0x4017, 0x4015 and 0x4000..0x400F. */
  predicate ApuRegister(a: Word) {
    a == 0x4017 || a == 0x4015 || 0x4000 <= a <= 0x400F
  }

  /** The memory after `count` writes of the latched value from `from` up. */
  function WriteRun(b: FlatBus, from: nat, count: nat): FlatBus
    requires from + count <= 0x1_0000
    decreases count
  {
    if count == 0 then b else WriteRun(b.Write(from), from + 1, count - 1)
  }

  /** A run of writes stores the latch in the run and nowhere else. */
  lemma {:induction false} WriteRunFacts(b: FlatBus, from: nat, count: nat, a: Word)
    requires from + count <= 0x1_0000
    ensures WriteRun(b, from, count).value == b.value && WriteRun(b, from, count).used == b.used
    ensures WriteRun(b, from, count).mem[a] == if from <= a < from + count then b.value else b.mem[a]
    decreases count
  {
    if count > 0 {
      WriteRunFacts(b.Write(from), from + 1, count - 1, a);
    }
  }

  /** The power-up writes to the APU: latch 0, store it at 0x4017, 0x4015
      and then 0x4000..0x400F. */
  function Silence(b: FlatBus): FlatBus {
    WriteRun(b.Latch(0).Write(0x4017).Write(0x4015), 0x4000, 0x10)
  }

  /** Silencing zeroes exactly the APU registers. */
  lemma SilenceMemory(b: FlatBus, a: Word)
    ensures Silence(b).mem[a] == if ApuRegister(a) then 0 else b.mem[a]
  {
    var w := b.Latch(0).Write(0x4017).Write(0x4015);
    assert w.value == 0;
    assert w.mem[a] == if a == 0x4015 || a == 0x4017 then 0 else b.mem[a];
    WriteRunFacts(w, 0x4000, 0x10, a);
  }

  /** `IClockSink.OnPowerUp`: clear the pending tags, Status = 0x34,
      A = X = Y = 0, S = 0xFD, silence the APU registers, then the reset
      interrupt. `_readingOpCode` is not touched. */
  function PowerUp(c: Core): Core {
    var c1 := c.(next := OpCodeStatus.None, micro := MicroCode.None, status := StatusOf(0x34),
                 regs := Registers(c.regs.pc, 0xFD, 0, 0, 0), bus := Silence(c.bus));
    Interrupt(c1, Reset)
  }

  /** After power-up the APU registers read 0 and no other byte changed,
      the registers and flags have their documented values, and PC is the
      little-endian reset vector at 0xFFFC/0xFFFD. */
  lemma PowerUpState(c: Core, a: Word)
    ensures var r := PowerUp(c);
      && r.next == OpCodeStatus.None && r.micro == MicroCode.None && r.reading == c.reading
      && r.status.Value() == 0x34 && r.status.I()
      && r.regs.a == 0 && r.regs.x == 0 && r.regs.y == 0 && r.regs.s == 0xFD
      && r.bus.mem[a] == (if ApuRegister(a) then 0 else c.bus.mem[a])
      && r.regs.pc == MakeWord(c.bus.mem[0xFFFC], c.bus.mem[0xFFFD])
  {
    ReadWordLittleEndian(Silence(c.bus), 0xFFFC);
    SilenceMemory(c.bus, a);
    SilenceMemory(c.bus, 0xFFFC);
    SilenceMemory(c.bus, 0xFFFD);
    PowerUpFlags();
  }

  /** 0x34 already has I set. */
  lemma PowerUpFlags()
    ensures StatusOf(0x34).WithI(true) == StatusOf(0x34)
    ensures StatusOf(0x34).Value() == 0x34 && StatusOf(0x34).I()
  {
    assert StatusOf(0x34).WithI(true) == StatusOf(0x34);
  }

  /** `IClockSink.OnReset`: S -= 3 (mod 256), set I, then the reset interrupt. */
  function ResetCore(c: Core): Core {
    var c1 := c.(regs := c.regs.(s := Wrap8(c.regs.s - 3)), status := c.status.WithI(true));
    Interrupt(c1, Reset)
  }

  /** Reset moves S down by three, sets I and keeps every other flag, keeps
      A, X, Y and memory, and loads PC from the reset vector. */
  lemma ResetState(c: Core)
    ensures var r := ResetCore(c);
      && r.regs.s == (c.regs.s + 0x100 - 3) % 0x100 && r.status.I()
      && r.status.bits & !MaskI == c.status.bits & !MaskI
      && r.regs.a == c.regs.a && r.regs.x == c.regs.x && r.regs.y == c.regs.y
      && r.bus.mem == c.bus.mem && r.regs.pc == MakeWord(c.bus.mem[0xFFFC], c.bus.mem[0xFFFD])
  {
    WithFlagFrame(c.status, MaskI, true);
    WithFlagFrame(c.status.WithI(true), MaskI, true);
  }

  /** A status arm that sets the descriptor and hands over to `micro`. */
  function Arm(c: Core, d: Destination, o: Operation, r: Direction, micro: MicroCode): Core {
    c.Describe(d, o, r).(micro := micro, next := OpCodeStatus.None)
  }

  /** A status arm returning `(micro, next)` with no other effect. */
  function Then(c: Core, micro: MicroCode, next: OpCodeStatus): Core {
    c.(micro := micro, next := next)
  }

  function IncPC(c: Core): Core { c.(regs := c.regs.(pc := Wrap16(c.regs.pc + 1))) }

  /** `_masterClient.Read(Registers.PC++)`. */
  function Fetch(c: Core): Core { IncPC(c.(bus := c.bus.Read(c.regs.pc))) }

  /** `ExecuteOpCode(OpCodeStatus)`: the descriptor or scratch update of
      one status, with the pending tags it returns stored in `micro` and
      `next`; a status without an arm throws. */
  function StatusStep(c: Core, code: OpCodeStatus): Result<Core> {
    match code
    case Relative_Jump => Ok(Arm(c, PC, Operation.None, Jump, Relative))
    case SEI_1_Implied => Ok(Then(c, SEI, OpCodeStatus.None))
    case STY_1_Absolute => Ok(Arm(c, Y, Operation.None, Write, Absolute_1))
    case STA_1_ZeroPage => Ok(Arm(c, A, Operation.None, Write, ZeroPage_1))
    case STA_1_ZeroPageX => Ok(Arm(c, A, Operation.None, Write, ZeroPageX_1))
    case STA_1_AbsoluteX => Ok(Arm(c, A, Operation.None, Write, AbsoluteX_1))
    case STA_1_Absolute => Ok(Arm(c, A, Operation.None, Write, Absolute_1))
    case STX_1_ZeroPage => Ok(Arm(c, X, Operation.None, Write, ZeroPage_1))
    case STX_1_Absolute => Ok(Arm(c, X, Operation.None, Write, Absolute_1))
    case CLD_1_Implied => Ok(Then(c, CLD, OpCodeStatus.None))
    case LDY_1_Immediate => Ok(Arm(c, Y, Operation.None, Read, Immediate))
    case LDX_1_Immediate => Ok(Arm(c, X, Operation.None, Read, Immediate))
    case TAX_1_Implied => Ok(Then(c, TAX, OpCodeStatus.None))
    case TXA_1_Implied => Ok(Then(c, TXA, OpCodeStatus.None))
    case TXS_1_Implied => Ok(Then(c, TXS, OpCodeStatus.None))
    case INX_1_Implied => Ok(Arm(c, X, Inc, Read, Register))
    case LDA_1_Immediate => Ok(Arm(c, A, Operation.None, Read, Immediate))
    case LDA_1_Absolute => Ok(Arm(c, A, Operation.None, Read, Absolute_1))
    case LDA_1_AbsoluteX => Ok(Arm(c, A, Operation.None, Read, AbsoluteX_1))
    case LDA_1_ZeroPage => Ok(Arm(c, A, Operation.None, Read, ZeroPage_1))
    case JSR_1_Absolute => Ok(Then(c.(temp := Hi(Wrap16(c.regs.pc + 1))), Push, JSR_2_Absolute))
    case JSR_2_Absolute => Ok(Then(c.(temp := Lo(Wrap16(c.regs.pc + 1))), Push, JSR_3_Absolute))
    case JSR_3_Absolute => Ok(Arm(c, PC, Operation.None, Jump, Absolute_1))
    case BIT_1_Absolute => Ok(Arm(c, Destination.None, BitTest, Read, Absolute_1))
    case BPL_1_Relative =>
      if c.status.N() then Ok(Then(IncPC(c), Nop, OpCodeStatus.None)) else Ok(Then(c, Nop, Relative_Jump))
    case BNE_1_Relative =>
      if c.status.Z() then Ok(Then(IncPC(c), Nop, OpCodeStatus.None)) else Ok(Then(c, Nop, Relative_Jump))
    case CMP_1_Absolute => Ok(Arm(c, Destination.None, Compare, Read, Absolute_1))
    case CPX_1_Immediate => Ok(Arm(c, Destination.None, CompareX, Read, Immediate))
    case AND_1_Immediate => Ok(Arm(c, A, And, Read, Immediate))
    case RTS_1_Implied => Ok(Then(c, Pop, RTS_2_Implied))
    case RTS_2_Implied => Ok(Then(c.(temp16 := c.temp), Pop, RTS_3_Implied))
    case RTS_3_Implied => Ok(Then(c.(temp16 := OrHigh(c.temp16, c.temp)), Nop, RTS_4_Implied))
    case RTS_4_Implied => Ok(Then(c.(temp16 := Wrap16(c.temp16 + 1)), Nop, RTS_5_Implied))
    case RTS_5_Implied => Ok(Then(c.(regs := c.regs.(pc := c.temp16)), Nop, OpCodeStatus.None))
    case _ => Err(InvalidProgram)
  }

  /** A dispatch that ends the micro-code sequence. */
  function Finish(r: Result<Core>): Result<Core> {
    if r.Ok? then Ok(r.value.(micro := MicroCode.None)) else r
  }

  /** `_nextMicroCode = ExecuteMicroCode(code)`; a micro-code without an arm
      (the Y-indexed and indirect modes, ADC) throws. */
  function MicroStep(c: Core, code: MicroCode): Result<Core> {
    match code
    case Nop => Ok(c.(micro := MicroCode.None))
    case Register => Finish(DispatchRegister(c))
    case Immediate => Finish(DispatchMemory(IncPC(c), c.regs.pc))
    case Relative =>
      var c1 := Fetch(c);
      Finish(DispatchMemory(c1, Wrap16(c1.regs.pc + Signed8(c1.bus.value))))
    case Absolute_1 => var c1 := Fetch(c); Ok(c1.(temp := c1.bus.value, micro := Absolute_2))
    case Absolute_2 => Ok(Fetch(c).(micro := Absolute_3))
    case Absolute_3 => Finish(DispatchMemory(c, MakeWord(c.temp, c.bus.value)))
    case ZeroPage_1 => var c1 := Fetch(c); Ok(c1.(temp := c1.bus.value, micro := ZeroPage_2))
    case ZeroPage_2 => Finish(DispatchMemory(c, c.temp))
    case ZeroPageX_1 => var c1 := Fetch(c); Ok(c1.(temp := c1.bus.value, micro := ZeroPageX_2))
    case ZeroPageX_2 => Ok(c.(temp := Wrap8(c.temp + c.regs.x), micro := ZeroPageX_3))
    case ZeroPageX_3 => Finish(DispatchMemory(c, c.temp))
    case AbsoluteX_1 => var c1 := Fetch(c); Ok(c1.(temp := c1.bus.value, micro := AbsoluteX_2))
    case AbsoluteX_2 => var c1 := Fetch(c); Ok(c1.(temp16 := MakeWord(c.temp, c1.bus.value), micro := AbsoluteX_3))
    case AbsoluteX_3 => Ok(c.(temp16 := Wrap16(c.temp16 + c.regs.x), micro := AbsoluteX_4))
    case AbsoluteX_4 => Finish(DispatchMemory(c, c.temp16))
    case Push =>
      Ok(c.(bus := c.bus.Latch(c.temp).Write(StackAddress(c.regs.s)),
            regs := c.regs.(s := Wrap8(c.regs.s - 1)), micro := MicroCode.None))
    case Pop =>
      var s := Wrap8(c.regs.s + 1);
      var b := c.bus.Read(StackAddress(s));
      Ok(c.(bus := b, regs := c.regs.(s := s), temp := b.value, micro := MicroCode.None))
    case SEI => Ok(c.(status := c.status.WithI(true), micro := MicroCode.None))
    case TAX => Ok(c.(regs := c.regs.(x := c.regs.a), status := UpdateNZ(c.status, c.regs.a), micro := MicroCode.None))
    case TXA => Ok(c.(regs := c.regs.(a := c.regs.x), status := UpdateNZ(c.status, c.regs.x), micro := MicroCode.None))
    case TXS => Ok(c.(regs := c.regs.(s := c.regs.x), micro := MicroCode.None))
    case CLD => Ok(c.(status := c.status.WithD(false), micro := MicroCode.None))
    case _ => Err(InvalidProgram)
  }

  /** `(_nextMicroCode, _nextOpCodeStatus) = ExecuteOpCode(_nextOpCodeStatus)`
      followed by the micro-code it returns, in the same tick. */
  function Continue(c: Core): Result<Core> {
    var t :- StatusStep(c, c.next);
    MicroStep(t, t.micro)
  }

  /** `ExecuteOpCode()`, one tick: a pending micro-code runs alone;
      otherwise a pending status runs with its micro-code; otherwise the
      opcode is fetched on one tick and decoded and started on the next.
      This revision does not ask for the bus. */
  function Tick(c: Core): Result<Core> {
    if c.micro == MicroCode.None then
      if c.next == OpCodeStatus.None then
        if !c.reading then Ok(Fetch(c.(reading := true)))
        else
          var st :- Decode(c.bus.value);
          Continue(c.(reading := false, next := st))
      else Continue(c)
    else MicroStep(c, c.micro)
  }

  /** `n` ticks in a row; the first exception stops the run. */
  function Ticks(c: Core, n: nat): Result<Core>
    decreases n
  {
    if n == 0 then Ok(c)
    else
      var c1 :- Tick(c);
      Ticks(c1, n - 1)
  }

  /** The declared statuses without an arm in `ExecuteOpCode(OpCodeStatus)`. */
  const ArmlessStatuses: set<OpCodeStatus> := {
    OpCodeStatus.None, ADC_1_Addressing_Immediate, ADC_1_Addressing_ZeroPage, ADC_1_Addressing_ZeroPageX,
    ADC_1_Addressing_Absolute, ADC_1_Addressing_AbsoluteX, ADC_1_Addressing_AbsoluteY,
    ADC_1_Addressing_IndirectX, ADC_1_Addressing_IndirectY, ADC_2 }

  /** The declared micro-codes without an arm in `ExecuteMicroCode`. */
  const ArmlessMicroCodes: set<MicroCode> := {
    MicroCode.None, ZeroPageY_1, ZeroPageY_2, ZeroPageY_3, AbsoluteY_1, AbsoluteY_2, AbsoluteY_3,
    IndirectX_1, IndirectX_2, IndirectX_3, IndirectX_4, IndirectX_5,
    IndirectY_1, IndirectY_2, IndirectY_3, IndirectY_4, ADC }

  /** A status step throws, with InvalidProgramException, exactly for the
      statuses without an arm. */
  lemma StatusStepDomain(c: Core, code: OpCodeStatus)
    ensures StatusStep(c, code).Err? <==> code in ArmlessStatuses
    ensures StatusStep(c, code).Err? ==> StatusStep(c, code).error == InvalidProgram
  {
  }

  /** A micro-code without an arm throws InvalidProgram, and one with an
      arm can throw only from a dispatch, with ArgumentException. */
  lemma UnlistedTagsThrow(c: Core, code: MicroCode)
    ensures code in ArmlessMicroCodes ==> MicroStep(c, code) == Err(InvalidProgram)
    ensures code !in ArmlessMicroCodes && MicroStep(c, code).Err? ==> MicroStep(c, code) == Err(Argument)
  {
    if code !in ArmlessMicroCodes && MicroStep(c, code).Err? {
      MicroDispatchErrors(c, code);
    }
  }

  lemma MicroDispatchErrors(c: Core, code: MicroCode)
    requires code !in ArmlessMicroCodes && MicroStep(c, code).Err?
    ensures MicroStep(c, code) == Err(Argument)
  {
    match code
    case Register =>
    case Immediate => DispatchMemoryFacts(IncPC(c), c.regs.pc, 0);
    case Relative =>
      var c1 := Fetch(c);
      DispatchMemoryFacts(c1, Wrap16(c1.regs.pc + Signed8(c1.bus.value)), 0);
    case Absolute_3 => DispatchMemoryFacts(c, MakeWord(c.temp, c.bus.value), 0);
    case ZeroPage_2 => DispatchMemoryFacts(c, c.temp, 0);
    case ZeroPageX_3 => DispatchMemoryFacts(c, c.temp, 0);
    case AbsoluteX_4 => DispatchMemoryFacts(c, c.temp16, 0);
    case _ =>
  }
}
