/** Address formation and branches of the older engine (CPU.cs), tick by
    tick: page-zero indexing stays on page zero, absolute indexing carries
    into the high byte, and BPL/BNE either skip their operand or jump
    relative to the next instruction. */
module LegacyCpuAddressing {
  import opened Bytes
  import opened Wrappers
  import opened Processor
  import opened MasterBus
  import opened LegacyCpu
  import opened LegacyCpuSequences

  /** `ZeroPageX_1`: fetch the operand. */
  function ZeroPageXFetched(c: Core): Core {
    var c1 := Fetch(c);
    c1.(temp := c1.bus.value, micro := ZeroPageX_2)
  }

  /** `ZeroPageX_2`: add X inside the byte. */
  function ZeroPageXIndexed(c: Core): Core {
    c.(temp := Wrap8(c.temp + c.regs.x), micro := ZeroPageX_3)
  }

  lemma ZeroPageXTicks(c: Core, n: nat)
    requires c.micro == ZeroPageX_1
    ensures Ticks(c, n + 2) == Ticks(ZeroPageXIndexed(ZeroPageXFetched(c)), n)
  {
    var c1 := ZeroPageXFetched(c);
    assert Tick(c) == Ok(c1);
    assert Tick(c1) == Ok(ZeroPageXIndexed(c1));
    TicksStep(c1, ZeroPageXIndexed(c1), n);
    TicksStep(c, c1, n + 1);
  }

  /** Page-zero X indexing: after two ticks the operand has been read, PC
      has moved past it, and the third tick accesses `(operand + X) mod
      256`, an address on page zero, with the descriptor untouched. */
  lemma ZeroPageXAddress(c: Core)
    ensures var r := ZeroPageXIndexed(ZeroPageXFetched(c));
            var address := Wrap8(c.bus.mem[c.regs.pc] as int + c.regs.x);
            && address < 0x100
            && r.regs == c.regs.(pc := Wrap16(c.regs.pc as int + 1))
            && r.bus.mem == c.bus.mem && r.status == c.status
            && r.dst == c.dst && r.dir == c.dir && r.oper == c.oper
            && Tick(r) == Finish(DispatchMemory(r, address))
  {
  }

  /** `AbsoluteX_1`: fetch the low byte. */
  function AbsoluteXFetchedLo(c: Core): Core {
    var c1 := Fetch(c);
    c1.(temp := c1.bus.value, micro := AbsoluteX_2)
  }

  /** `AbsoluteX_2`: fetch the high byte and assemble the base address. */
  function AbsoluteXFetchedHi(c: Core): Core {
    var c1 := Fetch(c);
    c1.(temp16 := MakeWord(c.temp, c1.bus.value), micro := AbsoluteX_3)
  }

  /** `AbsoluteX_3`: add X over the whole word. */
  function AbsoluteXIndexed(c: Core): Core {
    c.(temp16 := Wrap16(c.temp16 + c.regs.x), micro := AbsoluteX_4)
  }

  function AbsoluteXReady(c: Core): Core {
    AbsoluteXIndexed(AbsoluteXFetchedHi(AbsoluteXFetchedLo(c)))
  }

  lemma AbsoluteXTicks(c: Core, n: nat)
    requires c.micro == AbsoluteX_1
    ensures Ticks(c, n + 3) == Ticks(AbsoluteXReady(c), n)
  {
    var c1 := AbsoluteXFetchedLo(c);
    var c2 := AbsoluteXFetchedHi(c1);
    assert Tick(c) == Ok(c1);
    assert Tick(c1) == Ok(c2);
    assert Tick(c2) == Ok(AbsoluteXIndexed(c2));
    TicksStep(c2, AbsoluteXIndexed(c2), n);
    TicksStep(c1, c2, n + 1);
    TicksStep(c, c1, n + 2);
  }

  /** Absolute X indexing: after three ticks the two operand bytes have been
      read low byte first, PC has moved past both, and the fourth tick
      accesses the base address plus X modulo 0x10000, carrying into the
      high byte when the page is crossed. */
  lemma AbsoluteXAddress(c: Core)
    ensures var r := AbsoluteXReady(c);
            var p: int := c.regs.pc;
            var address := Wrap16(MakeWord(c.bus.mem[p], c.bus.mem[Wrap16(p + 1)]) as int + c.regs.x);
            && r.regs == c.regs.(pc := Wrap16(p + 2))
            && r.bus.mem == c.bus.mem && r.status == c.status
            && r.dst == c.dst && r.dir == c.dir && r.oper == c.oper
            && Tick(r) == Finish(DispatchMemory(r, address))
  {
    AbsoluteXFields(c);
    AbsoluteXDispatch(AbsoluteXReady(c));
  }

  /** The core after the three address ticks. */
  lemma AbsoluteXFields(c: Core)
    ensures var r := AbsoluteXReady(c);
            var p: int := c.regs.pc;
            && r.temp16 == Wrap16(MakeWord(c.bus.mem[p], c.bus.mem[Wrap16(p + 1)]) as int + c.regs.x)
            && r.micro == AbsoluteX_4
            && r.regs == c.regs.(pc := Wrap16(p + 2))
            && r.bus.mem == c.bus.mem && r.status == c.status
            && r.dst == c.dst && r.dir == c.dir && r.oper == c.oper
  {
    var p: int := c.regs.pc;
    var c1 := AbsoluteXFetchedLo(c);
    FetchedFacts(c);
    assert c1.regs.pc == Wrap16(p + 1) && c1.temp == c.bus.mem[p];
    var c2 := AbsoluteXFetchedHi(c1);
    FetchedFacts(c1);
    assert c2.temp16 == MakeWord(c.bus.mem[p], c.bus.mem[Wrap16(p + 1)]);
    Wrap16Add(p + 1, 1);
    assert c2.regs == c.regs.(pc := Wrap16(p + 2));
  }

  /** What one operand fetch changes: PC moves by one and the byte at the
      old PC is latched. */
  lemma FetchedFacts(c: Core)
    ensures var f := Fetch(c);
            && f.regs == c.regs.(pc := Wrap16(c.regs.pc as int + 1))
            && f.bus.value == c.bus.mem[c.regs.pc]
            && f.bus.mem == c.bus.mem && f.status == c.status
            && f.dst == c.dst && f.dir == c.dir && f.oper == c.oper
  {
  }

  /** The fourth tick accesses the indexed address. */
  lemma AbsoluteXDispatch(r: Core)
    requires r.micro == AbsoluteX_4
    ensures Tick(r) == Finish(DispatchMemory(r, r.temp16))
  {
  }

  /** The bytes of the two branches and the flag each tests: BPL (0x10)
      skips when N is set, BNE (0xD0) when Z is set. */
  predicate IsBranch(op: Byte) { op == 0x10 || op == 0xD0 }

  function BranchSkips(op: Byte, s: Status): bool
    requires IsBranch(op)
  {
    if op == 0x10 then s.N() else s.Z()
  }

  /** A branch that is not taken: fetch and decode, and PC moves past the
      operand. */
  function BranchSkipped(c: Core): Core {
    var c1 := Fetch(c.(reading := true));
    IncPC(c1.(reading := false)).(micro := MicroCode.None, next := OpCodeStatus.None)
  }

  /** A branch that is taken, after its first two ticks: the relative jump
      is pending. */
  function BranchPending(c: Core): Core {
    var c1 := Fetch(c.(reading := true));
    c1.(reading := false, micro := MicroCode.None, next := Relative_Jump)
  }

  /** Tick 3 of a taken branch: `Relative_Jump` describes a jump and the
      relative micro-code fetches the offset and jumps. */
  function BranchJumped(c: Core): Core {
    var c1 := Fetch(Arm(c, PC, Operation.None, Jump, Relative));
    c1.(regs := c1.regs.(pc := Wrap16(c1.regs.pc + Signed8(c1.bus.value))), micro := MicroCode.None)
  }

  lemma BranchDecodeTick(c: Core, op: Byte)
    requires IsBranch(op) && c.micro == MicroCode.None && c.next == OpCodeStatus.None
    requires c.reading && c.bus.value == op
    ensures Tick(c) == Ok(
      if BranchSkips(op, c.status) then IncPC(c.(reading := false)).(micro := MicroCode.None, next := OpCodeStatus.None)
      else c.(reading := false, micro := MicroCode.None, next := Relative_Jump))
  {
  }

  lemma BranchJumpTick(c: Core)
    requires c.micro == MicroCode.None && c.next == Relative_Jump
    ensures Tick(c) == Ok(BranchJumped(c))
  {
    TickContinues(c);
  }

  /** A branch that is not taken takes two ticks... */
  lemma BranchSkipTicks(c: Core, op: Byte, n: nat)
    requires IsBranch(op) && Idle(c) && c.bus.mem[c.regs.pc] == op && BranchSkips(op, c.status)
    ensures Ticks(c, n + 2) == Ticks(BranchSkipped(c), n)
  {
    var c1 := Fetch(c.(reading := true));
    FetchTick(c);
    BranchDecodeTick(c1, op);
    TicksStep(c1, BranchSkipped(c), n);
    TicksStep(c, c1, n + 1);
  }

  /** ...and one that is taken three. */
  lemma BranchTakeTicks(c: Core, op: Byte, n: nat)
    requires IsBranch(op) && Idle(c) && c.bus.mem[c.regs.pc] == op && !BranchSkips(op, c.status)
    ensures Ticks(c, n + 3) == Ticks(BranchJumped(BranchPending(c)), n)
  {
    var c1 := Fetch(c.(reading := true));
    FetchTick(c);
    BranchDecodeTick(c1, op);
    BranchJumpTick(BranchPending(c));
    TicksStep(BranchPending(c), BranchJumped(BranchPending(c)), n);
    TicksStep(c1, BranchPending(c), n + 1);
    TicksStep(c, c1, n + 2);
  }

  /** Where a branch at `p` with offset byte `o` leaves PC: `p + 2` when it
      is not taken, `p + 2 + o` (o read as a signed byte) when it is, both
      modulo 0x10000. Nothing else changes and the engine is idle again. */
  lemma BranchTargets(c: Core)
    ensures var p: int := c.regs.pc;
            var offset := Signed8(c.bus.mem[Wrap16(p + 1)]);
            var skipped := BranchSkipped(c);
            var taken := BranchJumped(BranchPending(c));
            && skipped.regs == c.regs.(pc := Wrap16(p + 2)) && Idle(skipped)
            && taken.regs == c.regs.(pc := Wrap16(p + 2 + offset)) && Idle(taken)
            && skipped.bus.mem == c.bus.mem && taken.bus.mem == c.bus.mem
            && skipped.status == c.status && taken.status == c.status
  {
    var p: int := c.regs.pc;
    Wrap16Add(p + 1, 1);
    Wrap16Add(p + 2, Signed8(c.bus.mem[Wrap16(p + 1)]));
    assert Wrap16(Wrap16(p + 1) + 1) == Wrap16(p + 2);
  }
}
