/** The 6502 register file, the packed processor-status byte and the
    interrupt vectors shared by both engine revisions (CPU.cs). */
module Processor {
  import opened Bytes

  /** `ProcessorRegisters`: PC is 16 bits, the others 8 bits. */
  datatype Registers = Registers(pc: Word, s: Byte, a: Byte, x: Byte, y: Byte)

  /** Bit masks of the status flags; B is the two-bit field 0x30. */
  const MaskC: bv8 := 0x01
  const MaskZ: bv8 := 0x02
  const MaskI: bv8 := 0x04
  const MaskD: bv8 := 0x08
  const MaskB: bv8 := 0x30
  const MaskV: bv8 := 0x40
  const MaskN: bv8 := 0x80

  /** The flag masks a boolean accessor of `ProcessorStatus` may use. */
  predicate IsFlagMask(m: bv8) {
    m == MaskC || m == MaskZ || m == MaskI || m == MaskD || m == MaskV || m == MaskN
  }

  /** `ProcessorStatus`, a byte read and written through mask-indexed
      boolean accessors and the two-bit B field. */
  datatype Status = Status(bits: bv8) {
    function Value(): Byte { bits as int }

    predicate Flag(m: bv8) { bits & m != 0 }
    predicate C() { Flag(MaskC) }
    predicate Z() { Flag(MaskZ) }
    predicate I() { Flag(MaskI) }
    predicate D() { Flag(MaskD) }
    predicate V() { Flag(MaskV) }
    predicate N() { Flag(MaskN) }

    /** The getter of B: `(value & 0x30) >> 4`. */
    function B(): Byte { ((bits & MaskB) >> 4) as int }

    /** The setter of a boolean accessor with mask `m`. */
    function WithFlag(m: bv8, on: bool): Status {
      if on then Status(bits | m) else Status(bits & !m)
    }

    function WithC(on: bool): Status { WithFlag(MaskC, on) }
    function WithZ(on: bool): Status { WithFlag(MaskZ, on) }
    function WithI(on: bool): Status { WithFlag(MaskI, on) }
    function WithD(on: bool): Status { WithFlag(MaskD, on) }
    function WithV(on: bool): Status { WithFlag(MaskV, on) }
    function WithN(on: bool): Status { WithFlag(MaskN, on) }

    /** The setter of B: `(value & ~0x30) | ((b << 4) & 0x30)`. */
    function WithB(b: Byte): Status {
      Status((bits & !MaskB) | (((b % 4) as bv8) << 4))
    }
  }

  function StatusOf(v: Byte): Status { Status(v as bv8) }

  /** `Value` as a getter and a setter are inverse. */
  lemma StatusValueRoundTrip(v: Byte, s: Status)
    ensures StatusOf(v).Value() == v
    ensures StatusOf(s.Value()) == s
  {
  }

  /** Setting a boolean flag makes it read back as set, and leaves every
      other bit of `Value` unchanged. */
  lemma WithFlagFrame(s: Status, m: bv8, on: bool)
    requires IsFlagMask(m)
    ensures s.WithFlag(m, on).Flag(m) == on
    ensures s.WithFlag(m, on).bits & !m == s.bits & !m
  {
  }

  /** Setting B stores its low two bits in bits 4-5 and leaves the other six
      bits unchanged. */
  lemma WithBFrame(s: Status, b: Byte)
    ensures s.WithB(b).B() == b % 4
    ensures s.WithB(b).bits & !MaskB == s.bits & !MaskB
  {
    var t: bv8 := (b % 4) as bv8;
    assert t < 4;
    assert s.WithB(b).bits == (s.bits & !MaskB) | (t << 4);
  }

  /** The flags occupy distinct bits: C, Z, I, D, B, V, N in that order from
      bit 0, which is the layout pushed on the stack. */
  lemma StatusLayout(s: Status)
    ensures s.Value() == (if s.C() then 1 else 0) + (if s.Z() then 2 else 0)
                       + (if s.I() then 4 else 0) + (if s.D() then 8 else 0)
                       + 16 * s.B() + (if s.V() then 0x40 else 0)
                       + (if s.N() then 0x80 else 0)
  {
  }

  /** `InterruptType`, in declaration order. */
  datatype InterruptType = NMI | Reset | IRQ | BRK

  /** `_interruptVectors[(byte)interrupt]`. */
  function Vector(t: InterruptType): Word {
    match t
    case NMI => 0xFFFA
    case Reset => 0xFFFC
    case IRQ => 0xFFFE
    case BRK => 0xFFFE
  }

  /** The stack lives in page 1: `0x100 + S`. */
  function StackAddress(s: Byte): (r: Word)
    ensures 0x100 <= r <= 0x1FF
  {
    0x100 + s
  }
}
