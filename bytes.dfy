/** 8- and 16-bit machine quantities, and the truncating conversions of C#
    (`(byte)`, `(ushort)`, `(sbyte)`) written out explicitly. */
module Bytes {

  type Byte = x: int | 0 <= x < 0x100
  type Word = x: int | 0 <= x < 0x1_0000

  /** `(byte)x`: keep the low 8 bits (two's complement for negative x). */
  function Wrap8(x: int): Byte { x % 0x100 }

  /** `(ushort)x`: keep the low 16 bits. */
  function Wrap16(x: int): Word { x % 0x1_0000 }

  /** `(byte)w`, the low byte of a word. */
  function Lo(w: Word): Byte { w % 0x100 }

  /** `(byte)(w >> 8)`, the high byte of a word. */
  function Hi(w: Word): Byte { w / 0x100 }

  /** `(ushort)(lo | hi << 8)`. */
  function MakeWord(lo: Byte, hi: Byte): Word { hi * 0x100 + lo }

  /** `(sbyte)b`, the byte read as a two's-complement number. */
  function Signed8(b: Byte): int { if b < 0x80 then b else b - 0x100 }

  /** `(v & 0x80) != 0`, the sign bit. */
  predicate Bit7(v: Byte) { v >= 0x80 }

  /** `(v & 0x40) != 0`. */
  predicate Bit6(v: Byte) { (v / 0x40) % 2 == 1 }

  /** `2 ** w`. */
  function Pow2(w: nat): (r: nat)
    ensures r >= 1
  {
    if w == 0 then 1 else 2 * Pow2(w - 1)
  }

  /** Bitwise OR of the low `w` bits of `a` and `b`, least significant bit first. */
  function OrBits(a: nat, b: nat, w: nat): (r: nat)
    ensures r < Pow2(w)
    decreases w
  {
    if w == 0 then 0
    else (if a % 2 == 1 || b % 2 == 1 then 1 else 0) + 2 * OrBits(a / 2, b / 2, w - 1)
  }

  /** Bitwise AND of the low `w` bits of `a` and `b`. */
  function AndBits(a: nat, b: nat, w: nat): (r: nat)
    ensures r < Pow2(w)
    decreases w
  {
    if w == 0 then 0
    else (if a % 2 == 1 && b % 2 == 1 then 1 else 0) + 2 * AndBits(a / 2, b / 2, w - 1)
  }

  /** The width of a byte, kept out of literal position so that the
      bitwise functions are not unrolled eagerly. */
  function ByteWidth(): (r: nat) ensures Pow2(r) == 0x100 { 8 }

  /** `a | b` on bytes. */
  function Or8(a: Byte, b: Byte): Byte { OrBits(a, b, ByteWidth()) }

  /** `a & b` on bytes. */
  function And8(a: Byte, b: Byte): Byte { AndBits(a, b, ByteWidth()) }

  /** OR with zero keeps the other operand. */
  lemma {:induction false} OrBitsZero(b: nat, w: nat)
    requires b < Pow2(w)
    ensures OrBits(0, b, w) == b
  {
    if w > 0 {
      OrBitsZero(b / 2, w - 1);
    }
  }

  /** AND is 0 exactly when no bit position is set in both operands, and it
      keeps only bits of each operand: the result is at most either one. */
  lemma {:induction false} AndBitsBelow(a: nat, b: nat, w: nat)
    ensures AndBits(a, b, w) <= a && AndBits(a, b, w) <= b
  {
    if w > 0 {
      AndBitsBelow(a / 2, b / 2, w - 1);
    }
  }

  /** `(ushort)(w | hi << 8)`: OR a byte into the high half of a word. The
      low byte is untouched and the high byte is OR-ed with `hi`; when the
      high byte is clear (the only case the engine produces) that is `hi`
      itself, which is spelled out so the common case needs no bit
      reasoning. */
  function OrHigh(w: Word, hi: Byte): Word {
    if Hi(w) == 0 then MakeWord(Lo(w), hi) else MakeWord(Lo(w), Or8(Hi(w), hi))
  }

  /** `OrHigh` is the bitwise OR of the high byte in every case. */
  lemma OrHighIsOr(w: Word, hi: Byte)
    ensures OrHigh(w, hi) == MakeWord(Lo(w), Or8(Hi(w), hi))
  {
    if Hi(w) == 0 {
      OrBitsZero(hi, ByteWidth());
    }
  }

  lemma WordBytes(w: Word)
    ensures MakeWord(Lo(w), Hi(w)) == w
  {
  }

  lemma MakeWordParts(lo: Byte, hi: Byte)
    ensures Lo(MakeWord(lo, hi)) == lo && Hi(MakeWord(lo, hi)) == hi
  {
  }

  /** OR-ing a byte into a word whose high byte is clear just places it there. */
  lemma OrHighOfByte(lo: Byte, hi: Byte)
    ensures OrHigh(lo, hi) == MakeWord(lo, hi)
  {
  }

  /** Truncating after every step of a chain of additions is truncating
      once at the end. */
  lemma Wrap8Add(x: int, k: int)
    ensures Wrap8(Wrap8(x) + k) == Wrap8(x + k)
  {
    var q := x / 0x100;
    assert x == q * 0x100 + Wrap8(x);
    assert (Wrap8(x) + k) % 0x100 == (Wrap8(x) + k + q * 0x100) % 0x100;
  }

  lemma Wrap16Add(x: int, k: int)
    ensures Wrap16(Wrap16(x) + k) == Wrap16(x + k)
  {
    var q := x / 0x1_0000;
    assert x == q * 0x1_0000 + Wrap16(x);
    assert (Wrap16(x) + k) % 0x1_0000 == (Wrap16(x) + k + q * 0x1_0000) % 0x1_0000;
  }
}
