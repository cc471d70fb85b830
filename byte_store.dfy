/** A byte array seen as a value: what an indexed read returns and what an
    indexed store leaves behind, with the IndexOutOfRangeException of a
    .NET array access past its end. */
module ByteStore {
  import opened Bytes
  import opened Wrappers

  /** `array[address]` as an rvalue. */
  function ReadCell(mem: seq<Byte>, address: int): Result<Byte> {
    if 0 <= address < |mem| then Ok(mem[address]) else Err(IndexOutOfRange)
  }

  /** `array[address] = value`. */
  function WriteCell(mem: seq<Byte>, address: int, value: Byte): Result<seq<Byte>> {
    if 0 <= address < |mem| then Ok(mem[address := value]) else Err(IndexOutOfRange)
  }

  /** A store followed by a load at the same address gives the stored byte
      back, every other address reads as before, and the length is kept;
      storing past the end fails exactly when loading there does. */
  lemma WriteThenRead(mem: seq<Byte>, a: int, b: int, v: Byte)
    ensures WriteCell(mem, a, v).Ok? <==> ReadCell(mem, a).Ok?
    ensures WriteCell(mem, a, v).Ok? ==>
      && |WriteCell(mem, a, v).value| == |mem|
      && ReadCell(WriteCell(mem, a, v).value, b) == if b == a then Ok(v) else ReadCell(mem, b)
  {
  }

  /** `size` zero bytes, the contents of a fresh or cleared array. */
  function Zeros(size: nat): (r: seq<Byte>)
    ensures |r| == size && forall a :: 0 <= a < size ==> ReadCell(r, a) == Ok(0)
  {
    seq(size, _ => 0)
  }
}
