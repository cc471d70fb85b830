/** The forward-only big-endian cursor over a byte span (IO/SpanReader.cs).
    Every read hands the bytes at the front of `_span` to the unseen
    `ReadBigEndian<T>` helper and then drops them with `Advance`. */
module SpanReading {
  import opened Bytes
  import opened Wrappers

  /** `256 ** n`: one more than the largest unsigned n-byte value. */
  function Pow256(n: nat): (r: nat)
    ensures r >= 1
  {
    if n == 0 then 1 else 256 * Pow256(n - 1)
  }

  /** The unsigned integer the bytes spell, most significant byte first. */
  function BigEndian(s: seq<Byte>): nat {
    if s == [] then 0 else BigEndian(s[..|s| - 1]) * 256 + s[|s| - 1]
  }

  /** The `n` bytes that spell `v` (modulo `256 ** n`) most significant first. */
  function EncodeBigEndian(v: nat, n: nat): (r: seq<Byte>)
    ensures |r| == n
  {
    if n == 0 then [] else EncodeBigEndian(v / 256, n - 1) + [v % 256]
  }

  /** An n-byte string spells a number below `256 ** n`. */
  lemma {:induction false} BigEndianBound(s: seq<Byte>)
    ensures BigEndian(s) < Pow256(|s|)
  {
    if s != [] {
      var init := s[..|s| - 1];
      BigEndianBound(init);
      assert BigEndian(init) + 1 <= Pow256(|init|);
      assert (BigEndian(init) + 1) * 256 <= Pow256(|init|) * 256;
    }
  }

  /** Encoding a value that fits and decoding it gives the value back. */
  lemma {:induction false} DecodeEncode(v: nat, n: nat)
    requires v < Pow256(n)
    ensures BigEndian(EncodeBigEndian(v, n)) == v
  {
    if n > 0 {
      assert v / 256 < Pow256(n - 1);
      DecodeEncode(v / 256, n - 1);
      var e := EncodeBigEndian(v, n);
      assert e[..n - 1] == EncodeBigEndian(v / 256, n - 1);
    }
  }

  /** Decoding a byte string and encoding it at the same width gives the
      bytes back. */
  lemma {:induction false} EncodeDecode(s: seq<Byte>)
    ensures EncodeBigEndian(BigEndian(s), |s|) == s
  {
    if s != [] {
      var init := s[..|s| - 1];
      EncodeDecode(init);
      var v := BigEndian(s);
      assert v / 256 == BigEndian(init) && v % 256 == s[|s| - 1];
      assert s == init + [s[|s| - 1]];
    }
  }

  /** `ReadBigEndian<T>` for an integer type of `width` bytes: the first
      `width` bytes as an unsigned number; a span that is too short makes
      the helper throw. */
  function PeekUnsigned(s: seq<Byte>, width: nat): Result<nat> {
    if |s| < width then Err(ArgumentOutOfRange) else Ok(BigEndian(s[..width]))
  }

  /** The number an unsigned `width`-byte value stands for in two's
      complement (`short`, `int`, `long`). */
  function Signed(v: nat, width: nat): int {
    if v >= Pow256(width) / 2 then v - Pow256(width) else v
  }

  /** A two's-complement reading lies in the signed range of its width and
      differs from the unsigned value by 0 or by `256 ** width`; the
      readings below the half are the unsigned value itself. */
  lemma SignedRange(v: nat, width: nat)
    requires width >= 1 && v < Pow256(width)
    ensures -(Pow256(width) / 2) <= Signed(v, width) < Pow256(width) / 2
    ensures Signed(v, width) == v || Signed(v, width) == v - Pow256(width)
    ensures Signed(v, width) >= 0 <==> v < Pow256(width) / 2
  {
    var h := 128 * Pow256(width - 1);
    assert Pow256(width) == 2 * h;
    assert Pow256(width) / 2 == h;
  }

  /** A one-byte span spells its byte. */
  lemma BigEndian1(s: seq<Byte>)
    requires |s| == 1
    ensures BigEndian(s) == s[0]
  {
    assert s[..0] == [];
  }

  /** Reading a value that was written big-endian at the front of the span
      gives that value. */
  lemma PeekEncoded(v: nat, width: nat, rest: seq<Byte>)
    requires v < Pow256(width)
    ensures PeekUnsigned(EncodeBigEndian(v, width) + rest, width) == Ok(v)
  {
    assert (EncodeBigEndian(v, width) + rest)[..width] == EncodeBigEndian(v, width);
    DecodeEncode(v, width);
  }

  /** The four-byte value is `b0 << 24 | b1 << 16 | b2 << 8 | b3`. */
  lemma BigEndian4(s: seq<Byte>)
    requires |s| == 4
    ensures BigEndian(s) == s[0] as int * 0x100_0000 + s[1] as int * 0x1_0000 + s[2] as int * 0x100 + s[3]
  {
    assert s[..3][..2] == s[..2];
    BigEndian2(s[..2]);
    assert BigEndian(s[..3]) == (s[0] as int * 0x100 + s[1]) * 0x100 + s[2];
  }

  /** The two-byte value is `b0 << 8 | b1`. */
  lemma BigEndian2(s: seq<Byte>)
    requires |s| == 2
    ensures BigEndian(s) == MakeWord(s[1], s[0])
  {
    BigEndian1(s[..1]);
  }

  /** `ReadOnlySpan.Slice(start, length)`, which throws unless the slice
      lies inside the span. */
  function Slice(s: seq<Byte>, start: int, length: int): Result<seq<Byte>> {
    if 0 <= start && 0 <= length && start + length <= |s| then Ok(s[start..start + length])
    else Err(ArgumentOutOfRange)
  }

  class SpanReader {
    /** `_span`: the bytes not read yet. */
    var span: seq<Byte>

    constructor (s: seq<Byte>)
      ensures span == s
    {
      span := s;
    }

    /** `IsCosumed`: no byte is left. */
    predicate IsConsumed()
      reads this
    {
      |span| == 0
    }

    /** `Advance(count)`: `_span = _span.Slice(count)`. */
    method Advance(count: int) returns (o: Outcome)
      modifies this
      ensures 0 <= count <= |old(span)| ==> o == Pass && span == old(span)[count..]
      ensures !(0 <= count <= |old(span)|) ==> o == Fail(ArgumentOutOfRange) && span == old(span)
    {
      if 0 <= count <= |span| {
        span := span[count..];
        o := Pass;
      } else {
        o := Fail(ArgumentOutOfRange);
      }
    }

    /** The read-then-advance pattern shared by the integer reads:
        `ReadBigEndian<T>()` followed by `Advance(sizeof(T))`. */
    method ReadUnsigned(width: nat) returns (r: Result<nat>)
      modifies this
      ensures r == PeekUnsigned(old(span), width)
      ensures r.Ok? ==> r.value < Pow256(width)
      ensures span == if r.Ok? then old(span)[width..] else old(span)
    {
      r := PeekUnsigned(span, width);
      if r.Ok? {
        BigEndianBound(span[..width]);
        var _ := Advance(width);
      }
    }

    /** `PeekAsByte`: the first byte, without advancing. */
    method PeekAsByte() returns (r: Result<Byte>)
      ensures r == if |span| == 0 then Err(ArgumentOutOfRange) else Ok(span[0])
    {
      if |span| == 0 {
        return Err(ArgumentOutOfRange);
      }
      BigEndian1(span[..1]);
      r := Ok(span[0]);
    }

    /** `ReadAsByte`: the first byte, and the span shrinks by one. */
    method ReadAsByte() returns (r: Result<Byte>)
      modifies this
      ensures r == if |old(span)| == 0 then Err(ArgumentOutOfRange) else Ok(old(span)[0])
      ensures span == if r.Ok? then old(span)[1..] else old(span)
    {
      if |span| > 0 {
        BigEndian1(span[..1]);
      }
      var v := ReadUnsigned(1);
      if v.Err? {
        return Err(v.error);
      }
      r := Ok(v.value);
    }

    /** `ReadAsUnsignedShort`: two bytes, high byte first. */
    method ReadAsUnsignedShort() returns (r: Result<Word>)
      modifies this
      ensures r == if |old(span)| < 2 then Err(ArgumentOutOfRange) else Ok(MakeWord(old(span)[1], old(span)[0]))
      ensures span == if r.Ok? then old(span)[2..] else old(span)
    {
      if |span| >= 2 {
        BigEndian2(span[..2]);
      }
      var v := ReadUnsigned(2);
      if v.Err? {
        return Err(v.error);
      }
      r := Ok(v.value);
    }

    /** `ReadAsUnsignedInt`: four bytes, most significant first. */
    method ReadAsUnsignedInt() returns (r: Result<nat>)
      modifies this
      ensures |old(span)| < 4 ==> r == Err(ArgumentOutOfRange) && span == old(span)
      ensures |old(span)| >= 4 ==>
        && r == Ok(old(span)[0] as int * 0x100_0000 + old(span)[1] as int * 0x1_0000 + old(span)[2] as int * 0x100 + old(span)[3])
        && span == old(span)[4..]
    {
      if |span| >= 4 {
        BigEndian4(span[..4]);
      }
      r := ReadUnsigned(4);
    }

    /** `ReadAsUnsignedLong`: eight bytes, most significant first. */
    method ReadAsUnsignedLong() returns (r: Result<nat>)
      modifies this
      ensures r == PeekUnsigned(old(span), 8) && (r.Ok? ==> r.value < Pow256(8))
      ensures span == if r.Ok? then old(span)[8..] else old(span)
    {
      r := ReadUnsigned(8);
    }

    /** `ReadAsShort`, `ReadAsInt` and `ReadAsLong`: the unsigned read of
        2, 4 or 8 bytes taken as two's complement. */
    method ReadSigned(width: nat) returns (r: Result<int>)
      requires width == 2 || width == 4 || width == 8
      modifies this
      ensures var u := PeekUnsigned(old(span), width);
              r == if u.Ok? then Ok(Signed(u.value, width)) else Err(u.error)
      ensures r.Ok? ==> -(Pow256(width) / 2) <= r.value < Pow256(width) / 2
      ensures span == if r.Ok? then old(span)[width..] else old(span)
    {
      var u := ReadUnsigned(width);
      if u.Err? {
        return Err(u.error);
      }
      SignedRange(u.value, width);
      r := Ok(Signed(u.value, width));
    }

    /** `ReadBytes(length)`, which `ReadAsByteArray(length)` copies into a
        new array and `ReadAsSpan(length)` returns as it is. */
    method ReadAsByteArray(length: int) returns (r: Result<seq<Byte>>)
      modifies this
      ensures r == Slice(old(span), 0, length)
      ensures span == if r.Ok? then old(span)[length..] else old(span)
    {
      r := Slice(span, 0, length);
      if r.Ok? {
        var _ := Advance(length);
      }
    }

    /** `ReadAsByteArray()`: everything that is left; the reader is then
        consumed. */
    method ReadRemaining() returns (bytes: seq<Byte>)
      modifies this
      ensures bytes == old(span) && span == []
    {
      bytes := span;
      span := [];
    }

    /** `ReadAsSubReader(length)`: a new reader over exactly the next
        `length` bytes; this reader moves past them. */
    method ReadAsSubReader(length: int) returns (r: Result<SpanReader>)
      modifies this
      ensures Slice(old(span), 0, length).Err? ==> r == Err(ArgumentOutOfRange) && span == old(span)
      ensures Slice(old(span), 0, length).Ok? ==>
        && r.Ok? && fresh(r.value) && r.value.span == old(span)[..length]
        && span == old(span)[length..]
    {
      var s := Slice(span, 0, length);
      if s.Err? {
        return Err(s.error);
      }
      var reader := new SpanReader(s.value);
      var _ := Advance(length);
      r := Ok(reader);
    }
  }
}
