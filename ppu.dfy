/** The PPU as far as it is implemented (PPU.cs): the scanline/dot
    counter of a 341 x 262 frame, the vertical-blank flag it sets and
    clears, and the CPU-facing registers (status read, control, mask and
    the OAM address/data pair). */
module PictureUnit {
  import opened Bytes
  import opened Wrappers

  const DotsPerLine: nat := 341
  const LinesPerFrame: nat := 262
  const DotsPerFrame: nat := 341 * 262

  /** `IBusSlave.MemoryMapSize` and the size of `_oamMemory` (64 sprites
      of 4 bytes). */
  const MemoryMapSize: nat := 8
  const OamSize: nat := 64 * 4

  /** The `PPUStatus` bit masks: sprite overflow, sprite-0 hit, vertical
      blank. */
  const MaskO: Byte := 0x20
  const MaskS: Byte := 0x40
  const MaskV: Byte := 0x80

  /** `_status.V = on`: the BitVector8 setter for bit 7. */
  function WithV(status: Byte, on: bool): (r: Byte)
    ensures Bit7(r) == on && r % 0x80 == status % 0x80
  {
    if on then 0x80 + status % 0x80 else status % 0x80
  }

  /** The four kinds of scanline `OnTick` dispatches on. */
  datatype Phase = Visible | PostRender | VerticalBlank | PreRender

  function PhaseOf(scanline: Word): Phase {
    if scanline <= 239 then Visible
    else if scanline == 240 then PostRender
    else if scanline <= 260 then VerticalBlank
    else PreRender
  }

  /** What the scanline handler does to the status byte:
      `DoVerticalBlankingLine` sets V at dot 1, `DoPreRenderScanline`
      clears it at dot 1, the other two do nothing. */
  function TickStatus(scanline: Word, dot: Word, status: Byte): Byte {
    match PhaseOf(scanline)
    case VerticalBlank => if dot == 1 then WithV(status, true) else status
    case PreRender => if dot == 1 then WithV(status, false) else status
    case _ => status
  }

  /** `(_scanline, _dot)`. */
  datatype Position = Position(scanline: Word, dot: Word) {
    predicate Valid() { scanline < LinesPerFrame && dot < DotsPerLine }

    /** The dot number counted from the start of the frame. */
    function Index(): nat { scanline * DotsPerLine + dot }
  }

  /** The counter update of `OnTick`: `++_dot > 340` wraps the dot and
      advances the scanline, and `++_scanline > 261` wraps the scanline;
      both counters are 16-bit. */
  function Advance(p: Position): Position {
    var dot := Wrap16(p.dot + 1);
    if dot > 340 then
      var line := Wrap16(p.scanline + 1);
      Position(if line > 261 then 0 else line, dot % 341)
    else Position(p.scanline, dot)
  }

  function AdvanceN(p: Position, n: nat): Position {
    if n == 0 then p else Advance(AdvanceN(p, n - 1))
  }

  /** On a valid position a tick moves one dot forward in the frame order,
      wrapping from the last dot of scanline 261 to (0, 0). */
  lemma AdvanceIndex(p: Position)
    requires p.Valid()
    ensures Advance(p).Valid()
    ensures Advance(p).Index() == (p.Index() + 1) % DotsPerFrame
  {
    assert Wrap16(p.dot + 1) == p.dot + 1;
    if p.dot < 340 {
      assert p.Index() + 1 <= 261 * 341 + 340;
    } else if p.scanline < 261 {
      assert Wrap16(p.scanline + 1) == p.scanline + 1;
      assert (p.scanline + 1) * 341 == p.Index() + 1;
    } else {
      assert p.Index() + 1 == DotsPerFrame;
    }
  }

  /** `n` ticks move `n` dots forward modulo one frame. */
  lemma {:induction false} AdvanceNIndex(p: Position, n: nat)
    requires p.Valid()
    ensures AdvanceN(p, n).Valid()
    ensures AdvanceN(p, n).Index() == (p.Index() + n) % DotsPerFrame
  {
    if n > 0 {
      var q := AdvanceN(p, n - 1);
      AdvanceNIndex(p, n - 1);
      AdvanceIndex(q);
      var k := p.Index() + n - 1;
      FrameSucc(k);
      assert AdvanceN(p, n).Index() == (q.Index() + 1) % DotsPerFrame;
      assert q.Index() == k % DotsPerFrame;
    }
  }

  lemma FrameSucc(k: nat)
    ensures (k % DotsPerFrame + 1) % DotsPerFrame == (k + 1) % DotsPerFrame
  {
  }

  /** A valid position is determined by its index. */
  lemma IndexInjective(p: Position, q: Position)
    requires p.Valid() && q.Valid() && p.Index() == q.Index()
    ensures p == q
  {
  }

  /** After 262 x 341 ticks every valid position, (0, 0) among them, comes
      back to itself. */
  lemma FramePeriod(p: Position)
    requires p.Valid()
    ensures AdvanceN(p, DotsPerFrame) == p
  {
    var q := AdvanceN(p, DotsPerFrame);
    AdvanceNIndex(p, DotsPerFrame);
    FullTurn(p.Index());
    IndexInjective(q, p);
  }

  lemma FullTurn(k: nat)
    requires k < DotsPerFrame
    ensures (k + DotsPerFrame) % DotsPerFrame == k
  {
  }

  /** On the valid positions V is set at dot 1 of every scanline 241..260,
      cleared at dot 1 of scanline 261, and otherwise kept; no other status
      bit ever changes. */
  lemma VBlankFlag(p: Position, status: Byte)
    requires p.Valid()
    ensures var r := TickStatus(p.scanline, p.dot, status);
            && r % 0x80 == status % 0x80
            && (241 <= p.scanline <= 260 && p.dot == 1 ==> Bit7(r))
            && (p.scanline == 261 && p.dot == 1 ==> !Bit7(r))
            && (p.dot != 1 || p.scanline <= 240 ==> r == status)
  {
  }

  /** The register file the CPU reaches through the bus. */
  datatype Registers = Registers(status: Byte, controller: Byte, mask: Byte,
                                 oamAddress: Byte, oam: seq<Byte>)

  /** `IBusSlave.Read`: offset 2 returns the status as it was and then
      clears V; every other offset throws NotImplementedException. */
  function ReadRegister(r: Registers, address: Word): Result<(Byte, Registers)> {
    if address == 2 then Ok((r.status, r.(status := WithV(r.status, false))))
    else Err(NotImplemented)
  }

  /** `IBusSlave.Write`: controller, mask, OAM address, or an OAM data
      store that post-increments the 8-bit OAM address. */
  function WriteRegister(r: Registers, address: Word, value: Byte): Result<Registers>
    requires |r.oam| == OamSize
  {
    if address == 0 then Ok(r.(controller := value))
    else if address == 1 then Ok(r.(mask := value))
    else if address == 3 then Ok(r.(oamAddress := value))
    else if address == 4 then Ok(r.(oam := r.oam[r.oamAddress := value], oamAddress := Wrap8(r.oamAddress + 1)))
    else Err(NotImplemented)
  }

  /** Successive OAM data writes. */
  function WriteOamData(r: Registers, values: seq<Byte>): (q: Registers)
    requires |r.oam| == OamSize
    ensures |q.oam| == OamSize
    decreases |values|
  {
    if values == [] then r
    else WriteOamData(WriteRegister(r, 4, values[0]).value, values[1..])
  }

  /** Up to 256 writes to the data port fill consecutive OAM bytes from the
      OAM address on, wrapping at 256, and leave the other bytes alone; a
      full 256-byte run (one OAM DMA) replaces the whole OAM, rotated by
      the starting address. */
  lemma {:induction false} OamDataFill(r: Registers, values: seq<Byte>, i: nat)
    requires |r.oam| == OamSize && |values| <= OamSize && i < OamSize
    ensures var q := WriteOamData(r, values);
            && q.oamAddress == Wrap8(r.oamAddress + |values|)
            && q.oam[i] == (var k := Wrap8(i - r.oamAddress); if k < |values| then values[k] else r.oam[i])
            && (q.status, q.controller, q.mask) == (r.status, r.controller, r.mask)
    decreases |values|
  {
    if values != [] {
      var a := r.oamAddress;
      var r1 := WriteRegister(r, 4, values[0]).value;
      var rest := values[1..];
      OamDataFill(r1, rest, i);
      Wrap8Add(a as int + 1, |rest|);
      OffsetStep(i, a);
      var k := Wrap8(i - a);
      if k == 0 {
        assert r1.oam[i] == values[0];
      } else {
        assert r1.oam[i] == r.oam[i];
        assert k - 1 < |rest| ==> rest[k - 1] == values[k];
      }
    }
  }

  /** Moving the OAM address on by one moves every slot's distance from it
      back by one, modulo 256. */
  lemma OffsetStep(i: nat, a: Byte)
    requires i < OamSize
    ensures Wrap8(i - Wrap8(a + 1)) == if Wrap8(i - a) == 0 then 255 else Wrap8(i - a) - 1
  {
    if a == 255 {
      assert Wrap8(a + 1) == 0;
    } else {
      assert Wrap8(a + 1) == a + 1;
    }
  }

  class Ppu {
    var status: Byte
    var controller: Byte
    var mask: Byte
    var oamAddress: Byte
    const oamMemory: array<Byte>
    var scanline: Word
    var dot: Word

    ghost predicate Valid()
      reads this
    {
      oamMemory.Length == OamSize && Position(scanline, dot).Valid()
    }

    function Regs(): Registers
      reads this, oamMemory
    {
      Registers(status, controller, mask, oamAddress, oamMemory[..])
    }

    /** All fields start at zero; the OAM is a fresh zeroed array. */
    constructor ()
      ensures Valid() && fresh(oamMemory)
      ensures Regs() == Registers(0, 0, 0, 0, seq(OamSize, _ => 0))
      ensures Position(scanline, dot) == Position(0, 0)
    {
      status, controller, mask, oamAddress := 0, 0, 0, 0;
      scanline, dot := 0, 0;
      oamMemory := new Byte[OamSize](_ => 0);
    }

    /** `IClockSink.OnPowerUp`: status and both counters to zero. */
    method OnPowerUp()
      modifies this
      ensures status == 0 && Position(scanline, dot) == Position(0, 0)
      ensures (controller, mask, oamAddress) == old((controller, mask, oamAddress))
    {
      status := 0;
      scanline := 0;
      dot := 0;
    }

    /** `IClockSink.OnReset`: both counters to zero; status is kept. */
    method OnReset()
      modifies this
      ensures Position(scanline, dot) == Position(0, 0)
      ensures (status, controller, mask, oamAddress) == old((status, controller, mask, oamAddress))
    {
      scanline := 0;
      dot := 0;
    }

    /** `IClockSink.OnTick`: the scanline handler, then the counters. */
    method OnTick()
      modifies this
      ensures status == TickStatus(old(scanline), old(dot), old(status))
      ensures Position(scanline, dot) == Advance(old(Position(scanline, dot)))
      ensures (controller, mask, oamAddress) == old((controller, mask, oamAddress))
      ensures old(Valid()) ==> Valid()
    {
      if scanline <= 239 {
        // DoVisibleScanline has an empty body.
      } else if scanline == 240 {
        // DoPostRenderScanline has an empty body.
      } else if scanline <= 260 {
        if dot == 1 {
          status := WithV(status, true);
        }
      } else {
        if dot == 1 {
          status := WithV(status, false);
        }
      }
      StepCounters();
    }

    /** The counter part of `OnTick`. */
    method StepCounters()
      modifies this`scanline, this`dot
      ensures Position(scanline, dot) == Advance(old(Position(scanline, dot)))
      ensures old(Valid()) ==> Valid()
    {
      if old(Valid()) {
        AdvanceIndex(Position(scanline, dot));
      }
      dot := Wrap16(dot + 1);
      if dot > 340 {
        dot := dot % 341;
        scanline := Wrap16(scanline + 1);
        if scanline > 261 {
          scanline := 0;
        }
      }
    }

    method Read(address: Word) returns (r: Result<Byte>)
      requires Valid()
      modifies this
      ensures var spec := ReadRegister(old(Regs()), address);
              && r == (if spec.Ok? then Ok(spec.value.0) else Err(spec.error))
              && Regs() == if spec.Ok? then spec.value.1 else old(Regs())
      ensures Position(scanline, dot) == old(Position(scanline, dot))
    {
      if address == 2 {
        var value := status;
        status := WithV(status, false);
        return Ok(value);
      }
      r := Err(NotImplemented);
    }

    method Write(address: Word, value: Byte) returns (o: Outcome)
      requires Valid()
      modifies this, oamMemory
      ensures var spec := WriteRegister(old(Regs()), address, value);
              && o == (if spec.Ok? then Pass else Fail(spec.error))
              && Regs() == if spec.Ok? then spec.value else old(Regs())
      ensures Position(scanline, dot) == old(Position(scanline, dot))
    {
      if address == 0 {
        controller := value;
      } else if address == 1 {
        mask := value;
      } else if address == 3 {
        oamAddress := value;
      } else if address == 4 {
        oamMemory[oamAddress] := value;
        oamAddress := Wrap8(oamAddress + 1);
      } else {
        return Fail(NotImplemented);
      }
      o := Pass;
    }
  }
}
