/**
 * The output pins of the gear indicator and the two routines that drive
 * them: `sendSerial` bit-bangs a word to the DAC or the debug receiver on
 * RA1 (clock), RA2 (data), RA4 (debug chip select) and RA5 (DAC chip
 * select); `sendGear` puts the gear code on RC0-RC2 and its voltage on the
 * DAC.
 *
 * Each rising edge of the clock is recorded with the line levels at that
 * moment, which is what a receiver samples.
 */
module OutputPorts {
  import opened Types
  import opened GearConfig
  import opened SerialFrame
  import opened GearEncoding

  class Ports {
    var rc0: bool
    var rc1: bool
    var rc2: bool
    var dacCS: bool
    var debugCS: bool
    var serClk: bool
    var serData: bool
    /** Every rising edge of the clock since power-up. */
    var edges: seq<Edge>

    /** Both receivers deselected, bus idle, nothing clocked yet. */
    constructor ()
      ensures dacCS && debugCS && !serClk && !serData && edges == []
      ensures !rc0 && !rc1 && !rc2
    {
      rc0, rc1, rc2 := false, false, false;
      dacCS, debugCS := true, true;
      serClk, serData := false, false;
      edges := [];
    }

    /** The levels of RC0-RC2. */
    function CodeOut(): Lines
      reads this
    {
      Lines(rc0, rc1, rc2)
    }

    /**
     * `sendSerial(chan, data)` (main.c:372-420): selects the receiver, clocks
     * out 12 (DAC) or 16 (debug) bits most significant first, and leaves both
     * chip selects high and the clock and data lines low on every path.
     */
    method SendSerial(chan: SerialChannel, data: uint16)
      modifies this
      ensures edges == old(edges) + Frame(chan, data)
      ensures dacCS && debugCS && !serClk && !serData
      ensures CodeOut() == old(CodeOut())
    {
      var mask: nat;
      ghost var k: nat;
      match chan {
        case AdcChan =>
          Pow2Of16();
          mask, k := 0x800, 12;
          dacCS := false;
          debugCS := true;
        case DebugChan =>
          Pow2Of16();
          mask, k := 0x8000, 16;
          dacCS := true;
          debugCS := false;
        case InvalidChan =>
          mask, k := 0, 0;
      }
      FrameShape(chan, data);
      if chan != InvalidChan {
        ClockOut(data, mask, k);
      }
      dacCS := true;
      debugCS := true;
      serClk := false;
      serData := false;
    }

    /** One pass of the loop body: clock and data low, data to `bit`, clock high. */
    method ClockBit(bit: bool)
      modifies this
      ensures edges == old(edges) + [Edge(bit, dacCS, debugCS)]
      ensures serClk && serData == bit
      ensures dacCS == old(dacCS) && debugCS == old(debugCS)
      ensures rc0 == old(rc0) && rc1 == old(rc1) && rc2 == old(rc2)
    {
      serData := false;
      serClk := false;
      serData := bit;
      serClk := true;
      edges := edges + [Edge(serData, dacCS, debugCS)];
    }

    /**
     * The `while (mask != 0)` loop of `sendSerial`: for each mask bit from
     * 2^(k-1) down, drops the clock, puts the masked data bit on the data
     * line and raises the clock.
     */
    method ClockOut(data: uint16, mask0: nat, ghost k0: nat)
      requires mask0 == if k0 == 0 then 0 else Pow2(k0 - 1)
      modifies this
      ensures edges == old(edges) + Clocked(FrameBits(data, k0), dacCS, debugCS)
      ensures dacCS == old(dacCS) && debugCS == old(debugCS)
      ensures rc0 == old(rc0) && rc1 == old(rc1) && rc2 == old(rc2)
    {
      var mask := mask0;
      ghost var k := k0;
      ghost var e0, d, g := edges, dacCS, debugCS;
      while mask != 0
        invariant mask == if k == 0 then 0 else Pow2(k - 1)
        invariant edges + Clocked(FrameBits(data, k), d, g) == e0 + Clocked(FrameBits(data, k0), d, g)
        invariant dacCS == d && debugCS == g
        invariant rc0 == old(rc0) && rc1 == old(rc1) && rc2 == old(rc2)
        decreases k
      {
        var bit := BitAnd(data, mask) != 0;
        ghost var before := edges;
        ClockBit(bit);
        ClockOutStep(data, mask, k, d, g);
        ShiftOne(before, Edge(bit, d, g), Clocked(FrameBits(data, k - 1), d, g));
        mask := mask / 2;
        k := k - 1;
      }
    }

    /**
     * `sendGear(gear)` (main.c:315-370): puts the gear's code on RC0-RC2 and
     * sends its voltage to the DAC, including the octal 320 of the
     * Neutral/default branch.
     */
    method SendGear(gear: Gear)
      modifies this
      ensures CodeOut() == CodeLines(Code(gear))
      ensures edges == old(edges) + Frame(AdcChan, DacAsWritten(gear))
      ensures dacCS && debugCS && !serClk && !serData
    {
      var temp := Code(gear);
      var dacV := DacAsWritten(gear);
      rc0 := TestBit(temp, 0) != 0;
      rc1 := TestBit(temp, 1) != 0;
      rc2 := TestBit(temp, 2) != 0;
      SendSerial(AdcChan, dacV);
    }
  }

  lemma ShiftOne<T>(a: seq<T>, x: T, b: seq<T>)
    ensures (a + [x]) + b == a + ([x] + b)
  {
  }

  /** What one pass of the shift loop establishes. */
  lemma ClockOutStep(data: nat, mask: nat, k: nat, dacCS: bool, debugCS: bool)
    requires k >= 1 && mask == Pow2(k - 1)
    ensures (BitAnd(data, mask) != 0) == Bit(data, k - 1)
    ensures Clocked(FrameBits(data, k), dacCS, debugCS) ==
      [Edge(Bit(data, k - 1), dacCS, debugCS)] + Clocked(FrameBits(data, k - 1), dacCS, debugCS)
    ensures mask / 2 == if k - 1 == 0 then 0 else Pow2(k - 2)
  {
    TestBitMeaning(data, k - 1);
    assert FrameBits(data, k) == [Bit(data, k - 1)] + FrameBits(data, k - 1);
    assert FrameBits(data, k)[1..] == FrameBits(data, k - 1);
  }

  /**
   * What `sendGear` makes the receivers see: the lines decode to the gear
   * (Unknown showing as Neutral), the DAC shifts in exactly the value the
   * source writes (320 for Neutral and Unknown, 500 mV per code step
   * otherwise) and the debug receiver sees nothing.
   */
  lemma SendGearDelivers(gear: Gear)
    ensures GearOfLines(CodeLines(Code(gear))) == if gear == Unknown then Neutral else gear
    ensures Shifted(Received(Frame(AdcChan, DacAsWritten(gear)), AdcChan)) ==
      if Code(gear) == 0 then 320 else 500 * (Code(gear) + 1)
    ensures Received(Frame(AdcChan, DacAsWritten(gear)), DebugChan) == []
    ensures Shifted(Received(Frame(AdcChan, Dac(gear)), AdcChan)) == 500 * (Code(gear) + 1)
  {
    GearThroughLines(gear);
    var v := DacAsWritten(gear);
    AdcTransferDelivers(v, AdcChan);
    AdcTransferDelivers(v, DebugChan);
    ModUnique(v, 0x1000, 0, v);
    var w := Dac(gear);
    AdcTransferDelivers(w, AdcChan);
    ModUnique(w, 0x1000, 0, w);
  }
}
