/**
 * What `sendSerial` (main.c:372-420) puts on its four lines, as seen by the
 * two receivers: a 12-bit DAC (LTC1451) selected by RA5 and a debug
 * receiver selected by RA4, both sampling the data line RA2 on each rising
 * edge of the clock line RA1 while their active-low chip select is held.
 *
 * A transfer is described by the sequence of rising clock edges it makes,
 * each with the levels of the data line and of both chip selects at that
 * moment. The class that drives the lines is in ports.dfy.
 */
module SerialFrame {
  import opened Types
  import opened GearConfig

  /** One rising edge of the clock: the data and chip-select levels (true = high). */
  datatype Edge = Edge(data: bool, dacCS: bool, debugCS: bool)

  /** How many bits `sendSerial` clocks out on each channel. */
  function Width(chan: SerialChannel): nat {
    match chan
    case AdcChan => 12
    case DebugChan => 16
    case InvalidChan => 0
  }

  /** The low `n` binary digits of `data`, most significant first. */
  function FrameBits(data: nat, n: nat): (bits: seq<bool>)
    ensures |bits| == n
  {
    if n == 0 then [] else [Bit(data, n - 1)] + FrameBits(data, n - 1)
  }

  /** The edges made while sending `bits` with the chip selects at the given levels. */
  function Clocked(bits: seq<bool>, dacCS: bool, debugCS: bool): (edges: seq<Edge>)
    ensures |edges| == |bits|
  {
    if bits == [] then [] else [Edge(bits[0], dacCS, debugCS)] + Clocked(bits[1..], dacCS, debugCS)
  }

  /**
   * The specification of a transfer: the edges `sendSerial(chan, data)`
   * makes. Edge `i` carries data digit `Width(chan) - 1 - i`, and only the
   * addressed receiver's chip select is low.
   */
  function Frame(chan: SerialChannel, data: uint16): (edges: seq<Edge>)
    ensures |edges| == Width(chan)
    ensures forall i :: 0 <= i < |edges| ==>
      edges[i] == Edge(Bit(data, Width(chan) - 1 - i), chan != AdcChan, chan != DebugChan)
  {
    FrameEdges(data, Width(chan), chan != AdcChan, chan != DebugChan);
    match chan
    case AdcChan => Clocked(FrameBits(data, 12), false, true)
    case DebugChan => Clocked(FrameBits(data, 16), true, false)
    case InvalidChan => []
  }

  /** Every edge of a clocked frame, position by position. */
  lemma FrameEdges(data: nat, n: nat, dacCS: bool, debugCS: bool)
    ensures forall i :: 0 <= i < n ==>
      Clocked(FrameBits(data, n), dacCS, debugCS)[i] == Edge(Bit(data, n - 1 - i), dacCS, debugCS)
  {
    forall i | 0 <= i < n
      ensures Clocked(FrameBits(data, n), dacCS, debugCS)[i] == Edge(Bit(data, n - 1 - i), dacCS, debugCS)
    {
      ClockedAt(FrameBits(data, n), dacCS, debugCS, i);
      FrameBitAt(data, n, i);
    }
  }

  /** A DAC or debug frame clocks the frame bits with only that receiver selected. */
  lemma FrameShape(chan: SerialChannel, data: uint16)
    ensures Frame(chan, data) ==
      if chan == InvalidChan then Clocked(FrameBits(data, 0), true, true)
      else Clocked(FrameBits(data, Width(chan)), chan != AdcChan, chan != DebugChan)
  {
  }

  /** Whether a receiver's chip select is asserted (low) at an edge. */
  predicate SelectedAt(e: Edge, chan: SerialChannel) {
    match chan
    case AdcChan => !e.dacCS
    case DebugChan => !e.debugCS
    case InvalidChan => false
  }

  /** The bits a receiver shifts in: the data level at each edge while it is selected. */
  function Received(edges: seq<Edge>, chan: SerialChannel): (bits: seq<bool>)
    ensures |bits| <= |edges|
  {
    if edges == [] then []
    else (if SelectedAt(edges[0], chan) then [edges[0].data] else []) + Received(edges[1..], chan)
  }

  /** A receiver's shift register after shifting in `bits`, the first being the most significant. */
  function Shifted(bits: seq<bool>): (v: nat)
    ensures v < Pow2(|bits|)
  {
    if bits == [] then 0 else (if bits[0] then Pow2(|bits| - 1) else 0) + Shifted(bits[1..])
  }

  /** The number formed by the low `n` binary digits of `a`. */
  function LowDigits(a: nat, n: nat): nat {
    if n == 0 then 0 else 2 * LowDigits(a / 2, n - 1) + a % 2
  }

  // ---------------------------------------------------------------------
  // Properties of a frame

  /** Position `i` of the frame carries digit `n - 1 - i`: the bits go out most significant first. */
  lemma {:induction false} FrameBitAt(data: nat, n: nat, i: nat)
    requires i < n
    ensures FrameBits(data, n)[i] == Bit(data, n - 1 - i)
  {
    if i > 0 {
      FrameBitAt(data, n - 1, i - 1);
    }
  }

  /** The selected receiver shifts in exactly the clocked bits; the other sees none of them. */
  lemma {:induction false} ReceivedClocked(bits: seq<bool>, dacCS: bool, debugCS: bool, chan: SerialChannel)
    ensures Received(Clocked(bits, dacCS, debugCS), chan) ==
      if (chan == AdcChan && !dacCS) || (chan == DebugChan && !debugCS) then bits else []
    decreases |bits|
  {
    if bits != [] {
      ReceivedClocked(bits[1..], dacCS, debugCS, chan);
    }
  }

  lemma {:induction false} LowDigitsTop(a: nat, n: nat)
    requires n >= 1
    ensures LowDigits(a, n) == (if Bit(a, n - 1) then Pow2(n - 1) else 0) + LowDigits(a, n - 1)
  {
    if n > 1 {
      LowDigitsTop(a / 2, n - 1);
    }
  }

  /** Shifting the frame in MSB first rebuilds the low `n` digits of the data. */
  lemma {:induction false} ShiftedFrame(data: nat, n: nat)
    ensures Shifted(FrameBits(data, n)) == LowDigits(data, n)
  {
    if n > 0 {
      assert FrameBits(data, n)[1..] == FrameBits(data, n - 1);
      ShiftedFrame(data, n - 1);
      LowDigitsTop(data, n);
    }
  }

  /** The low `n` digits of `a` are `a` modulo 2^n. */
  lemma {:induction false} LowDigitsMod(a: nat, n: nat)
    ensures LowDigits(a, n) == a % Pow2(n)
  {
    if n > 0 {
      LowDigitsMod(a / 2, n - 1);
      var p := Pow2(n - 1);
      HalveSplit(a, p);
      ModUnique(a, 2 * p, (a / 2) / p, 2 * ((a / 2) % p) + a % 2);
    }
  }

  /** Dividing `a` by `2p` through its halving: quotient `(a/2)/p`, remainder `2((a/2) mod p) + a mod 2`. */
  lemma HalveSplit(a: nat, p: nat)
    requires p >= 1
    ensures a == ((a / 2) / p) * (2 * p) + (2 * ((a / 2) % p) + a % 2)
    ensures 2 * ((a / 2) % p) + a % 2 < 2 * p
  {
    var q, r := (a / 2) / p, (a / 2) % p;
    assert a == 2 * (a / 2) + a % 2;
    assert a / 2 == q * p + r;
    assert q * (2 * p) == 2 * (q * p);
  }

  /**
   * What each receiver gets from one transfer: the DAC shifts in the 12 low
   * bits of the data and the debug receiver sees none of them.
   */
  lemma AdcTransferDelivers(data: uint16, to: SerialChannel)
    ensures |Frame(AdcChan, data)| == 12
    ensures Received(Frame(AdcChan, data), to) == if to == AdcChan then FrameBits(data, 12) else []
    ensures Shifted(Received(Frame(AdcChan, data), AdcChan)) == data % 0x1000
  {
    ReceivedClocked(FrameBits(data, 12), false, true, to);
    ReceivedClocked(FrameBits(data, 12), false, true, AdcChan);
    ShiftedFrame(data, 12);
    LowDigitsMod(data, 12);
    Pow2Of16();
  }

  /** The debug receiver shifts in all 16 bits of the data and the DAC sees none of them. */
  lemma DebugTransferDelivers(data: uint16, to: SerialChannel)
    ensures |Frame(DebugChan, data)| == 16
    ensures Received(Frame(DebugChan, data), to) == if to == DebugChan then FrameBits(data, 16) else []
    ensures Shifted(Received(Frame(DebugChan, data), DebugChan)) == data
  {
    ReceivedClocked(FrameBits(data, 16), true, false, to);
    ReceivedClocked(FrameBits(data, 16), true, false, DebugChan);
    ShiftedFrame(data, 16);
    LowDigitsMod(data, 16);
    Pow2Of16();
    ModUnique(data, 0x1_0000, 0, data);
  }

  /** An InvalidChan transfer clocks nothing. */
  lemma InvalidTransferIsEmpty(data: uint16, to: SerialChannel)
    ensures Frame(InvalidChan, data) == [] && Received(Frame(InvalidChan, data), to) == []
  {
  }

  /** During a DAC or debug transfer exactly one chip select is low at every edge. */
  lemma {:induction false} OneReceiverSelected(chan: SerialChannel, data: uint16, i: nat)
    requires i < |Frame(chan, data)|
    ensures Frame(chan, data)[i].dacCS == (chan != AdcChan)
    ensures Frame(chan, data)[i].debugCS == (chan != DebugChan)
  {
    match chan {
      case AdcChan => ClockedAt(FrameBits(data, 12), false, true, i);
      case DebugChan => ClockedAt(FrameBits(data, 16), true, false, i);
    }
  }

  lemma {:induction false} ClockedAt(bits: seq<bool>, dacCS: bool, debugCS: bool, i: nat)
    requires i < |bits|
    ensures Clocked(bits, dacCS, debugCS)[i] == Edge(bits[i], dacCS, debugCS)
    decreases |bits|
  {
    if i > 0 {
      ClockedAt(bits[1..], dacCS, debugCS, i - 1);
    }
  }
}
