/**
 * What `sendGear` (main.c:315-370) outputs for a gear: a 3-bit code on
 * RC0-RC2 and a DAC setting in millivolts, 500 mV per step from 1000 mV
 * for First to 3500 mV for Sixth.
 *
 * The Neutral/default branch writes the DAC value as `0500`, which C reads
 * as an octal literal, 320. DacAsWritten keeps that value and is the one
 * the output port sends; Dac is the evidently intended table, with 500 mV
 * for Neutral.
 */
module GearEncoding {
  import opened Types
  import opened GearConfig

  /** `temp`: the 3-bit code sendGear puts on the discrete lines. */
  function Code(g: Gear): (c: uint8)
    ensures c < 8
    ensures c == if g == Unknown then 0 else GearValue(g)
  {
    match g
    case First => 0x01
    case Second => 0x02
    case Third => 0x03
    case Fourth => 0x04
    case Fifth => 0x05
    case Sixth => 0x06
    case Neutral => 0x00
    case Unknown => 0x00
  }

  /** `dacV` as the source writes it: `0500` is octal, so Neutral and default get 320. */
  function DacAsWritten(g: Gear): (v: uint16)
    ensures v == if Code(g) == 0 then 320 else 500 * (Code(g) + 1)
    ensures 320 <= v <= 3500 < 0x1000
  {
    match g
    case First => 1000
    case Second => 1500
    case Third => 2000
    case Fourth => 2500
    case Fifth => 3000
    case Sixth => 3500
    case Neutral => 5 * 64  // octal 0500
    case Unknown => 5 * 64
  }

  /** `dacV` as intended: 500 mV per code step, starting at 500 mV. */
  function Dac(g: Gear): (v: uint16)
    ensures v == 500 * (Code(g) + 1)
    ensures 500 <= v <= 3500 < 0x1000
  {
    match g
    case First => 1000
    case Second => 1500
    case Third => 2000
    case Fourth => 2500
    case Fifth => 3000
    case Sixth => 3500
    case Neutral => 500
    case Unknown => 500
  }

  /** Only the Neutral/default value differs from the intended one, and it breaks the 500 mV spacing. */
  lemma OctalDacLiteral(g: Gear)
    ensures DacAsWritten(g) != Dac(g) <==> Code(g) == 0
    ensures Code(g) == 0 ==> DacAsWritten(g) == 320 && DacAsWritten(First) - DacAsWritten(g) != 500
    ensures Code(g) != 0 ==> DacAsWritten(g) == 500 * (Code(g) + 1)
  {
  }

  /** The levels of RC0, RC1 and RC2. */
  datatype Lines = Lines(rc0: bool, rc1: bool, rc2: bool)

  /** `(temp & 0b001) ? portc.0 = 1 : portc.0 = 0` and likewise for bits 1 and 2. */
  function CodeLines(c: uint8): (l: Lines)
    ensures l.rc0 == Bit(c, 0) && l.rc1 == Bit(c, 1) && l.rc2 == Bit(c, 2)
  {
    Lines(TestBit(c, 0) != 0, TestBit(c, 1) != 0, TestBit(c, 2) != 0)
  }

  /** The code a receiver reads back from the three lines. */
  function LinesValue(l: Lines): (v: nat)
    ensures v < 8
  {
    (if l.rc0 then 1 else 0) + (if l.rc1 then 2 else 0) + (if l.rc2 then 4 else 0)
  }

  /** Reading the lines back gives the code: RC0 is bit 0, RC2 bit 2. */
  lemma {:induction false} LinesRoundTrip(c: uint8)
    requires c < 8
    ensures LinesValue(CodeLines(c)) == c
  {
    assert Bit(c, 1) == Bit(c / 2, 0);
    assert Bit(c, 2) == Bit(c / 2, 1) == Bit(c / 4, 0);
  }

  /** The gear a receiver decodes from the lines. */
  function GearOfLines(l: Lines): Gear {
    match LinesValue(l)
    case 0 => Neutral
    case 1 => First
    case 2 => Second
    case 3 => Third
    case 4 => Fourth
    case 5 => Fifth
    case 6 => Sixth
    case _ => Unknown
  }

  /** The lines identify every gear but Unknown, which shows as Neutral. */
  lemma GearThroughLines(g: Gear)
    ensures GearOfLines(CodeLines(Code(g))) == if g == Unknown then Neutral else g
  {
    LinesRoundTrip(Code(g));
  }

  /** No gear drives the all-ones code 0b111. */
  lemma CodeNeverAllOnes(g: Gear)
    ensures CodeLines(Code(g)) != Lines(true, true, true)
  {
    LinesRoundTrip(Code(g));
  }
}
