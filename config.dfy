/**
 * The enumerations, the per-tick status record and the compile-time
 * constants of the gear indicator (main.h): gear codes, lock states,
 * serial channels, the countdown reload values and the voltage window of
 * each gear in A/D counts.
 */
module GearConfig {
  import opened Types

  /** `gear_t` */
  datatype Gear = Neutral | First | Second | Third | Fourth | Fifth | Sixth | Unknown

  /** The enumerator value of each gear (main.h:13-22). */
  function GearValue(g: Gear): (v: uint8)
    ensures v < 8
    ensures v == 7 <==> g == Unknown
  {
    match g
    case Neutral => 0x00
    case First => 0x01
    case Second => 0x02
    case Third => 0x03
    case Fourth => 0x04
    case Fifth => 0x05
    case Sixth => 0x06
    case Unknown => 0x07
  }

  /**
   * `lockStatus_t`. `Undefined` stands for any bit pattern of the field other
   * than the three enumerators; the lock switch handles it in its `default`
   * branch together with LockFail.
   */
  datatype LockStatus = Locked | Unlocked | LockFail | Undefined(raw: RawStatus)

  /** A status byte that is none of the enumerators 0x08, 0x09 and 0x0A. */
  type RawStatus = x: uint8 | x < 0x08 || 0x0A < x

  /** The byte a status occupies (main.h:24-28); distinct statuses occupy distinct bytes. */
  function StatusValue(s: LockStatus): (v: uint8)
    ensures 0x08 <= v <= 0x0A <==> !s.Undefined?
    ensures s.Undefined? ==> v == s.raw
  {
    match s
    case Locked => 0x08
    case Unlocked => 0x09
    case LockFail => 0x0A
    case Undefined(raw) => raw
  }

  /** `serialChannel_t` (main.h:30-34) */
  datatype SerialChannel = DebugChan | AdcChan | InvalidChan

  function ChannelValue(c: SerialChannel): (v: uint8)
    ensures v <= 2
    ensures v == 0 <==> c == InvalidChan
  {
    match c
    case DebugChan => 0x02
    case AdcChan => 0x01
    case InvalidChan => 0x00
  }

  /**
   * `gearStatus_t` without its unused `ms` member: the state the lock state
   * machine keeps from one tick to the next.
   */
  datatype GearStatus = GearStatus(
    lockFailures: uint16,
    lockFailCnt: uint16,
    lockCnt: uint16,
    unlockCnt: uint16,
    unknownGearLockCnt: uint8,
    currentGear: Gear,
    lockStatus: LockStatus)

  // Countdown reload values, in ticks of 1 ms (main.h:48-52)
  const LockFailCntReload: uint16 := 20
  const LockCntReload: uint16 := 15
  const UnlockCntReload: uint16 := 15
  const UnknownGearLockCntReload: uint8 := 50

  /** An inclusive window of A/D counts: `ll <= sample <= ul`. */
  datatype Window = Window(ul: uint16, ll: uint16) {
    predicate Holds(sample: int) {
      ll <= sample <= ul
    }
  }

  /** The window of each gear the classifier tries (main.h:54-79). */
  function GearWindow(g: Gear): (w: Window)
    requires g != Unknown
    ensures w.ll <= 0x3ff && w.ul <= 0x3ff
    ensures w.ll > w.ul <==> g == Sixth
  {
    match g
    case Neutral => Window(0x0028, 0x0000)
    case First => Window(0x03c1, 0x0371)
    case Second => Window(0x0309, 0x02b9)
    case Third => Window(0x0250, 0x0200)
    case Fourth => Window(0x0198, 0x0148)
    case Fifth => Window(0x00e0, 0x0090)
    case Sixth => Window(0x0000, 0x03ff)
  }

  /** The order in which the classifier tries the windows. */
  const ClassifyOrder: seq<Gear> := [Neutral, First, Second, Third, Fourth, Fifth, Sixth]

  /** The gears whose window can hold a sample: all but Sixth and Unknown. */
  predicate Enabled(g: Gear) {
    g != Unknown && g != Sixth
  }

  // ---------------------------------------------------------------------
  // Facts about the constants

  /** Every gear fits the three discrete output lines, and no two share a code. */
  lemma GearValuesFitThreeBits()
    ensures forall g: Gear :: GearValue(g) < 8
    ensures forall g: Gear, h: Gear :: GearValue(g) == GearValue(h) ==> g == h
    ensures forall g: Gear :: g != Unknown ==> GearValue(g) < 7
  {
  }

  /** Distinct statuses occupy distinct bytes, and the named ones use no gear's code. */
  lemma StatusValuesDistinct()
    ensures forall s: LockStatus, t: LockStatus :: StatusValue(s) == StatusValue(t) ==> s == t
    ensures forall g: Gear, s: LockStatus :: !s.Undefined? ==> GearValue(g) != StatusValue(s)
  {
  }

  /** Enabled windows are strictly descending from First down to Neutral. */
  lemma WindowsDescending()
    ensures GearWindow(First).ll > GearWindow(Second).ul
    ensures GearWindow(Second).ll > GearWindow(Third).ul
    ensures GearWindow(Third).ll > GearWindow(Fourth).ul
    ensures GearWindow(Fourth).ll > GearWindow(Fifth).ul
    ensures GearWindow(Fifth).ll > GearWindow(Neutral).ul
  {
  }

  /** No sample lies in two windows. */
  lemma WindowsDisjoint(sample: int, g: Gear, h: Gear)
    requires g != Unknown && h != Unknown && g != h
    requires GearWindow(g).Holds(sample)
    ensures !GearWindow(h).Holds(sample)
  {
  }

  /** The Sixth window is inverted, so it holds no sample at all. */
  lemma SixthDisabled(sample: int)
    ensures GearWindow(Sixth).ll > GearWindow(Sixth).ul
    ensures !GearWindow(Sixth).Holds(sample)
  {
  }

  /**
   * Every enabled window lies in the 10-bit range of the converter; First to
   * Fifth are each 0x28 counts either side of their centre, Neutral runs from
   * 0 to 0x28.
   */
  lemma WindowShapes()
    ensures forall g: Gear :: Enabled(g) ==> GearWindow(g).ll <= GearWindow(g).ul <= 0x3ff
    ensures forall g: Gear :: Enabled(g) && g != Neutral ==> GearWindow(g).ul - GearWindow(g).ll == 2 * 0x28
    ensures GearWindow(Neutral) == Window(0x28, 0)
  {
  }

  /** Distinct channels occupy distinct bytes. */
  lemma ChannelValuesDistinct()
    ensures forall c: SerialChannel, d: SerialChannel :: ChannelValue(c) == ChannelValue(d) ==> c == d
  {
  }

  /** Every reload value is positive and the Unknown guard's fits its byte. */
  lemma ReloadsPositive()
    ensures 1 <= LockFailCntReload && 1 <= LockCntReload && 1 <= UnlockCntReload
    ensures 1 <= UnknownGearLockCntReload < 0x100
  {
  }
}
