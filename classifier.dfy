/**
 * The gear classifier of main.c: `inLimits` and `findGear` map one A/D
 * sample to the first gear, in the order Neutral, First ... Sixth, whose
 * inclusive window holds it, and to Unknown when none does.
 */
module GearClassifier {
  import opened Types
  import opened GearConfig

  /** `inLimits(value, UL, LL)`: 0xff inside the window, 0 outside. */
  function InLimits(value: uint16, ul: uint16, ll: uint16): (r: uint8)
    ensures r != 0 <==> ll <= value <= ul
    ensures r == 0 || r == 0xff
  {
    if value <= ul && value >= ll then 0xff else 0x00
  }

  /** `inLimits` applied to the window of gear `g`. */
  predicate InGearWindow(sample: uint16, g: Gear)
    requires g != Unknown
  {
    InLimits(sample, GearWindow(g).ul, GearWindow(g).ll) != 0
  }

  /**
   * `findGear`: the result's window holds the sample, and no window tried
   * before it does; for Unknown, that is no window at all.
   */
  function FindGear(sample: uint16): (g: Gear)
    ensures g != Unknown ==> GearWindow(g).Holds(sample)
    ensures forall h: Gear :: h != Unknown && GearValue(h) < GearValue(g) ==> !GearWindow(h).Holds(sample)
  {
    if InGearWindow(sample, Neutral) then Neutral
    else if InGearWindow(sample, First) then First
    else if InGearWindow(sample, Second) then Second
    else if InGearWindow(sample, Third) then Third
    else if InGearWindow(sample, Fourth) then Fourth
    else if InGearWindow(sample, Fifth) then Fifth
    else if InGearWindow(sample, Sixth) then Sixth
    else Unknown
  }

  /** Reference search: the first gear of `order` whose window holds the sample. */
  function FirstMatch(sample: uint16, order: seq<Gear>): Gear
    requires forall i :: 0 <= i < |order| ==> order[i] != Unknown
  {
    if order == [] then Unknown
    else if GearWindow(order[0]).Holds(sample) then order[0]
    else FirstMatch(sample, order[1..])
  }

  /** findGear is the first-match search over its fixed order. */
  lemma FindGearIsFirstMatch(sample: uint16)
    ensures FindGear(sample) == FirstMatch(sample, ClassifyOrder)
  {
    OrderIrrelevant(sample, ClassifyOrder);
  }

  /**
   * Because the windows are disjoint, the order of the search does not
   * matter: searching any list of gears finds findGear's answer when that
   * gear is in the list, and nothing otherwise.
   */
  lemma {:induction false} OrderIrrelevant(sample: uint16, order: seq<Gear>)
    requires forall i :: 0 <= i < |order| ==> order[i] != Unknown
    ensures FirstMatch(sample, order) == if FindGear(sample) in order then FindGear(sample) else Unknown
  {
    if order != [] {
      var g := FindGear(sample);
      if GearWindow(order[0]).Holds(sample) {
        if g != order[0] && g != Unknown {
          WindowsDisjoint(sample, g, order[0]);
        }
      } else {
        OrderIrrelevant(sample, order[1..]);
        assert order == [order[0]] + order[1..];
      }
    }
  }

  /** The sample ranges of the enabled gears, and Unknown elsewhere. */
  lemma ClassifyTable(sample: uint16)
    ensures FindGear(sample) == Neutral <==> sample <= 0x028
    ensures FindGear(sample) == Fifth <==> 0x090 <= sample <= 0x0e0
    ensures FindGear(sample) == Fourth <==> 0x148 <= sample <= 0x198
    ensures FindGear(sample) == Third <==> 0x200 <= sample <= 0x250
    ensures FindGear(sample) == Second <==> 0x2b9 <= sample <= 0x309
    ensures FindGear(sample) == First <==> 0x371 <= sample <= 0x3c1
  {
  }

  /** findGear never reports the disabled Sixth gear. */
  lemma NeverSixth(sample: uint16)
    ensures FindGear(sample) != Sixth
  {
  }

  /** Samples in the gaps between windows, or above First, classify as Unknown. */
  lemma GapsAreUnknown(sample: uint16)
    requires 0x029 <= sample <= 0x08f || 0x0e1 <= sample <= 0x147 || 0x199 <= sample <= 0x1ff
          || 0x251 <= sample <= 0x2b8 || 0x30a <= sample <= 0x370 || 0x3c2 <= sample
    ensures FindGear(sample) == Unknown
  {
  }
}
