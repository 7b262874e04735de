/**
 * The control loop of main.c around the lock state machine: the timer
 * interrupt's 10:1 divider that schedules an output update every tenth
 * millisecond (main.c:289-293), the assembly of the A/D result into a
 * sample (main.c:181-183), and the two halves of the main loop: classify
 * and track every millisecond, then send the tracked gear to the outputs.
 */
module ControlLoop {
  import opened Types
  import opened GearConfig
  import opened GearClassifier
  import opened LockStateMachine
  import opened SerialFrame
  import opened GearEncoding
  import opened OutputPorts

  /**
   * `lastSample = adresh; lastSample <<= 8; lastSample |= adresl;`: the
   * high result byte above the low one. The shift cannot lose bits, since
   * a byte shifted by 8 still fits 16 bits, and the OR adds the low byte.
   */
  function AssembleSample(hi: uint8, lo: uint8): (r: uint16)
    ensures r / 0x100 == hi && r % 0x100 == lo
    ensures hi < 4 ==> r <= 0x3ff
  {
    Pow2Of16();
    ModUnique(hi * 0x100, 0x1_0000, 0, hi * 0x100);
    BitOrLow(hi, lo, 8);
    ModUnique(hi * 0x100 + lo, 0x100, hi, lo);
    BitOr((hi * 0x100) % 0x1_0000, lo)
  }

  /** Any 16-bit sample is assembled from exactly one pair of result bytes. */
  lemma AssembleSampleSplits(sample: uint16)
    ensures AssembleSample(sample / 0x100, sample % 0x100) == sample
  {
    var hi, lo := sample / 0x100, sample % 0x100;
    var r := AssembleSample(hi, lo);
    assert r == r / 0x100 * 0x100 + r % 0x100;
  }

  /**
   * The value `lastSample` holds before the first conversion lies outside
   * every window. The main loop overwrites it with a conversion result
   * before classifying, so it would read as Unknown but is never classified.
   */
  lemma PowerUpSampleIsUnknown()
    ensures FindGear(0xff01) == Unknown
  {
    GapsAreUnknown(0xff01);
  }

  /**
   * The interrupt's divider: `msCnt++` (a byte, so 255 wraps to 0), and at
   * 10 or more it is cleared and an output update is flagged.
   */
  function DividerStep(msCnt: uint8): (r: (uint8, bool))
    ensures r.1 <==> msCnt >= 9 && msCnt != 0xff
    ensures r.0 < 10
  {
    var next := (msCnt + 1) % 0x100;
    if next >= 10 then (0, true) else (next, false)
  }

  /** From a count below 10 the divider counts up by one, wrapping 9 to 0 with an update. */
  lemma DividerBelowTen(c: uint8)
    requires c < 10
    ensures DividerStep(c) == if c == 9 then (0, true) else (c + 1, false)
  {
  }

  /** `msCnt` after `n` timer interrupts from power-up. */
  function CountAfter(n: nat): (c: uint8)
    ensures c < 10
  {
    if n == 0 then 0 else DividerStep(CountAfter(n - 1)).0
  }

  /** After `n` interrupts the counter is `n mod 10`, and interrupt `n` flags an update exactly when 10 divides `n`. */
  lemma {:induction false} DividerPeriod(n: nat)
    ensures CountAfter(n) == n % 10
    ensures n >= 1 ==> (DividerStep(CountAfter(n - 1)).1 <==> n % 10 == 0)
  {
    if n >= 1 {
      DividerPeriod(n - 1);
      var q, m := (n - 1) / 10, (n - 1) % 10;
      DividerBelowTen(m);
      if m == 9 {
        ModUnique(n, 10, q + 1, 0);
      } else {
        ModUnique(n, 10, q, m + 1);
      }
    }
  }

  /** The state of `main()` and of its interrupt handler that the control loop keeps. */
  class Controller {
    var msCnt: uint8
    var lastSample: uint16
    var tracker: Tracker
    var ports: Ports

    /** The divider stays below 10 and the lock state is consistent. */
    predicate Valid()
      reads this, tracker
    {
      msCnt < 10 && Consistent(tracker.State())
    }

    /** Power-up: the initial values of main.c:100-101 and the set-up of main.c:154-164. */
    constructor ()
      ensures Valid()
      ensures msCnt == 0 && lastSample == 0xff01
      ensures tracker.State() == Initial()
      ensures fresh(tracker) && fresh(ports)
      ensures ports.edges == [] && ports.dacCS && ports.debugCS && !ports.serClk && !ports.serData
      ensures !ports.rc0 && !ports.rc1 && !ports.rc2
    {
      msCnt := 0;
      lastSample := 0xff01;
      tracker := new Tracker();
      ports := new Ports();
    }

    /** The timer branch of `interrupt()` (main.c:284-294); returns whether it flagged an output update. */
    method TimerInterrupt() returns (updateOutputs: bool)
      requires Valid()
      modifies this
      ensures Valid()
      ensures (msCnt, updateOutputs) == DividerStep(old(msCnt))
      ensures lastSample == old(lastSample) && tracker == old(tracker) && ports == old(ports)
    {
      updateOutputs := false;
      msCnt := (msCnt + 1) % 0x100;
      if msCnt >= 10 {
        msCnt := 0;
        updateOutputs := true;
      }
    }

    /**
     * The 1 ms branch of the main loop (main.c:181-237): assemble the new
     * sample, classify it and run one tick of the lock state machine;
     * returns whether the neutral lamp is driven active.
     */
    method ProcessSample(adresh: uint8, adresl: uint8) returns (lampActive: bool)
      requires Valid()
      modifies this, tracker
      ensures Valid()
      ensures lastSample == AssembleSample(adresh, adresl)
      ensures tracker.State() == Step(old(tracker.State()), FindGear(lastSample))
      ensures tracker.currentGear == FindGear(lastSample)
      ensures lampActive <==> LampActive(FindGear(lastSample))
      ensures msCnt == old(msCnt) && tracker == old(tracker) && ports == old(ports)
    {
      lastSample := adresh;
      lastSample := (lastSample * 0x100) % 0x1_0000;
      Pow2Of16();
      BitOrBound(lastSample, adresl, 16);
      lastSample := BitOr(lastSample, adresl);
      var foundGear := FindGear(lastSample);
      lampActive := tracker.Tick(foundGear);
    }

    /** The update branch of the main loop (main.c:240-247): send the tracked gear to the outputs. */
    method UpdateOutputs()
      modifies ports
      ensures ports.CodeOut() == CodeLines(Code(tracker.currentGear))
      ensures ports.edges == old(ports.edges) + Frame(AdcChan, DacAsWritten(tracker.currentGear))
      ensures ports.dacCS && ports.debugCS && !ports.serClk && !ports.serData
    {
      var gear := tracker.currentGear;
      ports.SendGear(gear);
    }
  }
}
