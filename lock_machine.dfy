/**
 * The lock state machine of main.c's control loop: once per 1 ms tick it
 * takes the gear the classifier found, counts confirming and contradicting
 * readings, moves between Locked, Unlocked and LockFail, and finally
 * overwrites the reported gear with the one found and drives the neutral
 * lamp from it.
 *
 * Step is the tick as a function on the status record; it is what the
 * lemmas about runs of ticks use. Tracker is the `gearStatus` variable of
 * `main()` as an object whose Tick method updates its fields in the order
 * the C code does, and is proved to agree with Step.
 */
module LockStateMachine {
  import opened Types
  import opened GearConfig

  /** The status record as `main()` sets it up before its loop (main.c:154-164). */
  function Initial(): (s: GearStatus)
    ensures s.lockStatus == Locked && s.currentGear == Neutral
  {
    GearStatus(
      lockFailures := 0,
      lockFailCnt := LockFailCntReload,
      lockCnt := LockCntReload,
      unlockCnt := UnlockCntReload,
      unknownGearLockCnt := UnknownGearLockCntReload,
      currentGear := Neutral,
      lockStatus := Locked)
  }

  /** The neutral lamp is driven active exactly for Neutral and Unknown (main.c:237). */
  predicate LampActive(g: Gear)
    ensures LampActive(g) <==> GearValue(g) == 0x00 || GearValue(g) == 0x07
  {
    g == Neutral || g == Unknown
  }

  /** The Locked case of the switch (main.c:188-206). */
  function LockedStep(s: GearStatus, found: Gear): (r: GearStatus)
    ensures r.lockFailures == s.lockFailures && r.currentGear == s.currentGear
    ensures s.currentGear == found ==>
      r.lockFailCnt == LockFailCntReload && r.lockCnt == LockCntReload && r.unlockCnt == UnlockCntReload
    ensures s.currentGear != found ==>
      r.lockFailCnt == s.lockFailCnt && r.unlockCnt == s.unlockCnt && (r.lockCnt + 1) % 0x1_0000 == s.lockCnt
    ensures s.lockStatus == Locked ==>
      (r.lockStatus == Unlocked <==>
         if s.currentGear == found then found == Unknown && s.unknownGearLockCnt == 0 else r.lockCnt == 0)
  {
    if s.currentGear == found then
      var guard :=
        if found == Unknown then
          // the counter is tested before it is post-decremented
          s.(unknownGearLockCnt := Dec8(s.unknownGearLockCnt),
             lockStatus := if s.unknownGearLockCnt != 0 then Locked else Unlocked)
        else
          s.(unknownGearLockCnt := UnknownGearLockCntReload);
      guard.(lockFailCnt := LockFailCntReload, lockCnt := LockCntReload, unlockCnt := UnlockCntReload)
    else
      var c := Dec16(s.lockCnt);
      s.(lockCnt := c, lockStatus := if c == 0 then Unlocked else s.lockStatus)
  }

  /** The Unlocked case of the switch (main.c:207-223). */
  function UnlockedStep(s: GearStatus, found: Gear): (r: GearStatus)
    ensures r.lockFailures == s.lockFailures && r.lockCnt == s.lockCnt
    ensures s.currentGear == found ==>
      r.lockFailCnt == LockFailCntReload && (r.unlockCnt + 1) % 0x1_0000 == s.unlockCnt
    ensures s.currentGear != found ==>
      r.unlockCnt == s.unlockCnt && r.currentGear == found && (r.lockFailCnt + 1) % 0x1_0000 == s.lockFailCnt
    ensures s.lockStatus == Unlocked ==>
      (r.lockStatus == Locked <==> s.currentGear == found && r.unlockCnt == 0)
      && (r.lockStatus == LockFail <==> s.currentGear != found && r.lockFailCnt == 0)
  {
    if s.currentGear == found then
      var u := Dec16(s.unlockCnt);
      if u == 0 then
        s.(unlockCnt := u, lockFailCnt := LockFailCntReload, lockStatus := Locked,
           unknownGearLockCnt := UnknownGearLockCntReload)
      else
        s.(unlockCnt := u, lockFailCnt := LockFailCntReload)
    else
      var f := Dec16(s.lockFailCnt);
      s.(currentGear := found, lockFailCnt := f, lockStatus := if f == 0 then LockFail else s.lockStatus)
  }

  /** The LockFail and `default` case of the switch (main.c:224-233). */
  function FailStep(s: GearStatus): (r: GearStatus)
    ensures r.lockStatus == Unlocked && r.currentGear == Unknown
    ensures r.lockFailures != s.lockFailures && (r.lockFailures + 0x1_0000 - 1) % 0x1_0000 == s.lockFailures
    ensures r.unlockCnt == UnlockCntReload && r.lockFailCnt == LockFailCntReload
    ensures r.lockCnt == s.lockCnt && r.unknownGearLockCnt == s.unknownGearLockCnt
  {
    s.(lockFailures := Inc16(s.lockFailures), lockStatus := Unlocked, currentGear := Unknown,
       unlockCnt := UnlockCntReload, lockFailCnt := LockFailCntReload)
  }

  /** One tick: the switch on the lock status, then the final overwrite of main.c:236. */
  function Step(s: GearStatus, found: Gear): (r: GearStatus)
    ensures r.currentGear == found
    ensures r.lockStatus == LockFail ==> s.lockStatus == Unlocked
    ensures r.lockFailures != s.lockFailures <==> s.lockStatus == LockFail || s.lockStatus.Undefined?
  {
    var t := match s.lockStatus
      case Locked => LockedStep(s, found)
      case Unlocked => UnlockedStep(s, found)
      case LockFail | Undefined(_) => FailStep(s);
    t.(currentGear := found)
  }

  /** The state after a sequence of ticks. */
  function Run(s: GearStatus, found: seq<Gear>): (r: GearStatus)
    ensures found != [] ==> r.currentGear == found[|found| - 1]
    decreases |found|
  {
    if found == [] then s else Run(Step(s, found[0]), found[1..])
  }

  /** `n` ticks on which the classifier reports `g`. */
  function Repeat(g: Gear, n: nat): (r: seq<Gear>)
    ensures |r| == n
    ensures forall i :: 0 <= i < n ==> r[i] == g
  {
    if n == 0 then [] else [g] + Repeat(g, n - 1)
  }

  /** Every reading differs from the one before it, the first from `prev`. */
  predicate ChangesEveryTick(prev: Gear, found: seq<Gear>)
    decreases |found|
  {
    found == [] || (found[0] != prev && ChangesEveryTick(found[0], found[1..]))
  }

  /**
   * The invariant the tick keeps: the status is one of the three named states,
   * the lock-fail countdown is in [0, 20] and is 0 exactly in LockFail, and
   * while Locked the Unknown guard is at most its reload value.
   */
  predicate Consistent(s: GearStatus) {
    && (s.lockStatus == Locked || s.lockStatus == Unlocked || s.lockStatus == LockFail)
    && s.lockFailCnt <= LockFailCntReload
    && (s.lockStatus == LockFail <==> s.lockFailCnt == 0)
    && (s.lockStatus == Locked ==> s.unknownGearLockCnt <= UnknownGearLockCntReload)
  }

  // ---------------------------------------------------------------------
  // The state object and its tick

  /** `gearStatus_t gearStatus` of `main()`, updated in place once per tick. */
  class Tracker {
    var lockFailures: uint16
    var lockFailCnt: uint16
    var lockCnt: uint16
    var unlockCnt: uint16
    var unknownGearLockCnt: uint8
    var currentGear: Gear
    var lockStatus: LockStatus

    /** The field values as a record. */
    function State(): GearStatus
      reads this
    {
      GearStatus(lockFailures, lockFailCnt, lockCnt, unlockCnt, unknownGearLockCnt, currentGear, lockStatus)
    }

    /** The set-up of main.c:154-164. */
    constructor ()
      ensures State() == Initial()
      ensures Consistent(State())
    {
      lockFailCnt := LockFailCntReload;
      lockCnt := LockCntReload;
      unlockCnt := UnlockCntReload;
      lockFailures := 0;
      unknownGearLockCnt := UnknownGearLockCntReload;
      currentGear := Neutral;
      lockStatus := Locked;
    }

    /**
     * The lock switch and lamp decision of one tick (main.c:187-237), given
     * the gear the classifier found; returns whether the neutral lamp is
     * driven active.
     */
    method Tick(foundGear: Gear) returns (lampActive: bool)
      modifies this
      ensures State() == Step(old(State()), foundGear)
      ensures currentGear == foundGear
      ensures lampActive <==> foundGear == Neutral || foundGear == Unknown
      ensures Consistent(old(State())) ==> Consistent(State())
      ensures old(lockStatus) != Locked && old(lockStatus) != Unlocked ==> Consistent(State())
    {
      ghost var before := State();
      match lockStatus {
        case Locked => LockedCase(foundGear);
        case Unlocked => UnlockedCase(foundGear);
        case LockFail | Undefined(_) => FailCase();
      }
      currentGear := foundGear;
      lampActive := currentGear == Neutral || currentGear == Unknown;
      if Consistent(before) || (before.lockStatus != Locked && before.lockStatus != Unlocked) {
        StepKeepsConsistent(before, foundGear);
      }
    }

    /** `case Locked:` of the switch (main.c:188-206). */
    method LockedCase(foundGear: Gear)
      modifies this
      ensures State() == LockedStep(old(State()), foundGear)
    {
      if currentGear == foundGear {
        if foundGear == Unknown {
          var wasSet := unknownGearLockCnt != 0;
          unknownGearLockCnt := Dec8(unknownGearLockCnt);
          if wasSet {
            lockStatus := Locked;
          } else {
            lockStatus := Unlocked;
          }
        } else {
          unknownGearLockCnt := UnknownGearLockCntReload;
        }
        lockFailCnt := LockFailCntReload;
        lockCnt := LockCntReload;
        unlockCnt := UnlockCntReload;
      } else {
        lockCnt := Dec16(lockCnt);
        if lockCnt == 0 {
          lockStatus := Unlocked;
        }
      }
    }

    /** `case Unlocked:` of the switch (main.c:207-223). */
    method UnlockedCase(foundGear: Gear)
      modifies this
      ensures State() == UnlockedStep(old(State()), foundGear)
    {
      if currentGear == foundGear {
        unlockCnt := Dec16(unlockCnt);
        lockFailCnt := LockFailCntReload;
        if unlockCnt == 0 {
          lockStatus := Locked;
          unknownGearLockCnt := UnknownGearLockCntReload;
        }
      } else {
        currentGear := foundGear;
        lockFailCnt := Dec16(lockFailCnt);
        if lockFailCnt == 0 {
          lockStatus := LockFail;
        }
      }
    }

    /** `case LockFail:` and `default:` of the switch (main.c:224-233). */
    method FailCase()
      modifies this
      ensures State() == FailStep(old(State()))
    {
      lockFailures := Inc16(lockFailures);
      lockStatus := Unlocked;
      currentGear := Unknown;
      unlockCnt := UnlockCntReload;
      lockFailCnt := LockFailCntReload;
    }
  }

  // ---------------------------------------------------------------------
  // One tick

  /**
   * Whichever branch ran, the tick ends reporting the gear just found (the
   * Unknown that the LockFail branch writes never survives), and the lamp
   * follows that gear.
   */
  lemma StepReportsFoundGear(s: GearStatus, found: Gear)
    ensures Step(s, found).currentGear == found
    ensures LampActive(Step(s, found).currentGear) <==> found == Neutral || found == Unknown
  {
  }

  /** The tick keeps the invariant, and re-establishes it from any LockFail or undefined status. */
  lemma StepKeepsConsistent(s: GearStatus, found: Gear)
    requires Consistent(s) || (s.lockStatus != Locked && s.lockStatus != Unlocked)
    ensures Consistent(Step(s, found))
  {
  }

  /** The lock-fail countdown only falls on an Unlocked mismatch, and LockFail is entered exactly when it reaches 0. */
  lemma LockFailCountdown(s: GearStatus, found: Gear)
    requires s.lockFailCnt <= LockFailCntReload
    ensures Step(s, found).lockFailCnt < s.lockFailCnt ==> s.lockStatus == Unlocked && s.currentGear != found
    ensures Step(s, found).lockStatus == LockFail <==>
              s.lockStatus == Unlocked && s.currentGear != found && s.lockFailCnt == 1
  {
  }

  /**
   * The Unknown guard: locked on Unknown and reading Unknown again, the state
   * stays Locked while the guard counter was non-zero before its
   * post-decrement and unlocks when it was 0, the byte then wrapping to 255.
   */
  lemma UnknownGuard(s: GearStatus)
    requires s.lockStatus == Locked && s.currentGear == Unknown
    ensures Step(s, Unknown).lockStatus == if s.unknownGearLockCnt != 0 then Locked else Unlocked
    ensures Step(s, Unknown).unknownGearLockCnt == Dec8(s.unknownGearLockCnt)
    ensures s.unknownGearLockCnt == 0 ==> Step(s, Unknown).unknownGearLockCnt == 0xff
  {
  }

  /** Every Locked match reloads the three countdowns; a non-Unknown match also re-arms the Unknown guard. */
  lemma LockedMatchReloads(s: GearStatus, found: Gear)
    requires s.lockStatus == Locked && s.currentGear == found
    ensures var t := Step(s, found);
      t.lockFailCnt == LockFailCntReload && t.lockCnt == LockCntReload && t.unlockCnt == UnlockCntReload
      && (found != Unknown ==> t.unknownGearLockCnt == UnknownGearLockCntReload && t.lockStatus == Locked)
  {
  }

  /**
   * A Locked mismatch only counts `lockCnt` down, unlocking when it reaches 0;
   * from 0 it wraps to 65535 and stays Locked.
   */
  lemma LockedMismatch(s: GearStatus, found: Gear)
    requires s.lockStatus == Locked && s.currentGear != found
    ensures Step(s, found) == s.(lockCnt := Dec16(s.lockCnt), currentGear := found,
                                 lockStatus := if s.lockCnt == 1 then Unlocked else Locked)
    ensures s.lockCnt == 0 ==> Step(s, found).lockCnt == 0xffff && Step(s, found).lockStatus == Locked
  {
  }

  /**
   * An Unlocked match counts `unlockCnt` down and reloads `lockFailCnt`; on
   * reaching 0 it locks and re-arms the Unknown guard, but `lockCnt` is left
   * as it was. From 0 the countdown wraps to 65535 instead of locking.
   */
  lemma UnlockedMatch(s: GearStatus, found: Gear)
    requires s.lockStatus == Unlocked && s.currentGear == found
    ensures var u := Dec16(s.unlockCnt);
      Step(s, found) == s.(unlockCnt := u, lockFailCnt := LockFailCntReload,
                           lockStatus := if u == 0 then Locked else Unlocked,
                           unknownGearLockCnt := if u == 0 then UnknownGearLockCntReload else s.unknownGearLockCnt)
    ensures s.unlockCnt == 0 ==> Step(s, found).unlockCnt == 0xffff && Step(s, found).lockStatus == Unlocked
  {
  }

  /** An Unlocked mismatch counts `lockFailCnt` down and leaves `unlockCnt` alone. */
  lemma UnlockedMismatch(s: GearStatus, found: Gear)
    requires s.lockStatus == Unlocked && s.currentGear != found
    ensures Step(s, found) == s.(currentGear := found, lockFailCnt := Dec16(s.lockFailCnt),
                                 lockStatus := if s.lockFailCnt == 1 then LockFail else Unlocked)
  {
  }

  /**
   * LockFail, or any undefined status, lasts one tick whatever is found: it
   * counts one more failure, unlocks and reloads `unlockCnt` and
   * `lockFailCnt`, leaving `lockCnt` and the Unknown guard as they were.
   */
  lemma FailTick(s: GearStatus, found: Gear, other: Gear)
    requires s.lockStatus != Locked && s.lockStatus != Unlocked
    ensures Step(s, found) == s.(lockFailures := Inc16(s.lockFailures), lockStatus := Unlocked,
                                 unlockCnt := UnlockCntReload, lockFailCnt := LockFailCntReload,
                                 currentGear := found)
    ensures Step(s, found).(currentGear := Unknown) == Step(s, other).(currentGear := Unknown)
  {
  }

  /** `lockFailures` changes only on the LockFail/default tick, and then by one. */
  lemma FailuresCountOnlyFailTicks(s: GearStatus, found: Gear)
    ensures Step(s, found).lockFailures != s.lockFailures <==> s.lockStatus != Locked && s.lockStatus != Unlocked
    ensures Step(s, found).lockFailures != s.lockFailures ==> Step(s, found).lockFailures == Inc16(s.lockFailures)
  {
  }

  // ---------------------------------------------------------------------
  // Runs of ticks

  lemma {:induction false} RunAppend(s: GearStatus, a: seq<Gear>, b: seq<Gear>)
    ensures Run(s, a + b) == Run(Run(s, a), b)
    decreases |a|
  {
    if a != [] {
      assert a + b != [];
      assert (a + b)[0] == a[0];
      assert (a + b)[1..] == a[1..] + b;
      RunAppend(Step(s, a[0]), a[1..], b);
    } else {
      assert a + b == b;
    }
  }

  /** Every state reached from a consistent one by any readings is consistent. */
  lemma {:induction false} RunKeepsConsistent(s: GearStatus, found: seq<Gear>)
    requires Consistent(s)
    ensures Consistent(Run(s, found))
    decreases |found|
  {
    if found != [] {
      StepKeepsConsistent(s, found[0]);
      RunKeepsConsistent(Step(s, found[0]), found[1..]);
    }
  }

  /** From power-up, `lockFailCnt` stays in [0, 20] and is 0 exactly in LockFail. */
  lemma ReachableIsConsistent(found: seq<Gear>)
    ensures var s := Run(Initial(), found);
      s.lockFailCnt <= LockFailCntReload && (s.lockStatus == LockFail <==> s.lockFailCnt == 0)
  {
    RunKeepsConsistent(Initial(), found);
  }

  /**
   * Locked on Unknown with the guard at `k` or more, `k` more Unknown readings
   * leave the state Locked with the guard `k` lower.
   */
  lemma {:induction false} UnknownCountdown(s: GearStatus, k: nat)
    requires s.lockStatus == Locked && s.currentGear == Unknown && k <= s.unknownGearLockCnt
    ensures Run(s, Repeat(Unknown, k)).lockStatus == Locked
    ensures Run(s, Repeat(Unknown, k)).currentGear == Unknown
    ensures Run(s, Repeat(Unknown, k)).unknownGearLockCnt == s.unknownGearLockCnt - k
    decreases k
  {
    if k > 0 {
      var t := Step(s, Unknown);
      assert Repeat(Unknown, k)[1..] == Repeat(Unknown, k - 1);
      UnknownCountdown(t, k - 1);
    }
  }

  lemma {:induction false} RepeatSnoc(g: Gear, n: nat)
    ensures Repeat(g, n + 1) == Repeat(g, n) + [g]
  {
    if n > 0 {
      RepeatSnoc(g, n - 1);
    }
  }

  /**
   * Locked on Unknown with the guard at `n`, the state stays Locked for `n`
   * more Unknown readings and unlocks on the next one, the guard byte
   * wrapping to 255. With the guard freshly reloaded to 50, that is 50
   * readings Locked and the 51st unlocking.
   */
  lemma UnknownTimeout(s: GearStatus)
    requires s.lockStatus == Locked && s.currentGear == Unknown
    ensures forall k :: 0 <= k <= s.unknownGearLockCnt ==> Run(s, Repeat(Unknown, k)).lockStatus == Locked
    ensures Run(s, Repeat(Unknown, s.unknownGearLockCnt + 1)).lockStatus == Unlocked
    ensures Run(s, Repeat(Unknown, s.unknownGearLockCnt + 1)).unknownGearLockCnt == 0xff
  {
    var n := s.unknownGearLockCnt;
    forall k | 0 <= k <= n ensures Run(s, Repeat(Unknown, k)).lockStatus == Locked {
      UnknownCountdown(s, k);
    }
    UnknownCountdown(s, n);
    RepeatSnoc(Unknown, n);
    RunAppend(s, Repeat(Unknown, n), [Unknown]);
    var t := Run(s, Repeat(Unknown, n));
    assert Run(t, [Unknown]) == Step(t, Unknown);
  }

  /**
   * Locked on a gear other than Unknown, reading that same gear keeps the
   * state Locked on it, with every countdown reloaded.
   */
  lemma {:induction false} SteadyGearStaysLocked(s: GearStatus, g: Gear, n: nat)
    requires s.lockStatus == Locked && s.currentGear == g && g != Unknown
    ensures n > 0 ==> Run(s, Repeat(g, n)) == s.(lockFailCnt := LockFailCntReload, lockCnt := LockCntReload,
                                                  unlockCnt := UnlockCntReload,
                                                  unknownGearLockCnt := UnknownGearLockCntReload)
    decreases n
  {
    if n > 1 {
      var t := Step(s, g);
      assert Repeat(g, n)[1..] == Repeat(g, n - 1);
      SteadyGearStaysLocked(t, g, n - 1);
    } else if n == 1 {
      assert Repeat(g, 1)[1..] == [];
    }
  }

  /**
   * Because the reported gear is overwritten on every tick, a new gear that
   * is read steadily never unlocks: only the first reading is a mismatch.
   */
  lemma NewSteadyGearNeverUnlocks(s: GearStatus, g: Gear, n: nat)
    requires s.lockStatus == Locked && g != Unknown && s.lockCnt != 1
    requires n > 0
    ensures Run(s, Repeat(g, n)).lockStatus == Locked
    ensures Run(s, Repeat(g, n)).currentGear == g
  {
    var t := Step(s, g);
    assert Repeat(g, n) == [g] + Repeat(g, n - 1);
    assert Run(s, Repeat(g, n)) == Run(t, Repeat(g, n - 1));
    SteadyGearStaysLocked(t, g, n - 1);
  }

  /**
   * Locked, `lockCnt` readings that each differ from the one before unlock
   * the machine; fewer leave it Locked. Nothing but `lockCnt`, the status and
   * the reported gear changes.
   */
  lemma {:induction false} ChangingReadingsUnlock(s: GearStatus, found: seq<Gear>)
    requires s.lockStatus == Locked && 1 <= |found| <= s.lockCnt
    requires ChangesEveryTick(s.currentGear, found)
    ensures Run(s, found) == s.(lockCnt := s.lockCnt - |found|, currentGear := found[|found| - 1],
                                lockStatus := if |found| == s.lockCnt then Unlocked else Locked)
    decreases |found|
  {
    var t := Step(s, found[0]);
    if |found| > 1 {
      ChangingReadingsUnlock(t, found[1..]);
    }
  }

  /**
   * Unlocked on gear `g`, `unlockCnt` readings of `g` lock onto it; fewer
   * leave it Unlocked. `lockCnt` is not reloaded on the way.
   */
  lemma {:induction false} SteadyGearLocks(s: GearStatus, g: Gear, n: nat)
    requires s.lockStatus == Unlocked && s.currentGear == g && 1 <= n <= s.unlockCnt
    ensures Run(s, Repeat(g, n)) ==
      s.(unlockCnt := s.unlockCnt - n, lockFailCnt := LockFailCntReload,
         lockStatus := if n == s.unlockCnt then Locked else Unlocked,
         unknownGearLockCnt := if n == s.unlockCnt then UnknownGearLockCntReload else s.unknownGearLockCnt)
    decreases n
  {
    var t := Step(s, g);
    assert Repeat(g, n)[1..] == Repeat(g, n - 1);
    if n > 1 {
      SteadyGearLocks(t, g, n - 1);
    }
  }

  /** How many readings equal the one before them, the first compared with `prev`. */
  function Matches(prev: Gear, found: seq<Gear>): (m: nat)
    ensures m <= |found|
    decreases |found|
  {
    if found == [] then 0
    else (if found[0] == prev then 1 else 0) + Matches(found[0], found[1..])
  }

  /**
   * While Unlocked, `unlockCnt` counts the matching readings cumulatively:
   * mismatches between them do not reset it. This holds over any run that
   * stays Unlocked, however long, because each match reloads `lockFailCnt`.
   */
  lemma {:induction false} UnlockCountIsCumulative(s: GearStatus, found: seq<Gear>)
    requires s.lockStatus == Unlocked && 1 <= s.unlockCnt
    requires forall n :: 1 <= n <= |found| ==> Run(s, found[..n]).lockStatus == Unlocked
    ensures Matches(s.currentGear, found) < s.unlockCnt
    ensures Run(s, found).unlockCnt == s.unlockCnt - Matches(s.currentGear, found)
    decreases |found|
  {
    if found != [] {
      var t := Step(s, found[0]);
      assert found[..1][1..] == [];
      assert Run(s, found[..1]) == t;
      forall n | 1 <= n <= |found[1..]|
        ensures Run(t, found[1..][..n]).lockStatus == Unlocked
      {
        assert found[..n + 1][1..] == found[1..][..n];
        assert Run(s, found[..n + 1]).lockStatus == Unlocked;
      }
      UnlockCountIsCumulative(t, found[1..]);
    }
  }

  /**
   * Unlocked, `lockFailCnt` readings that each differ from the one before end
   * in LockFail; the next tick, whatever is read, counts one failure and
   * unlocks again.
   */
  lemma {:induction false} ChangingReadingsFail(s: GearStatus, found: seq<Gear>)
    requires s.lockStatus == Unlocked && 1 <= |found| <= s.lockFailCnt
    requires ChangesEveryTick(s.currentGear, found)
    ensures Run(s, found) == s.(lockFailCnt := s.lockFailCnt - |found|, currentGear := found[|found| - 1],
                                lockStatus := if |found| == s.lockFailCnt then LockFail else Unlocked)
    decreases |found|
  {
    var t := Step(s, found[0]);
    if |found| > 1 {
      ChangingReadingsFail(t, found[1..]);
    }
  }

  /**
   * A single unclassifiable reading while Locked on a gear: two mismatches
   * (to Unknown and back) then a match, which leaves the machine Locked on
   * that gear with every countdown reloaded.
   */
  lemma UnknownBlipIsIgnored(s: GearStatus, g: Gear)
    requires s.lockStatus == Locked && s.currentGear == g && g != Unknown && s.lockCnt >= 3
    ensures Run(s, [Unknown, g, g]) == s.(lockFailCnt := LockFailCntReload, lockCnt := LockCntReload,
                                          unlockCnt := UnlockCntReload,
                                          unknownGearLockCnt := UnknownGearLockCntReload)
  {
    LockedMismatch(s, Unknown);
    var s1 := Step(s, Unknown);
    assert s1 == s.(lockCnt := s.lockCnt - 1, currentGear := Unknown);
    LockedMismatch(s1, g);
    var s2 := Step(s1, g);
    assert s2 == s.(lockCnt := s.lockCnt - 2);
    LockedMatchReloads(s2, g);
    var s3 := Step(s2, g);
    assert s3 == s.(lockFailCnt := LockFailCntReload, lockCnt := LockCntReload,
                    unlockCnt := UnlockCntReload, unknownGearLockCnt := UnknownGearLockCntReload);
    assert [Unknown, g, g][1..] == [g, g];
    assert [g, g][1..] == [g];
    assert [g][1..] == [];
    assert Run(s2, [g]) == Run(s3, []);
    assert Run(s, [Unknown, g, g]) == Run(s2, [g]);
  }

  /**
   * With `lockCnt` at 1 or 2 the same blip does unlock: because the reported
   * gear is overwritten with Unknown, the return to the gear is a second
   * mismatch, though the comment at main.c:193 calls such an Unknown a fluke
   * after which the machine is back on the original gear.
   */
  lemma UnknownBlipUnlocks(s: GearStatus, g: Gear)
    requires s.lockStatus == Locked && s.currentGear == g && g != Unknown && 1 <= s.lockCnt <= 2
    ensures Run(s, [Unknown, g]).lockStatus != Locked
    ensures s.lockCnt == 2 ==> Run(s, [Unknown, g]).lockStatus == Unlocked
  {
    LockedMismatch(s, Unknown);
    var s1 := Step(s, Unknown);
    var s2 := Step(s1, g);
    assert [Unknown, g][1..] == [g];
    assert [g][1..] == [];
    assert Run(s1, [g]) == Run(s2, []);
    assert Run(s, [Unknown, g]) == s2;
  }

  /** `n` readings alternating between `a` and `b`, starting with `a`. */
  function Alternate(a: Gear, b: Gear, n: nat): (r: seq<Gear>)
    ensures |r| == n
    decreases n
  {
    if n == 0 then [] else [a] + Alternate(b, a, n - 1)
  }

  lemma {:induction false} AlternateChanges(prev: Gear, a: Gear, b: Gear, n: nat)
    requires a != b && a != prev
    ensures ChangesEveryTick(prev, Alternate(a, b, n))
    decreases n
  {
    if n > 0 {
      AlternateChanges(a, b, a, n - 1);
    }
  }

  /**
   * From power-up, fifteen alternating readings unlock the machine with
   * `lockCnt` at 0, and fifteen steady readings lock it again without
   * reloading `lockCnt`. Locked with `lockCnt` at 0, the next mismatch wraps
   * it to 65535 and the machine stays Locked.
   */
  lemma LockedWithSpentLockCount()
    ensures var unlock := Alternate(First, Second, 15);
      var t := Run(Initial(), unlock + Repeat(unlock[14], 15));
      && t.lockStatus == Locked && t.lockCnt == 0 && t.unlockCnt == 0
      && Step(t, Unknown).lockStatus == Locked && Step(t, Unknown).lockCnt == 0xffff
  {
    var unlock := Alternate(First, Second, 15);
    AlternateChanges(Neutral, First, Second, 15);
    ChangingReadingsUnlock(Initial(), unlock);
    var u := Run(Initial(), unlock);
    SteadyGearLocks(u, unlock[14], 15);
    RunAppend(Initial(), unlock, Repeat(unlock[14], 15));
    var t := Run(u, Repeat(unlock[14], 15));
    assert unlock[14] != Unknown by {
      AlternateMembers(First, Second, 15, 14);
    }
    LockedMismatch(t, Unknown);
  }

  /**
   * A state like the one above, Locked with both `lockCnt` and `unlockCnt`
   * spent, stays Locked through 65535 changing readings and unlocks on the
   * 65536th; afterwards a steady gear keeps it Unlocked for 65535 readings
   * and locks it on the 65536th: a sustained reading does not lock within
   * any small bound.
   */
  lemma SpentCountsDelayRelock(s: GearStatus, found: seq<Gear>)
    requires s.lockStatus == Locked && s.lockCnt == 0 && s.unlockCnt == 0
    requires |found| == 0x1_0000 && ChangesEveryTick(s.currentGear, found)
    ensures forall n :: 1 <= n <= 0xffff ==> Run(s, found[..n]).lockStatus == Locked
    ensures Run(s, found).lockStatus == Unlocked && Run(s, found).unlockCnt == 0
    ensures forall n :: 1 <= n <= 0xffff ==>
      Run(Run(s, found), Repeat(Run(s, found).currentGear, n)).lockStatus == Unlocked
    ensures Run(Run(s, found), Repeat(Run(s, found).currentGear, 0x1_0000)).lockStatus == Locked
  {
    var s1 := Step(s, found[0]);
    LockedMismatch(s, found[0]);
    ChangingReadingsUnlock(s1, found[1..]);
    forall n | 1 <= n <= 0xffff ensures Run(s, found[..n]).lockStatus == Locked {
      assert found[..n][1..] == found[1..][..n - 1];
      if n > 1 {
        ChangesPrefix(found[0], found[1..], n - 1);
        ChangingReadingsUnlock(s1, found[1..][..n - 1]);
      }
    }
    var u := Run(s, found);
    var g := u.currentGear;
    var u1 := Step(u, g);
    UnlockedMatch(u, g);
    forall n | 1 <= n <= 0x1_0000
      ensures Run(u, Repeat(g, n)).lockStatus == if n == 0x1_0000 then Locked else Unlocked
    {
      assert Repeat(g, n)[1..] == Repeat(g, n - 1);
      if n > 1 {
        SteadyGearLocks(u1, g, n - 1);
      }
    }
  }

  /** Every prefix of a sequence of changing readings is one. */
  lemma {:induction false} ChangesPrefix(prev: Gear, found: seq<Gear>, m: nat)
    requires m <= |found| && ChangesEveryTick(prev, found)
    ensures ChangesEveryTick(prev, found[..m])
    decreases m
  {
    if m > 0 {
      assert found[..m][1..] == found[1..][..m - 1];
      ChangesPrefix(found[0], found[1..], m - 1);
    }
  }

  lemma {:induction false} AlternateMembers(a: Gear, b: Gear, n: nat, i: nat)
    requires i < n
    ensures Alternate(a, b, n)[i] == a || Alternate(a, b, n)[i] == b
    decreases n
  {
    if i > 0 {
      AlternateMembers(b, a, n - 1, i - 1);
    }
  }
}
