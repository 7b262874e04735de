# Gear indicator: a verified model of its control logic

The gear indicator is firmware for a PIC16F676 microcontroller that reports a vehicle's selected gear. Once a millisecond it samples a gear-position voltage with the 10-bit A/D converter and classifies the sample into Neutral, First … Sixth or Unknown using fixed voltage windows. A lock state machine (Locked, Unlocked, LockFail) filters the readings and drives the neutral lamp. Every tenth millisecond the firmware outputs the tracked gear in two forms:

- a 3-bit code on RC0-RC2;
- a voltage, sent to a 12-bit LTC1451 DAC over a bit-banged serial link.

The Dafny modules follow the program's parts:

| module | file | models |
|---|---|---|
| `Types` | types.dfy | the integer widths and the `testbit`/`setbit`/`clrbit` macros of types.h; wrap-around counters; the bit operators on integers |
| `GearConfig` | config.dfy | the enums, the status record, the reload constants and the gear windows of main.h |
| `GearClassifier` | classifier.dfy | `inLimits` and `findGear` |
| `LockStateMachine` | lock_machine.dfy | the per-tick lock switch, both as a function `Step` and as class `Tracker` with an imperative `Tick` |
| `SerialFrame` | serial.dfy | what a `sendSerial` transfer puts on the lines, as clock edges, and what each receiver shifts in |
| `GearEncoding` | gear_encoding.dfy | `sendGear`'s code and DAC tables and its port-bit split |
| `OutputPorts` | ports.dfy | class `Ports`, holding the output pins, with the `sendSerial` mask loop and `sendGear` as methods |
| `ControlLoop` | control_loop.dfy | sample assembly, the `msCnt` divider of the interrupt, and class `Controller` joining the parts |

How the model is built:

- **Counters.** Counters are unbounded integers restricted to their C width; wrap-around is written out in `Dec8`, `Dec16` and `Inc16`.
- **Bit operators.** `&`, `|` and `~` are defined digit by digit on non-negative integers.
- **Undefined status.** `LockStatus.Undefined` carries any status byte other than the three enumerators 0x08-0x0A (`RawStatus`), so the `default:` branch of the lock switch is modelled.
- **Serial output.** A serial transfer is the sequence of rising clock edges it makes. Each edge records the levels of the data line and of both chip selects.

The model follows the code. In the places below, the code does something other than the intent its own comments and constants state:

- **Neutral/default DAC value.** `dacV` is in millivolts (main.c:317 declares one DAC step per mV, and main.c:361 is commented `//mV`). The other gears step by 500 mV. The Neutral/default branch writes `0500`, which C reads as octal, so it sends 320 mV instead of 500 mV. `OutputPorts.Ports.SendGear` sends the 320 (`SendGearDelivers`). `GearEncoding.Dac` is the corrected table (see Findings).
- **Steady new gear.** The comments at main.h:50 and main.c:200-202 say that contradicting readings count `lockCnt` down until the machine unlocks and searches for a new gear. But `currentGear = foundGear` (main.c:236) runs on every tick, so the first reading of a new gear already becomes the reference. Every later reading of that gear is a Locked match that reloads `lockCnt`. A steadily read new gear other than Unknown therefore never unlocks the machine, unless `lockCnt` is already 1, so that its first reading spends the last count (`NewSteadyGearNeverUnlocks`). A steady Unknown is the exception: after the first mismatch it is a Locked match on Unknown, and the guard of main.c:190-191 unlocks the machine once it runs out (`UnknownTimeout`).
- **Gear after LockFail.** main.c:227-230 resets the reported gear to Unknown to "stay safe in 'neutral'". The same final overwrite replaces it at once with the gear just found (`FailTick`, `StepReportsFoundGear`).
- **Unknown blip.** main.c:193 treats an Unknown reading between two readings of the locked gear as a fluke. Because of the overwrite, the blip costs two mismatches. With `lockCnt` at 1 or 2, it unlocks the machine (`UnknownBlipUnlocks`); with 3 or more it is ignored (`UnknownBlipIsIgnored`).
- **Time to lock.** main.h:48-51 give the countdowns as periods of 20, 15 and 15 ms, and say a lock not acquired within the 20 ms period leads to fail-safe mode. But the Unlocked→Locked transition (main.c:211-214) reloads neither `lockCnt` nor `unlockCnt`, and both wrap from 0 to 65535 (main.c:201, 209). A state reachable from power-up has both counts at 0 (`LockedWithSpentLockCount`). From there the machine stays Locked through 65535 changing readings and unlocks on the 65536th. After that, a steady gear keeps it Unlocked for 65535 readings and locks it on the 65536th (`SpentCountsDelayRelock`).

## Model

| member | source | states |
|---|---|---|
| Types.Dec8 | types.h:11 | a `uint8_t` post-decrement yields a value one below, modulo 2^8; it wraps to 255 exactly from 0 |
| Types.Dec16 | types.h:12 | a `uint16_t` decrement yields a value one below, modulo 2^16; it wraps to 65535 exactly from 0 |
| Types.Inc16 | types.h:12 | a `uint16_t` increment yields a value one above, modulo 2^16; it always changes the value |
| Types.TestBit | types.h:22 | `testbit(v, b)` is non-zero iff bit b of v is 1 |
| Types.SetBit | types.h:23 | after `setbit`, bit b is 1 and every other bit is as before |
| Types.ClrBit | types.h:24 | after `clrbit`, bit b is 0 and every other bit is as before |
| Types.Word.Set | types.h:23 | the in-place `setbit` sets bit b and keeps every other bit |
| Types.Word.Clear | types.h:24 | the in-place `clrbit` clears bit b and keeps every other bit |
| Types.SetBitIdempotent | types.h:23 | setting a bit twice equals setting it once |
| Types.ClrBitIdempotent | types.h:24 | clearing a bit twice equals clearing it once |
| Types.SetBitWhenSet | types.h:23 | setting a bit that is already 1 leaves the value unchanged |
| Types.ClrBitWhenClear | types.h:24 | clearing a bit that is already 0 leaves the value unchanged |
| Types.SetClrRoundTrip | types.h:23-24 | clearing undoes setting a clear bit, and setting undoes clearing a set bit |
| GearConfig.GearValue | main.h:13-22 | each gear's enum byte is below 8, and it is 7 exactly for Unknown |
| GearConfig.GearValuesFitThreeBits | main.h:13-22 | gear values are distinct and below 8; every gear other than Unknown is below 7 |
| GearConfig.StatusValue | main.h:24-28 | a status byte is in 0x08..0x0A exactly for the three named states; an undefined status is its own raw byte |
| GearConfig.StatusValuesDistinct | main.h:24-28 | distinct statuses, named or undefined, occupy distinct bytes, and no named status uses a gear's code |
| GearConfig.ChannelValue | main.h:30-34 | channel bytes are at most 2, and 0 is used only by InvalidChan |
| GearConfig.ChannelValuesDistinct | main.h:30-34 | distinct channels occupy distinct bytes |
| GearConfig.GearWindow | main.h:54-79 | every window limit is within 0x3ff, and only Sixth's window is inverted (LL above UL) |
| GearConfig.WindowsDescending | main.h:54-76 | the enabled windows descend strictly: firstLL > secondUL, …, fifthLL > neutralUL |
| GearConfig.WindowsDisjoint | main.h:54-79 | no sample lies in two gear windows |
| GearConfig.SixthDisabled | main.h:78-79 | the Sixth window is inverted and holds no sample |
| GearConfig.WindowShapes | main.h:54-76 | enabled windows lie in 0..0x3ff; First..Fifth span exactly 2·0x28; Neutral is 0..0x28 |
| GearConfig.ReloadsPositive | main.h:48-52 | every reload value is at least 1, and the Unknown guard's reload fits a byte |
| GearClassifier.InLimits | main.c:141-148 | the result is non-zero iff LL ≤ value ≤ UL, and it is 0 or 0xff |
| GearClassifier.FindGear | main.c:297-313 | a gear other than Unknown is returned only if its window holds the sample, and no window tried earlier holds it |
| GearClassifier.FindGearIsFirstMatch | main.c:297-313 | findGear equals a first-match search over the order Neutral, First … Sixth |
| GearClassifier.OrderIrrelevant | main.c:297-313 | since the windows are disjoint, the search order does not change the result |
| GearClassifier.ClassifyTable | main.c:297-313 | the exact sample range classified as each enabled gear |
| GearClassifier.NeverSixth | main.c:310-311 | findGear never returns Sixth |
| GearClassifier.GapsAreUnknown | main.c:312 | samples in the gaps between windows, or above First's window, classify as Unknown |
| LockStateMachine.Initial | main.c:154-164 | the power-up status is Locked on Neutral (its counters are listed in the body) |
| LockStateMachine.LampActive | main.c:237 | the lamp is driven active exactly for the gears with enum byte 0x00 (Neutral) and 0x07 (Unknown) |
| LockStateMachine.LockedStep | main.c:188-206 | a match reloads the three countdowns and a mismatch only decrements `lockCnt`, leaving `lockFailCnt` and `unlockCnt` alone; from Locked it unlocks iff the Unknown guard was 0 on an Unknown match, or `lockCnt` reached 0 on a mismatch; the failure count and the gear are untouched |
| LockStateMachine.UnlockedStep | main.c:207-223 | a match decrements `unlockCnt` and reloads `lockFailCnt`; a mismatch takes the found gear and decrements only `lockFailCnt`; from Unlocked it locks iff a match brought `unlockCnt` to 0, and fails iff a mismatch brought `lockFailCnt` to 0; `lockCnt` is never touched |
| LockStateMachine.FailStep | main.c:224-233 | the fail/default case unlocks, sets the gear to Unknown, counts one more failure (mod 2^16), reloads `unlockCnt` and `lockFailCnt`, and keeps `lockCnt` and the guard |
| LockStateMachine.Step | main.c:187-236 | after a tick the reported gear is the one found; LockFail is entered only from Unlocked; the failure count changes exactly on a LockFail or undefined tick |
| LockStateMachine.Run | main.c:173-238 | after a non-empty sequence of readings the reported gear is the last reading |
| LockStateMachine.Tracker.constructor | main.c:154-164 | the fields start at the initial status, which is consistent |
| LockStateMachine.Tracker.LockedCase | main.c:188-206 | the in-place Locked case leaves the fields at exactly `LockedStep` of the old status |
| LockStateMachine.Tracker.UnlockedCase | main.c:207-223 | the in-place Unlocked case leaves the fields at exactly `UnlockedStep` of the old status |
| LockStateMachine.Tracker.FailCase | main.c:224-233 | the in-place fail/default case leaves the fields at exactly `FailStep` of the old status |
| LockStateMachine.Tracker.Tick | main.c:187-237 | the in-place tick produces exactly `Step` of the old status; it reports the gear found; the lamp is active iff that gear is Neutral or Unknown; consistency is kept, and a LockFail or undefined start restores it |
| LockStateMachine.StepReportsFoundGear | main.c:236-237 | whichever branch runs, the tick ends reporting the found gear, and the lamp follows it |
| LockStateMachine.StepKeepsConsistent | main.c:187-236 | each tick keeps `lockFailCnt` in [0, 20] and zero exactly in LockFail; the status stays named and the guard stays at most 50 while Locked |
| LockStateMachine.LockFailCountdown | main.c:216-221 | `lockFailCnt` falls only on an Unlocked mismatch; LockFail is entered iff that mismatch takes it from 1 to 0 |
| LockStateMachine.RunKeepsConsistent | main.c:173-238 | consistency holds after any sequence of readings |
| LockStateMachine.ReachableIsConsistent | main.c:154-237 | from power-up, `lockFailCnt` stays in [0, 20] and is 0 exactly in LockFail |
| LockStateMachine.UnknownGuard | main.c:190-192 | locked on Unknown, the guard is tested before its post-decrement: the state stays Locked iff the guard was non-zero, and the byte wraps to 255 from 0 |
| LockStateMachine.LockedMatchReloads | main.c:189-198 | every Locked match reloads `lockFailCnt`, `lockCnt` and `unlockCnt`; a match on a real gear also re-arms the guard and stays Locked |
| LockStateMachine.LockedMismatch | main.c:200-205 | a Locked mismatch changes only `lockCnt` (decremented) and the status, which unlocks iff `lockCnt` goes from 1 to 0; from 0 it wraps to 65535 and stays Locked |
| LockStateMachine.UnlockedMatch | main.c:208-215 | an Unlocked match decrements `unlockCnt` and reloads `lockFailCnt`; it locks at 0 and re-arms the guard, leaving `lockCnt` as it was; from 0 it wraps to 65535 and stays Unlocked |
| LockStateMachine.UnlockedMismatch | main.c:216-222 | an Unlocked mismatch decrements only `lockFailCnt`, entering LockFail iff it goes from 1 to 0; `unlockCnt` is untouched |
| LockStateMachine.FailTick | main.c:224-233 | a LockFail or undefined status lasts one tick whatever is read; that tick counts a failure, unlocks, and reloads `unlockCnt` and `lockFailCnt` while keeping `lockCnt` and the guard |
| LockStateMachine.FailuresCountOnlyFailTicks | main.c:226 | `lockFailures` changes iff the tick is a LockFail/default tick, and then by one (mod 2^16) |
| LockStateMachine.RunAppend | main.c:173-238 | running two reading sequences in turn equals running their concatenation |
| LockStateMachine.UnknownCountdown | main.c:190-192 | k more Unknown readings while locked on Unknown leave the state Locked with the guard k lower |
| LockStateMachine.UnknownTimeout | main.c:190-192 | with the guard at n, Unknown stays Locked for n readings and unlocks on reading n+1 with the guard at 255; from the reload of 50 that is 51 readings |
| LockStateMachine.SteadyGearStaysLocked | main.c:189-198 | locked on a real gear, reading it again keeps the state Locked, with every countdown reloaded |
| LockStateMachine.NewSteadyGearNeverUnlocks | main.c:200-236 | locked with `lockCnt` other than 1, a steadily read new gear other than Unknown never unlocks: once `currentGear` is overwritten, only the first reading is a mismatch |
| LockStateMachine.ChangingReadingsUnlock | main.c:200-205 | while Locked, `lockCnt` readings that each change unlock; fewer stay Locked; nothing else changes |
| LockStateMachine.SteadyGearLocks | main.c:208-215 | while Unlocked, `unlockCnt` readings of the current gear lock; fewer stay Unlocked; `lockCnt` is not reloaded (a new gear needs one more reading, since its first is a mismatch) |
| LockStateMachine.UnlockCountIsCumulative | main.c:208-222 | over any run of readings, however long, that stays Unlocked, `unlockCnt` falls by exactly the number of matching readings, which stays below its starting value; mismatches between them do not reset it |
| LockStateMachine.ChangingReadingsFail | main.c:216-221 | while Unlocked, `lockFailCnt` readings that each change end in LockFail; fewer stay Unlocked |
| LockStateMachine.UnknownBlipIsIgnored | main.c:189-205 | with `lockCnt` at 3 or more, one Unknown reading while locked on a gear costs two mismatches, the Unknown and the first reading of the gear after it; once the gear has been read twice, the machine is Locked on it with every countdown reloaded |
| LockStateMachine.UnknownBlipUnlocks | main.c:189-205 | with `lockCnt` at 1 or 2, one Unknown reading and the return to the locked gear leave the machine not Locked, and Unlocked when `lockCnt` was 2 |
| LockStateMachine.LockedWithSpentLockCount | main.c:200-214 | from power-up a reachable Locked state has `lockCnt` and `unlockCnt` at 0, and its next mismatch wraps `lockCnt` to 65535 |
| LockStateMachine.SpentCountsDelayRelock | main.c:200-215 | from such a state, each of the first 65535 changing readings leaves the machine Locked and the 65536th unlocks it with `unlockCnt` at 0; a steady gear then keeps it Unlocked for 65535 readings and locks it on the 65536th |
| SerialFrame.FrameBitAt | main.c:406-412 | position i of an n-bit frame carries data bit n-1-i, so the frame is sent MSB first |
| SerialFrame.Frame | main.c:382-412 | a transfer has 12 (DAC), 16 (debug) or 0 (invalid) edges; edge i carries data bit width-1-i, so the bits go out MSB first, with only the addressed receiver's chip select low |
| SerialFrame.AdcTransferDelivers | main.c:383-387 | an adcChan transfer has 12 edges; the DAC shifts in data bits 11..0, i.e. `data mod 4096`; the debug receiver sees nothing |
| SerialFrame.DebugTransferDelivers | main.c:388-392 | a debugChan transfer has 16 edges; the debug receiver shifts in all of `data`; the DAC sees nothing |
| SerialFrame.InvalidTransferIsEmpty | main.c:393-395 | an InvalidChan transfer clocks no edge, so no receiver sees anything |
| SerialFrame.OneReceiverSelected | main.c:383-392 | at each edge of a transfer exactly the addressed receiver's chip select is low |
| SerialFrame.ReceivedClocked | main.c:406-412 | a receiver shifts in exactly the clocked bits when its chip select is low, and none otherwise |
| SerialFrame.ShiftedFrame | main.c:406-412 | shifting an n-bit frame into a register MSB first yields the low n bits of the data |
| SerialFrame.LowDigitsMod | main.c:384 | the low n bits of a value are the value mod 2^n |
| OutputPorts.Ports.constructor | main.c:414-419 | the lines start in the idle state every transfer ends in: both chip selects high, clock and data low, no edges yet, RC0-RC2 low |
| OutputPorts.Ports.SendSerial | main.c:372-420 | the edges made are exactly `Frame(chan, data)`; on every path both chip selects end high and clock and data end low; RC0-RC2 are untouched |
| OutputPorts.Ports.ClockOut | main.c:406-412 | the mask loop makes the clock edges of the frame's bits, from mask bit k-1 down to 0 |
| OutputPorts.Ports.ClockBit | main.c:407-410 | one loop pass makes one rising edge with the data line at the masked bit |
| OutputPorts.Ports.SendGear | main.c:315-370 | RC0-RC2 carry the gear's code, the DAC transfer carries `DacAsWritten`, i.e. the octal 320 for Neutral/Unknown, and the bus ends idle |
| OutputPorts.SendGearDelivers | main.c:326-368 | the lines decode back to the gear (Unknown shows as Neutral), the DAC shifts in exactly 320 for Neutral/Unknown and 500·(code+1) otherwise, the debug receiver sees nothing, and the corrected table would deliver 500·(code+1) for every gear |
| GearEncoding.Code | main.c:326-362 | the code equals the gear's enum value for Neutral..Sixth and 0 for Unknown |
| GearEncoding.DacAsWritten | main.c:326-362 | the DAC value as written: 320 (octal `0500`) for code 0, 500·(code+1) otherwise, within 320..3500 |
| GearEncoding.Dac | main.c:326-362 | the intended DAC value is 500·(code+1) mV, between 500 and 3500 and below 4096 |
| GearEncoding.OctalDacLiteral | main.c:361 | as written, only the Neutral/default value differs from 500·(code+1): it is 320, which breaks the 500 mV spacing |
| GearEncoding.CodeLines | main.c:364-366 | RC0, RC1 and RC2 carry code bits 0, 1 and 2 |
| GearEncoding.LinesValue | main.c:364-366 | the three lines read back as a value below 8 |
| GearEncoding.LinesRoundTrip | main.c:364-366 | RC0, RC1 and RC2 carry code bits 0, 1 and 2, so reading them back gives the code |
| GearEncoding.GearThroughLines | main.c:326-366 | decoding the lines gives the gear back, with Unknown showing as Neutral |
| GearEncoding.CodeNeverAllOnes | main.c:326-366 | no gear drives the code 0b111 |
| ControlLoop.AssembleSample | main.c:181-183 | `(adresh << 8) \| adresl` has adresh as high byte and adresl as low byte, and stays within 0x3ff when adresh < 4 |
| ControlLoop.AssembleSampleSplits | main.c:181-183 | every 16-bit sample is assembled from its own high and low bytes |
| ControlLoop.PowerUpSampleIsUnknown | main.c:101 | the power-up value 0xff01 of `lastSample` lies outside every window and would classify as Unknown; the firmware never classifies it, since main.c:181-183 overwrites it before `findGear` runs |
| ControlLoop.DividerStep | main.c:289-293 | the update is flagged iff `msCnt` was 9..254, and the new count is below 10 |
| ControlLoop.DividerBelowTen | main.c:289-293 | from a count below 10 the divider counts up by one, turning 9 into 0 with an update |
| ControlLoop.CountAfter | main.c:289-293 | `msCnt` after any number of interrupts from power-up is below 10 |
| ControlLoop.DividerPeriod | main.c:289-293 | after n interrupts `msCnt` is n mod 10, and interrupt n flags an update iff 10 divides n |
| ControlLoop.Controller.constructor | main.c:100-101 | `msCnt` starts at 0 and `lastSample` at 0xff01; the tracker starts at the initial status (main.c:154-164); the ports start idle with no edges clocked |
| ControlLoop.Controller.TimerInterrupt | main.c:289-293 | the in-place `msCnt` update equals `DividerStep`, and the count stays below 10 |
| ControlLoop.Controller.ProcessSample | main.c:181-237 | `lastSample` becomes the assembled sample; the tracker takes one `Step` on its classification and reports it; the lamp follows it |
| ControlLoop.Controller.UpdateOutputs | main.c:240-244 | the tracked gear is sent: its code is on RC0-RC2 and its as-written DAC frame is on the bus, which ends idle |

## Left out

- Peripheral set-up is not modelled: `initTimer`, `initAtoD` and the configuration words are register programming with no logic.
- Pin-direction and analog-select writes are not modelled: the TRIS and ANSEL writes in `sendGear` and `sendSerial`.
- The LED heartbeat and the lamp driver routines are not modelled. The lamp is the boolean `Tick` returns.
- Concurrency is not modelled: the `flag1ms`/`flagUpdateOutputs` handshake and interrupts preempting the main loop. The timer interrupt, the 1 ms work and the output update are separate methods of `Controller`; `TimerInterrupt` returns the update flag instead of setting it.
- The A/D converter, the timer and its reload value are not modelled. The result bytes `adresh`/`adresl` are parameters of `ProcessSample`.
- `gearStatus.ms` is left out of the status record: it is written once and never read.
- The commented-out `sendSerial` calls and `hang()` are not modelled.
- The levels of the port pins before the first transfer are not set by the firmware. `Ports.constructor` assumes the idle levels that every `sendSerial` leaves behind.
- Channel bytes outside the three enumerators are not representable. `sendSerial` sends them down its `default:` branch, which is the InvalidChan path, so they behave like InvalidChan.

## Findings

| source | as written | input that shows it | evidently intended | confidence | as-written member | corrected member |
|---|---|---|---|---|---|---|
| main.c:361 | `dacV = 0500;` is an octal constant (ISO C99 section 6.4.4.1), 320 | gear Neutral (or Unknown): 320 mV is sent instead of 500 mV, off the 500 mV-per-step scale that runs 1000 … 3500 for First … Sixth | `dacV = 500;` | not executed | GearEncoding.OctalDacLiteral | GearEncoding.Dac |
