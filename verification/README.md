# Verified model of the finishing line

This project models the cell controller of a two-parts-at-once finishing line and
proves what its design promises. It follows the code's own structure:

- **The beat machine** (`Model`, `Schedule`, `Timers`, `Guards`, `Machine`): the pure
  state machine over stations IN, F1, O, F2, OUT, its flash timers, guards, faults and
  operator recovery, with the loops the code runs in place as methods.
- **What it answers** (`StepRules`): when a call faults and what it then emits, when each
  intent goes out and which, what an acknowledgement does, each as an if-and-only-if on
  what was shown.
- **What every run of it keeps** (`Moves`, `Pattern`, `Safety`, `Recovery`, `Runs`,
  `Ledger`), and where recovery stops keeping it (`Relapse`). The invariant is a closed
  form: parts are numbered in arrival order, and at beat b of pair j the station, coats
  and owed flash of each part are a fixed function of its number. Startup fill, an odd
  lone lead and the drain are the same formula with numbers outside the batch.
- **The closed loop** (`FakeLine`, `ClosedLoop`, `Drain`, `Throughput`, `Burst`): the
  machine run against the simulated line; interlocks at every instant, liveness by a
  well-founded measure, and the least a beat and a pair's period can take.
- **Crashes** (`Persistence`, `StoreRules`, `Crashes`): the snapshot format and store, and
  runs in which the controller dies anywhere and comes back from its file.
- **The legacy line** (`Legacy`, `LegacyRules`, `LegacyRuns`, `LegacyCoats`,
  `LegacyLedger`, `LegacyMachine`, `FeedWatch`): the sequencer with skips and drains, its
  flash ledger, and the driver's feed watch.
- **The conveyor firmware** (`Firmware`, `FirmwareMachine`, `FakeClearCore`, `ReadyProtocol`): the tick
  against its executable specification, and the request-id protocol with its client.
- **The train advance** (`Train`, `Physics`, `BeltRun`): stop edges against two-phase
  belts, and belts and firmware run together.
- **Executor and frame server** (`Executor`, `Handshake`, `Modbus`, `Frames`,
  `ModbusMachine`).

Time is real or, in the firmware, whole milliseconds with the 32-bit wrap written out.
Reason texts are constructors; part ids are opaque keys with the empty id kept apart,
because the code reads it as no part.

## Hypotheses

- A batch is declared up front on an empty line at P1, with distinct non-empty ids and
  roles alternating from LEAD, and nothing is declared later. The code does not enforce
  this: `declare_batch` assigns roles by global parity and does not reject an id repeated
  inside one call.
- Recovery confirms the believed map or, mid-advance, a projection the sensors agree
  with, and overrides no beat. `Ledger`, `Executor` and `Handshake` need none of this.
- The legacy line mints ids that are not already in use; the code does not check.
- A positive flash time is assumed only where wetness or the length of a beat is
  concerned.

## What the code does that its documentation does not say

- A refused confirmation of the projection is stored as belief while the moves stay in
  flight. Confirming the same true map again then sends the machine back to the guard of
  the move it has made. The guard holds the lead for one flash under a running F2 fan and
  no longer; then it leaves with one coat (`Relapse.ConfirmedTwiceSkipsCoat2`). With the
  fan off, as after a fault in the first pair, the machine stays at the guard
  (`Relapse.GuardTick`).
- Moves in flight are not persisted. After a crash mid-advance with the train moved, no
  confirmation restores the schedule once the move fed a part in or took one off
  (`Crashes.MidAdvanceCrash`).
- A crash between a tick that asks for a spray and its save re-coats that part, and no
  other crash does (`Crashes.LostTurnRepeats`, `Crashes.CrashesReCoatNothing`).
- `spray_blocked` says the executor must call it; nothing does. It holds all the same
  (`ClosedLoop.RunInterlocks`).
- `may_outfeed` reads the configured coat count, which the machine ignores; the two agree
  exactly while that count is at most 2 (`Runs.DepartureIsFinished`).
- On the legacy line a P1 entry over an empty O leads to coat 2 with no flash
  (`LegacyCoats.LateFollowerIsUnderFlashed`), and pausing the F1 fan before the banking call
  drops the sanding span that the comment says it closes
  (`LegacyMachine.LegacySequencer.Burst`).
- The firmware and its executable specification part on unknown modes and targets and
  when one kind of move is requested while the other is in flight (`Firmware.TwinTick`
  states exactly when), and the firmware's millisecond counter wraps.
- The mover's comment says its final sensor pattern is false before the shift; on a full
  line leaving P4 it is true before as well as after (`Train.PatternTells`).
- The executor can start, after a reset, the one intent its worker had taken before the
  halt (`Executor.OldIntentCanStart`).

## Model

| member | source | states |
|---|---|---|
| `Moves.ScheduleIsWellOrdered` | src/finishing_line/core/schedule.py:134-160 | Every transition vacates before it fills: distinct sources, distinct destinations, and no later source is an earlier destination's station |
| `Timers.AdvanceFlashTimers` | src/finishing_line/core/timers.py:18-49 | The in-place loop over the unordered fan stations gives the same table in either order, and banks a tick exactly for the coated parts standing under a running fan |
| `Timers.AdvanceFlashPointwise` | src/finishing_line/core/timers.py:33-49 | No part but the two at the fan stations changes, and the table keeps its keys |
| `Guards.CheckDeparture` | src/finishing_line/core/guards.py:57-74 | The loop over the mutable occupied set returns the reason of the recursive walk |
| `Moves.WalkRejectsExactly` | src/finishing_line/core/guards.py:52-74 | The walk passes a well-ordered move list if and only if no move enters a sensed station that nothing vacates and no part leaves a fan with its flash unfinished |
| `Moves.InOrderIsSimultaneous` | src/finishing_line/core/machine.py:397-421 | Applying a well-ordered list move by move is the simultaneous shift of all stations, the queue and the part table |
| `Moves.FilterIsSkip` | src/finishing_line/core/machine.py:382-421 | Dropping empty-source moves beforehand and skipping them while moving give the same layout |
| `Machine.ShiftInPlace` | src/finishing_line/core/machine.py:397-421 | The loop over local copies computes the recursive application |
| `Pattern.DeclaredOnSchedule` | src/finishing_line/process/controller.py:153-172 | An up-front batch on an empty line at P1 satisfies the closed-form invariant |
| `Pattern.FreshBatchIsDeclared` | src/finishing_line/process/controller.py:153-172 | For every length a batch declared on an empty line is a starting point of the runs below |
| `Pattern.AdvanceIsShift` | src/finishing_line/core/machine.py:382-421 | The live moves of each beat rearrange stations, queue and table as that beat's row says |
| `Pattern.AdvanceKeepsSchedule` | src/finishing_line/core/machine.py:324-333 | A guarded train advance carries the invariant from one beat to the next, startup and drain included |
| `Pattern.OutfedPartIsFinished` | src/finishing_line/core/machine.py:413-415 | A part removed by an advance is the one at F2 and has two coats and two complete flashes |
| `Safety.PartAtO` | src/finishing_line/core/machine.py:235-260 | The part at O always has the beat's role, lacks at most the beat's coat, and before coat 2 has a complete flash 1 |
| `Safety.RobotWorkOutcome` | src/finishing_line/core/machine.py:228-296 | Robot work stays put or ends with exactly the part at O carrying the beat's coat; it never faults |
| `Safety.DeparturePassed` | src/finishing_line/core/guards.py:65-73 | A passed departure guard means no live move takes an under-flashed part from a fan |
| `Safety.MovingKeeps` | src/finishing_line/core/machine.py:312-349 | Launching, confirming and failing to confirm an advance all keep the invariant |
| `Safety.SetFansKeeps` | src/finishing_line/core/machine.py:352-379 | The beat and pair counters step so that the invariant is the same formula in the new beat |
| `Safety.FaultKeeps` | src/finishing_line/core/machine.py:191-198 | Faulting keeps the invariant, whatever the reason; what a fault emits is StepRules.FaultsExactly |
| `Safety.StepKeeps` | src/finishing_line/core/machine.py:68-96 | Every step keeps the invariant, for arbitrary sensors, completions, faults and dt >= 0 |
| `StepRules.FaultsExactly` | src/finishing_line/core/machine.py:68-96 | A step faults exactly on a reported fault, on eyes against the map outside the move phase, on an arrival not shown or on a part of the wrong role once its work is done; it then emits exactly one halt with the fault's own reason, remembers the phase, and leaves fans, map, queue and beat alone |
| `StepRules.FaultedWaits` | src/finishing_line/core/machine.py:77-83 | While faulted a step banks time, says nothing and keeps the fault it has, also when another is reported |
| `StepRules.UnsettledWaits` | src/finishing_line/core/machine.py:93-96 | With work outstanding and nothing wrong a step banks time and waits |
| `StepRules.WorkAnswers` | src/finishing_line/core/machine.py:228-296 | The robot's batch goes out exactly when a part seen at O lacks the beat's coat behind a closed shutter: sanding before coat 1, gun cleaning before coat 2, the F1 fan off exactly around the spray over a wet part; otherwise nothing does, and the machine goes on only past a part that owes no coat |
| `StepRules.InterlockMeans` | src/finishing_line/core/guards.py:77-132 | What the spray interlock asks: a closed shutter, a part seen and recorded at O and no running fan over a wet part upstream |
| `StepRules.GuardAnswers` | src/finishing_line/core/machine.py:299-309 | At the guard the machine goes on exactly when robot, gun, queue eye, outfeed, ground and flashes allow, and is held with a reason that is true and the first in order otherwise |
| `StepRules.MoveAnswers` | src/finishing_line/core/machine.py:312-349 | The train goes out exactly when the shutter is seen open and all of that still holds, with all live moves and the direction they go; with arrivals confirmed the map moves as one |
| `StepRules.ShutterAnswers` | src/finishing_line/core/machine.py:201-216 | One shutter command to open before the move and one to close behind it |
| `StepRules.FansAnswer` | src/finishing_line/core/machine.py:352-379 | Exactly two fan commands: F1 on only in the third beat and F2 only in the others, each only over an occupied station; the pair counts up with the first beat |
| `StepRules.IntentsWarranted` | src/finishing_line/core/machine.py:68-96 | Over every step, whatever it is shown: each intent that goes out has what it needs seen and recorded, and a halt goes out exactly in a fault |
| `Recovery.ProjectionDiffers` | src/finishing_line/core/machine.py:155-168 | In every mid-advance fault the map before and the map after the move differ, so a confirmation says which happened |
| `Recovery.AcceptedAgreesWithSensors` | src/finishing_line/core/machine.py:182-188 | A resume leaves the fault exactly when the map it adopts agrees with the eyes at F1, O and F2, and then re-enters at one of three phases with the re-home pending |
| `Recovery.BelievedKeeps` | src/finishing_line/core/machine.py:144-188 | Confirming the believed map re-enters on schedule: the guarded move mid-advance, the transition after it, the robot's work before it |
| `Recovery.ProjectionCommutes` | src/finishing_line/core/machine.py:161-164 | Confirming the projection mid-advance yields the very state a confirmed arrival yields |
| `Recovery.ProjectionKeepsIffAccepted` | src/finishing_line/core/machine.py:182-187 | Confirming the projection keeps the schedule if and only if the sensors agree at that moment; a refused one is kept as belief with the moves still in flight |
| `StepRules.ResumeAnswers` | src/finishing_line/core/machine.py:120-188 | An acknowledgement is accepted exactly when the eyes agree with the map confirmed or believed; then one homing and nothing else goes out, nothing is in flight, the beat given counts, and work goes on behind, at or before the move as the map tells; refused, it leaves that map and the fault |
| `Recovery.ConfirmedTwiceRearms` | src/finishing_line/core/machine.py:155-187 | What a refused and repeated confirmation does: at P1 with lead and trail on the line the machine is back at the guard of a move it has made, with the lead, one coat on, the next to leave |
| `Relapse.GuardStopsIffShort` | src/finishing_line/core/guards.py:34-74 | There the departure guard passes if and only if the line is clear and the lead has banked one flash |
| `Relapse.GuardTick` | src/finishing_line/core/machine.py:299-309 | A tick with its work done and the eyes agreeing lets the lead go exactly then, counting the tick itself if F2's fan is on; otherwise, also with the fan off for good, the machine stays at the guard |
| `Relapse.ConfirmedTwiceSkipsCoat2` | src/finishing_line/core/machine.py:155-187 | The violation, reached from every such fault for any flash time and tick: ordinary ticks with F2's fan on take the lead off the line with one coat |
| `Relapse.StalledIsScheduled` | src/finishing_line/core/machine.py:324-331 | Such a fault is on schedule: the second pair at P1, its lead coated behind a finished part whose fan runs, not seen to arrive |
| `Relapse.StalledIsLost` | src/finishing_line/core/machine.py:155-187 | Eyes that lag and then settle lead from that fault to the departure with one coat |
| `Runs.ReactKeeps` | src/finishing_line/process/supervisor.py:69-135 | Ticks on sensed fans, paused ticks and acknowledgements keep the invariant |
| `Runs.ReactShape` | src/finishing_line/core/machine.py:68-188 | An event either leaves map, queue and set of parts alone or performs exactly one scheduled advance |
| `Runs.SprayIsAllowed` | src/finishing_line/core/timers.py:57-59 | Every spray emitted is the part's next coat, and coat 2 meets `may_receive_coat_2`, which the machine never calls |
| `Runs.DepartureIsFinished` | src/finishing_line/core/timers.py:62-64 | Every part that leaves has two coats and two complete flashes; `may_outfeed`, never called, then holds exactly if the configured coats are at most 2 |
| `Runs.NoRoleMismatch` | src/finishing_line/core/machine.py:248-253 | The role check never becomes the latched fault |
| `Runs.RunOnSchedule` | src/finishing_line/core/machine.py:68-188 | The invariant holds at every state of every run |
| `Runs.NeverUnderFlash` | src/finishing_line/core/timers.py:57-64 | On every run of arbitrary sensors, completions, faults, pauses and honest recoveries: no unguarded coat 2, no unfinished part out, no role fault |
| `Runs.OrderIsSuffix` | src/finishing_line/core/machine.py:397-421 | F2, O, F1 and the queue always spell the tail of the declared batch |
| `Runs.EventKeepsOrder` | src/finishing_line/core/machine.py:397-421 | Any event removes at most the head of that order |
| `Runs.NoLossNoOvertaking` | src/finishing_line/core/machine.py:382-421 | What has left, then what is on the line, then the queue is the declared sequence at every state of every run |
| `Ledger.ReactParts` | src/finishing_line/core/machine.py:68-96 | After banking, an event changes a part only by recording a spray it asks for, or by removing it |
| `Ledger.EventBooks` | src/finishing_line/core/timers.py:18-49 | One event adds to each counter exactly the fan-on seconds of that coat and raises the coat number only with a spray |
| `Ledger.ExactLedger` | src/finishing_line/core/timers.py:18-54 | On every run, with any confirmed map and any beat: each flash counter is what it started with plus the fan-on seconds of its coat, and wet means coated with that flash owed |
| `Ledger.SprayRecorded` | src/finishing_line/core/machine.py:259-296 | An emitted spray names a part with fewer coats and is recorded in the same step |
| `Ledger.CoatsSprayedOnce` | src/finishing_line/core/machine.py:255-296 | Of two sprays of one part the later has the higher coat number, whatever recoveries lie between |
| `FakeLine.LineSimulator.Submit` | src/finishing_line/sim/runner.py:61-62 | Appends in order, changes nothing else |
| `FakeLine.LineSimulator.Begin` | src/finishing_line/sim/runner.py:81-91 | Gun, robot and shutter effects of starting an intent |
| `FakeLine.LineSimulator.Finish` | src/finishing_line/sim/runner.py:122-139 | Effects of completing an intent, the train's stations moved one by one |
| `FakeLine.LineSimulator.Elapse` | src/finishing_line/sim/runner.py:93-120 | The loop over the time budget leaves the line and completes the ids that the recursive description gives |
| `FakeLine.StartShows` | src/finishing_line/sim/runner.py:81-91 | Starting an intent shows the gun live for a spray, the robot in the envelope for any work, the shutter travelling, and touches no fan and no part |
| `FakeLine.FinishShows` | src/finishing_line/sim/runner.py:122-139 | Completing it shows the gun off, the robot clear only behind a retreat, shutter and fan as commanded and the train's parts moved |
| `ClosedLoop.LineAlwaysShows` | src/finishing_line/sim/runner.py:81-139 | At every instant, whatever is queued: gun live exactly in a spray, robot not clear during work, shutter travelling while it is sent |
| `ClosedLoop.InstantFits` | src/finishing_line/sim/runner.py:93-139 | At every instant inside a tick the line plays the part the machine's phase expects |
| `ClosedLoop.AdvanceDrops` | src/finishing_line/sim/runner.py:93-120 | Completions are a prefix of the outstanding work, in order, and what is left is the rest |
| `ClosedLoop.CarriedIsShifted` | src/finishing_line/sim/runner.py:134-139 | The line's own occupancy after a train agrees with the machine's map |
| `ClosedLoop.TickKeeps` | src/finishing_line/sim/runner.py:186-203 | One turn of the loop keeps machine and line in step, without a fault |
| `ClosedLoop.AlwaysInSync` | src/finishing_line/sim/runner.py:164-211 | Machine and line are in step at every turn of every closed-loop run |
| `ClosedLoop.InterlocksHold` | src/finishing_line/core/guards.py:117-132 | Under a live spray the part sprayed is the one at O and `spray_blocked`, never called, passes; under a moving train the shutter is open, the gun off and the robot clear, at every instant of the tick |
| `ClosedLoop.RunInterlocks` | src/finishing_line/core/guards.py:77-132 | The same at every instant of every closed-loop run |
| `Drain.HeldIsFlash` | src/finishing_line/core/machine.py:299-309 | Over an idle line only an unfinished flash can hold the train |
| `Drain.TickFalls` | src/finishing_line/sim/runner.py:186-203 | Every turn with a part on record lowers a well-founded measure of beats, phase, work, clock and flash owed |
| `Drain.Drains` | src/finishing_line/sim/runner.py:186-203 | From any state the loop can be in, a fixed number of turns empties the line however the run is recorded |
| `Drain.ClosedLoopDrains` | src/finishing_line/sim/runner.py:164-211 | For every batch, flash time, dt > 0 and durations the loop outfeeds all parts in declared order in finitely many turns and never faults |
| `Drain.TargetIsReached` | src/finishing_line/sim/runner.py:164-211 | The simulator can stop short of a target within the batch only by running out of time |
| `Drain.Turn` | src/finishing_line/sim/runner.py:186-196 | The loop body over the line object is one turn of the closed loop |
| `Drain.CountGone` | src/finishing_line/sim/runner.py:198-200 | The set difference counts exactly the parts the order lost |
| `Drain.Run` | src/finishing_line/sim/runner.py:164-211 | The simulator's loop stops at the first turn that meets the target or exhausts the time, reports the parts out, and never faults |
| `Throughput.ToGoWears` | src/finishing_line/sim/runner.py:186-203 | One turn brings the next landing nearer by at most the tick, and not at all while the beat's fan is off |
| `Throughput.LandingIsFresh` | src/finishing_line/core/machine.py:397-421 | A landing puts the part just coated under the beat's fan with its whole flash still to come |
| `Throughput.BeatTakes` | src/finishing_line/config/loader.py:39-47 | A loaded beat, landing to landing, takes at least flash plus transfer plus every second its fan was off; what P3's fan-off seconds come to is Burst.P3OffAtLeastBurst |
| `Throughput.BeatsTake` | src/finishing_line/config/loader.py:39-50 | n loaded beats in a row take at least n flashes, n transfers and all the time their fans were off; with the burst that is Burst.PeriodTakes |
| `Burst.PausesIffLong` | src/finishing_line/core/machine.py:269-286 | At P3 the F1 fan pauses around the burst if and only if the flash is longer than one tick: the upstream part arrives with its whole flash to come and banks one tick before the batch is planned |
| `Burst.BurstWears` | src/finishing_line/sim/runner.py:93-120 | The line gets through what is left of the bracketed burst no faster than time passes, whatever the ticks |
| `Burst.TickStretches` | src/finishing_line/sim/runner.py:186-203 | Every turn of a loaded P3 beat takes off the fan-off time still to come at most the fan-off time it has |
| `Burst.P3OffAtLeastBurst` | src/finishing_line/config/loader.py:39-47 | With a flash longer than a tick: from the landing that ends a P2 beat to the next one, the fan over the trail is off for at least the burst and one tick more |
| `Burst.P3TakesBurst` | src/finishing_line/sim/runner.py:64-79 | Paused for or not, a loaded P3 beat lasts at least the burst and the transfer, so a flash that fits one tick does not shorten it |
| `Burst.PeriodTakes` | src/finishing_line/config/loader.py:39-47 | For any positive flash time four loaded beats in a row, one pair's period, take at least the predicted period, three nominal beats and one stretched by the burst, up to one tick; with a flash longer than a tick they take it and one tick more |
| `Persistence.ReadsBack` | src/finishing_line/process/persistence.py:50-110 | Everything written is readable and reads back without pending ids, moves in flight and spray flag, each record under its key |
| `Persistence.RoundTrip` | src/finishing_line/process/persistence.py:50-110 | The round trip is exact but for those if and only if every record is filed under its own id |
| `Persistence.MaybeSavedAgrees` | src/finishing_line/process/persistence.py:161-182 | After every call, saved or not, the file agrees with the live state on the structural key |
| `Persistence.StateStore.Save` | src/finishing_line/process/persistence.py:153-159 | The file, the time and the key are replaced together |
| `Persistence.StateStore.MaybeSave` | src/finishing_line/process/persistence.py:161-169 | Saves exactly on a structural change or after the interval, and leaves the file agreeing with the live state |
| `Persistence.StateStore.Load` | src/finishing_line/process/persistence.py:185-205 | Returns what the file reads as; an unreadable one is set aside and the line starts fresh |
| `StoreRules.SavesExactly` | src/finishing_line/process/persistence.py:161-169 | A call writes the whole state exactly when nothing was written yet, the file no longer shows the structure, or the interval is over; else it touches nothing |
| `StoreRules.FileIsStructural` | src/finishing_line/process/persistence.py:161-182 | After every call the file shows beat, phase, fault, map, queue, coats, wetness and declared count of the state it was called with |
| `StoreRules.FileIsRecent` | src/finishing_line/process/persistence.py:136-169 | After any calls the file holds the whole state of one of them, less than an interval old and with the same structure since |
| `StoreRules.RestartAnswers` | src/finishing_line/process/persistence.py:113-134 | A restart with anything on the line stands faulted, with the stored fault or that of having restarted in the stored phase; an empty line starts clean |
| `StoreRules.ReadsExactly` | src/finishing_line/process/persistence.py:79-110 | A file is read exactly when its version is the one known and every name in it is |
| `Crashes.RestoredKeeps` | src/finishing_line/process/persistence.py:113-134 | Restoring puts the line back, latched, where its schedule left it |
| `Crashes.CrashAnswers` | src/finishing_line/process/persistence.py:113-134 | A crash keeps the file and nothing else; the line comes back latched exactly if the file shows anything on it |
| `Crashes.ActKeeps` | src/finishing_line/process/controller.py:56-110 | Live events, saves and crashes in any order keep the line and the file on schedule |
| `Crashes.FirstStartTidy` | src/finishing_line/process/controller.py:153-172 | A declared batch with nothing saved yet meets the hypotheses of the statements on stored timers and re-coating |
| `Crashes.CrashesNeverUnderFlash` | src/finishing_line/process/persistence.py:113-134 | With crashes at arbitrary points every spray still meets its guard and every part out is finished, by timers read back from disk |
| `Crashes.FileIsBehind` | src/finishing_line/process/persistence.py:161-182 | At every point of a run no stored timer exceeds the live one, and after each save the structural keys agree |
| `Crashes.CrashesReCoatNothing` | src/finishing_line/process/persistence.py:113-169 | No restart re-coats a part, as long as no crash separates a tick that asks for a spray from its save; ticks that ask for none may be lost |
| `Crashes.CrashBeforeSaveReCoats` | src/finishing_line/process/controller.py:86-110 | Why that proviso: lose a spraying tick, and from any file on schedule that agrees with the line before it, timers apart, the confirmed restart asks for the same coat of the same part again |
| `Crashes.LostTurnRepeats` | src/finishing_line/process/controller.py:86-110 | The condition is exact: on any run, when a crash takes away a saved turn's next tick, the confirmed restart repeats one of its sprays if and only if a spray was unsaved |
| `Crashes.MidAdvanceCrash` | src/finishing_line/process/persistence.py:113-134 | After a crash mid-advance with the train moved, some beat confirmed with the true map restores the schedule if and only if the move fed nothing in and took nothing off |
| `LegacyMachine.LegacySequencer.Bank` | src/finishing_line/process/legacy_sequencer.py:118-135 | The loop over the fan stations credits what the value-level banking credits |
| `LegacyMachine.LegacySequencer.Burst` | src/finishing_line/process/legacy_sequencer.py:252-271 | The fan goes off before the sanding span is banked, so that span earns the F1 part nothing |
| `LegacyMachine.LegacySequencer.RunIdle` | src/finishing_line/process/legacy_sequencer.py:204-238 | Intake of the first part, with every way it can fail or wait |
| `LegacyMachine.LegacySequencer.RunRobot` | src/finishing_line/process/legacy_sequencer.py:240-291 | The composite with its three failure points, and the coat recorded only when all of it succeeded |
| `LegacyMachine.LegacySequencer.RunFlash` | src/finishing_line/process/legacy_sequencer.py:293-314 | The deferred gun clean, the departure gate, and the choice between staging and moving, as the value-level step has them; when that gate opens is LegacyRules.FlashAnswers |
| `LegacyMachine.LegacySequencer.RunStage` | src/finishing_line/process/legacy_sequencer.py:339-389 | Staging succeeds, skips the beat in continuous mode, or faults in batch mode |
| `LegacyMachine.LegacySequencer.ShiftDownstream` | src/finishing_line/process/legacy_sequencer.py:448-457 | The three pops and pushes are one simultaneous move down the line |
| `LegacyMachine.LegacySequencer.Convey` | src/finishing_line/process/legacy_sequencer.py:391-433 | Entry, retreat, return, shuffle or no move, each with its failures |
| `LegacyMachine.LegacySequencer.RunTransition` | src/finishing_line/process/legacy_sequencer.py:391-446 | The belt work, then the new beat with its fan, idle once nothing is left |
| `LegacyMachine.LegacySequencer.Step` | src/finishing_line/process/legacy_sequencer.py:158-183 | One step of the object is one step of the value-level sequencer, and keeps the placing of parts and the admission order |
| `LegacyMachine.LegacySequencer.DeclareBatch` | src/finishing_line/process/legacy_sequencer.py:461-472 | Ids before the first known one stay declared even though the call fails |
| `LegacyRuns.MovedDownOrder` | src/finishing_line/process/legacy_sequencer.py:448-457 | The downstream shift keeps the admission order |
| `LegacyRuns.RetreatedOrder` | src/finishing_line/process/legacy_sequencer.py:412-420 | The retreat keeps the admission order |
| `LegacyRuns.ReturnedOrder` | src/finishing_line/process/legacy_sequencer.py:421-430 | The return keeps the admission order |
| `LegacyRuns.StepKeeps` | src/finishing_line/process/legacy_sequencer.py:158-183 | Every step keeps the placing of parts and admits at most one, at the end of the order |
| `LegacyRuns.LegacyOrder` | src/finishing_line/process/legacy_sequencer.py:339-457 | On every run, with skips, starvation and late arrivals: completed, F2, O, F1 and the pending enterer are the admitted ids in order, F1 is occupied only at P3, F2 never at P3, and both 'impossible occupancy' faults are unreachable |
| `LegacyRules.IdleAnswers` | src/finishing_line/process/legacy_sequencer.py:204-238 | The first part reaches O exactly when one is wanted and intake and belt deliver it; nothing at the infeed is waited out in continuous mode and a fault in batch mode |
| `LegacyRules.RobotAnswers` | src/finishing_line/process/legacy_sequencer.py:240-291 | A spray happens exactly when the part at O owes the beat's coat and sanding did not fail; the coat counts only if all of the work succeeded; any failure stops the line |
| `LegacyRules.FlashAnswers` | src/finishing_line/process/legacy_sequencer.py:293-337 | The flash wait ends exactly when the gun is clean, the eyes are read and the gate opens: at an entry beat when F2 is empty or the outfeed eye dark, at P2 and P3 when the flash at F2 or F1 is complete |
| `LegacyRules.StageAnswers` | src/finishing_line/process/legacy_sequencer.py:339-389 | A part is staged exactly when the junction shows one and the belts park it, trail at P1 and lead at P4; else the entry is skipped in continuous mode and a fault in batch mode |
| `LegacyRules.TransitionAnswers` | src/finishing_line/process/legacy_sequencer.py:391-457 | A belt move fails exactly on a belt that raises or an arrival that does not come; else everybody stands where the beat takes them and the next beat begins, F1's fan over a wet part only |
| `LegacyRules.ShiftDownMeans` | src/finishing_line/process/legacy_sequencer.py:448-457 | The shift down the line, whoever stands where |
| `LegacyRules.CompletesAtEntry` | src/finishing_line/process/legacy_sequencer.py:448-457 | A part is completed only by a belt move of an entry beat, and it is the one at F2 |
| `LegacyRules.OutfeedWasClear` | src/finishing_line/process/legacy_sequencer.py:316-324 | On every run, when a step completes a part, that part stood at F2 as the line passed the gate of the same beat and the outfeed eye read there was dark |
| `LegacyLedger.BankIs` | src/finishing_line/process/legacy_sequencer.py:118-135 | One banking gives each part the elapsed time exactly if it is coated and under a running fan, and dries it exactly when that completes its flash |
| `LegacyLedger.BurstIs` | src/finishing_line/process/legacy_sequencer.py:252-271 | Sanding span and burst earn a part under a switchable F1 fan nothing if it is wet, both spans otherwise, and the fan runs again behind the burst |
| `LegacyLedger.StepBooks` | src/finishing_line/process/legacy_sequencer.py:158-183 | A step earns each part exactly its fan-on share of the time since the last banking and of the composite |
| `LegacyLedger.LegacyExactLedger` | src/finishing_line/process/legacy_sequencer.py:118-135 | On every run each counter of each part has grown by exactly the fan-on seconds of its coat |
| `LegacyCoats.DisciplineMoves` | src/finishing_line/process/legacy_sequencer.py:391-457 | The belts carry each beat's coat discipline to the next, provided a P1 entry found a part at O |
| `LegacyCoats.GatePassed` | src/finishing_line/process/legacy_sequencer.py:316-337 | Passing the gate of P2 or P3 gives the flash the next beat's coat 2 relies on; the outfeed half of the gate is LegacyRules.FlashAnswers |
| `LegacyCoats.LegacyCoatDiscipline` | src/finishing_line/process/legacy_sequencer.py:240-457 | On every run in which each P1 entry finds O occupied: every spray is the next coat, coat 2 only over a complete flash 1, and every part completed has two coats |
| `LegacyCoats.BatchCoatDiscipline` | src/finishing_line/process/legacy_sequencer.py:204-457 | One batch declared up front with intake off always meets that condition |
| `LegacyCoats.LoneEntrySkipsFlash` | src/finishing_line/process/legacy_sequencer.py:411-420 | Without it: a part entering at P1 over an empty O is given coat 2 two beats later over no flash at all, which `MaySpray` forbids for any positive flash time |
| `LegacyCoats.StarvedIsReached` | src/finishing_line/process/legacy_sequencer.py:339-389 | Eighteen steps from rest reach such an entry: the follower misses the first P1 and the P4 behind it, and is staged at the next P1 |
| `LegacyCoats.LateFollowerIsUnderFlashed` | src/finishing_line/process/legacy_sequencer.py:240-457 | A whole run from two declared parts, all devices working and intake continuous, that ends in coat 2 on a part whose flash 1 is short, for every positive flash time |
| `LegacyMachine.MorningIsDeclared` | src/finishing_line/process/legacy_sequencer.py:461-472 | The start of that run is what declaring two parts leaves |
| `LegacyMachine.DeclaredMeans` | src/finishing_line/process/legacy_sequencer.py:461-472 | A declaration queues its ids up to the first one known or repeated, each with a fresh record, leads and trails in turn by the running count |
| `FeedWatch.GreedyIsExact` | src/finishing_line/devices/legacy_clearcore.py:374-381 | Greedy matching stands at the longest prefix of the edge chain that the history contains |
| `FeedWatch.DoneIffContained` | src/finishing_line/devices/legacy_clearcore.py:374-381 | The chain is used up exactly when the history contains it |
| `FeedWatch.PollsCutAtFirst` | src/finishing_line/devices/legacy_clearcore.py:423-439 | A live watch takes in every reading up to the first that completes nose, tail, nose and none after it, and its coil is cut there |
| `FeedWatch.PollsSplit` | src/finishing_line/devices/legacy_clearcore.py:374-399 | It does not matter over how many loops and calls the polls are split |
| `FeedWatch.LegacyDriver.FeedTick` | src/finishing_line/devices/legacy_clearcore.py:423-439 | One poll of a live watch, cut exactly when the history since arming contains the pattern; None with no watch |
| `FeedWatch.LegacyDriver.FeedStop` | src/finishing_line/devices/legacy_clearcore.py:447-450 | Coil off and watch cancelled |
| `FeedWatch.LegacyDriver.FeedSuspend` | src/finishing_line/process/legacy_train.py:64-71 | Coil off, watch and history kept |
| `FeedWatch.LegacyDriver.FeedResume` | src/finishing_line/process/legacy_train.py:81-86 | Re-lights the coil only under a live watch |
| `FeedWatch.LegacyDriver.Blind` | src/finishing_line/process/legacy_train.py:109-128 | The coil is off while the shuffle moves, and re-lit only under a live watch |
| `FeedWatch.LegacyDriver.Composite` | src/finishing_line/process/legacy_sequencer.py:249-287 | The coil is off while the robot works; a failure cancels the watch, and only a live one is re-lit |
| `FeedWatch.LegacyDriver.ChainTick` | src/finishing_line/devices/legacy_clearcore.py:374-381 | One poll of a maneuver's own chain is one poll of a watch |
| `FeedWatch.LegacyDriver.Watchful` | src/finishing_line/devices/legacy_clearcore.py:357-386 | The main loop makes its passes up to the first ready reading, polls the junction at every one of them, for its own chain or an inherited watch, and arrives exactly when the stop eye has shown the arrival (FeedWatch.ArrivesMeans) |
| `FeedWatch.LegacyDriver.Reapproach` | src/finishing_line/devices/legacy_clearcore.py:388-401 | The re-approach polls an inherited watch at every pass up to the first ready reading and arrives exactly if one of them shows work-zero |
| `FeedWatch.LegacyDriver.TransitionMove` | src/finishing_line/devices/legacy_clearcore.py:264-421 | The part is there exactly if the belt ended in time, the eye showed the arrival on the way and, after an upstream pass, the part again on the way back; an inherited watch is left as its polls leave it, and an own one is handed over only by an intake that ended before a follower showed |
| `FeedWatch.ArrivesMeans` | src/finishing_line/devices/legacy_clearcore.py:343-369 | What an arrival is on the readings: with O occupied lit, then dark, then lit, with O empty lit once, and in an upstream pass dark behind it; at staging the staging eye |
| `FeedWatch.TransitionArrivesMeans` | src/finishing_line/devices/legacy_clearcore.py:343-401 | The same with the ready reading and the re-approach |
| `FeedWatch.CutMeans` | src/finishing_line/devices/legacy_clearcore.py:284-290 | The cut comes once the junction eye has been lit, dark and lit again |
| `FeedWatch.PassesEnd` | src/finishing_line/devices/legacy_clearcore.py:351-386 | A transition's loop ends at the first ready reading, the bulk feed's at the first staged part, the nudge's at whichever comes first |
| `FeedWatch.EndedWatches` | src/finishing_line/devices/legacy_clearcore.py:403-421 | A stop, a failed composite and a feeding move that is no intake in time leave coil off and no watch |
| `FeedWatch.LegacyDriver.StageNext` | src/finishing_line/devices/legacy_clearcore.py:496-582 | Arming, the bulk polls up to the staging eye and, if it did not show, the nudge polls up to the eye or ready: the watch is left where exactly these readings put it |
| `FeedWatch.RunsAreSound` | src/finishing_line/devices/legacy_clearcore.py:441-450 | After any run of calls the coil is on only under a live watch that stands where its history puts it |
| `FeedWatch.CutAtFirstPoll` | src/finishing_line/devices/legacy_clearcore.py:374-439 | Over any run of calls that arms and cancels nothing, however the polls are split over ticks, suspensions, shuffles, transitions and re-approaches: the watch is live exactly until the first poll that completes the pattern, and the coil is on exactly while it is live and no suspension is open |
| `FeedWatch.CutSinceArming` | src/finishing_line/devices/legacy_clearcore.py:403-439 | The same counted from the reading that armed the watch, through the maneuver that handed it over |
| `FeedWatch.SuspendedSpanIsDark` | src/finishing_line/process/legacy_sequencer.py:249-306 | From a suspend the coil is off at every call until one that lights it; a resume then lights it exactly if the watch is still live, never after a halt |
| `Firmware.TwinTick` | firmware/finishing_line/firmware.cpp:112-205 | On commands both understand, one tick keeps firmware and executable spec equal if and only if no move starts while one of the other kind is in flight |
| `Firmware.ZoneAnswers` | firmware/finishing_line/firmware.cpp:112-205 | The registers a zone shows: an ack exactly for a request taken up, rest after a trip or an idle mode, MOVING while running or until the move's own end, READY then |
| `Firmware.SwapShows` | src/finishing_line/sim/fake_clearcore.py:208-242 | A swap mid-move shows in the STATE register two ticks later, whatever the levels read before |
| `Firmware.UnknownMode` | firmware/finishing_line/firmware.cpp:199-203 | On an unknown mode the twins keep equal STATE only if it was READY |
| `Firmware.UnknownTarget` | firmware/finishing_line/firmware.cpp:173-177 | On an unknown target the firmware refuses without an ack; the spec raises exactly then |
| `Firmware.WatchdogsAgree` | firmware/finishing_line/firmware.cpp:310-319 | The watchdogs part exactly when a long silence looks short through the 32-bit counter |
| `Firmware.WatchdogAnswers` | firmware/finishing_line/firmware.cpp:307-349 | A heartbeat change arms the watchdog and clears a trip; without one it trips exactly when armed and silent too long, and stays; tripped, both zones rest with both fans on, else fans follow their commands |
| `Firmware.SilenceStopsTheBoard` | firmware/finishing_line/firmware.cpp:310-319 | An armed board silent past the timeout stands still with its fans on at every tick until it hears the master |
| `Firmware.FirmwareRefinesFake` | firmware/finishing_line/firmware.cpp:307-349 | For every stream of writes and eye levels within those terms STATE, ACK, trip and fan feedback are equal after every tick |
| `Firmware.FlipNeedsHold` | firmware/finishing_line/firmware.cpp:33-47 | A debounced eye flips only if every sample of the hold time read the new level, through any wraps of the 32-bit counter |
| `Firmware.HeldLevelFlips` | firmware/finishing_line/firmware.cpp:33-47 | A level held for the hold time, within one wrap, is the debounced level |
| `FirmwareMachine.ZoneBlock.Arm` | firmware/finishing_line/firmware.cpp:160-186 | A new sensor-stop request is armed on the level it finds, or refused |
| `FirmwareMachine.ZoneBlock.Tick` | firmware/finishing_line/firmware.cpp:112-205 | The tick over the register arrays is the tick over values and touches only the zone's own STATE and ACK |
| `FirmwareMachine.FirmwareLoop.Supervise` | firmware/finishing_line/firmware.cpp:310-319 | The heartbeat check over the wrapping counter |
| `FirmwareMachine.FirmwareLoop.Tick` | firmware/finishing_line/firmware.cpp:307-349 | The loop body over the arrays is the tick of the whole board |
| `FirmwareMachine.RegistersAre` | firmware/finishing_line/registers.h:51-82 | The register map of the loop: where each command is read and each answer shown |
| `FakeClearCore.FakeZoneBlock.Tick` | src/finishing_line/sim/fake_clearcore.py:190-242 | The zone block over the register lists is the specification over values, a timed move standing for the motor's, and it fails exactly where the spec raises |
| `FakeClearCore.FakeLoop.Tick` | src/finishing_line/sim/fake_clearcore.py:149-242 | The whole tick over the register lists is the specification of the board |
| `FakeClearCore.WiredAlike` | src/finishing_line/sim/fake_clearcore.py:149-242 | Over the same registers both twins see the same commands and answer in the same places |
| `ReadyProtocol.NoStaleReady` | src/finishing_line/devices/clearcore.py:185-245 | Under every interleaving of register writes, reads, firmware ticks and other callers, a returned call saw its own steps complete, its own first edge after arming, a trip or an idle command |
| `ReadyProtocol.ReusedIdReturnsAtOnce` | src/finishing_line/devices/clearcore.py:197-204 | With an id the zone has already acked the call can return without a single tick, so freshness is needed |
| `ReadyProtocol.IdsRepeat` | src/finishing_line/devices/clearcore.py:197-198 | The shared counter repeats an id exactly every 65535 calls |
| `Modbus.Handle` | firmware/finishing_line/modbus_tcp.cpp:77-134 | Every response fits the buffer and the tables stay in range; what each code answers follows |
| `Modbus.BitsAnswer` | firmware/finishing_line/modbus_tcp.cpp:81-95 | Codes 1 and 2 show, bit by bit, the addressed coils and discrete inputs, padded with zeros, and change nothing |
| `Modbus.WordsAnswer` | firmware/finishing_line/modbus_tcp.cpp:96-106 | Codes 3 and 4 show, word by word, the addressed holding and input registers, and change nothing |
| `Modbus.WritesAnswer` | firmware/finishing_line/modbus_tcp.cpp:107-128 | Codes 5, 6 and 16 set exactly what they name, a coil on only for 0xFF00, leave every other entry alone and echo their header |
| `Modbus.OthersRefused` | firmware/finishing_line/modbus_tcp.cpp:130-133 | Every other request, short, out of range or unknown, changes nothing and is answered with the error code |
| `Modbus.SingleWriteThenRead` | firmware/finishing_line/modbus_tcp.cpp:81-120 | What codes 5 and 6 set is what codes 1 and 3 then show |
| `Modbus.PackedReads` | firmware/finishing_line/modbus_tcp.cpp:81-95 | Every bit a master reads back is the register's |
| `Modbus.WordsRoundTrip` | firmware/finishing_line/modbus_tcp.cpp:96-106 | Decoding the encoded registers gives them back |
| `Modbus.WriteThenRead` | firmware/finishing_line/modbus_tcp.cpp:96-128 | What a multiple write wrote is what a read returns |
| `Frames.ServeSplits` | firmware/finishing_line/modbus_tcp.cpp:47-74 | A byte stream may be cut anywhere: serving the head, then the tail behind its leftover, is serving the whole |
| `Frames.HeaderDecides` | firmware/finishing_line/modbus_tcp.cpp:47-74 | A length below two or beyond the buffer drops the line, a frame not complete waits, a complete one has its own PDU handled and answered |
| `Frames.ReplyIsFrame` | firmware/finishing_line/modbus_tcp.cpp:60-69 | A reply is a frame with the request's transaction, protocol and unit, a length that fits and the response as its PDU |
| `Frames.ChunkingInvariance` | firmware/finishing_line/modbus_tcp.cpp:40-75 | However the stream is cut and the polls fall, replies and registers amount to those of the whole stream |
| `Frames.FramesSurviveChunking` | firmware/finishing_line/modbus_tcp.cpp:40-75 | For every cutting of well-formed frames each PDU is handled once, in order, and the connection stays open |
| `Frames.PollFits` | firmware/finishing_line/modbus_tcp.cpp:40-75 | The buffer never fills for good: after a poll there is room, and waiting bytes get fewer |
| `Frames.FramesSurviveOthers` | firmware/finishing_line/modbus_tcp.cpp:40-75 | The same with arbitrary writes to the tables by others between the polls: each PDU still handled once, in order, and the connection open |
| `ModbusMachine.RegisterTables.PutBits` | firmware/finishing_line/modbus_tcp.cpp:89-92 | The bit loop leaves the addressed bits packed low bit first behind an untouched header |
| `ModbusMachine.RegisterTables.PutWords` | firmware/finishing_line/modbus_tcp.cpp:103 | The word loop leaves the addressed registers high byte first behind an untouched header |
| `ModbusMachine.RegisterTables.WriteWords` | firmware/finishing_line/modbus_tcp.cpp:121-128 | The write loop replaces exactly the addressed registers, or refuses |
| `ModbusMachine.RegisterTables.HandlePdu` | firmware/finishing_line/modbus_tcp.cpp:77-134 | The handler over arrays and buffers is the handler over values, whose answers code by code are Modbus.BitsAnswer, WordsAnswer and WritesAnswer |
| `ModbusMachine.ClientSlot.Fill` | firmware/finishing_line/modbus_tcp.cpp:41-45 | Takes as many bytes as fit, in order |
| `ModbusMachine.ClientSlot.Shift` | firmware/finishing_line/modbus_tcp.cpp:71-73 | The bytes behind the handled frame move to the front |
| `ModbusMachine.FrameServer.Service` | firmware/finishing_line/modbus_tcp.cpp:40-75 | One poll over the buffer is one poll over values |
| `Train.ZoneTargetsOf` | src/finishing_line/process/train.py:65-88 | The dictionary filled by branches holds the stop edge of each zone |
| `Train.ScheduledShape` | src/finishing_line/core/schedule.py:134-160 | On schedule a station can be empty only at either end of the batch |
| `Train.LiveShape` | src/finishing_line/core/machine.py:382-394 | The live moves of each such shape |
| `Train.AdvanceLandsWhereBelieved` | src/finishing_line/sim/physics.py:119-202 | The belts the mover starts carry exactly the machine's moves: the stations after the landing are the map the machine adopts, and the queue shrinks just when it does |
| `Train.ScheduledEdges` | src/finishing_line/process/train.py:65-88 | On every scheduled advance each armed edge is the last event of its zone: a rise only the landing makes, or the fall of a lone departure |
| `Train.StopsOnce` | src/finishing_line/sim/fake_clearcore.py:221-242 | Over any trace with the gap visible the firmware runs the zone up to that edge and stands from then on |
| `Train.NoGapNoStop` | src/finishing_line/sim/physics.py:15-18 | A refilled station whose gap no tick sees never stops its belt |
| `Train.PatternTells` | src/finishing_line/process/train.py:130-142 | The mover's final pattern holds after every scheduled advance, and before it exactly on a full line leaving P4 |
| `Physics.PhysicsSim.Arrive` | src/finishing_line/sim/physics.py:131-149 | Landing fills destinations and raises the handoff eye of the crossing |
| `Physics.PhysicsSim.Leave` | src/finishing_line/sim/physics.py:161-202 | The planning loop over the hops vacates the sources it plans to move |
| `Physics.PhysicsSim.Tick` | src/finishing_line/sim/physics.py:119-202 | One tick lands what is due, stops, accumulates travel or departs, as the value-level tick does |
| `Physics.TickConserves` | src/finishing_line/sim/physics.py:119-202 | Whatever the motors do, parts standing, in flight, waiting and gone stay the same number, and parts in flight have room to land |
| `Physics.TickAnswers` | src/finishing_line/sim/physics.py:119-202 | One tick of the belts: parts in flight land all at once when due, stopped motors reset travel and handoff eyes, travel adds up to a transfer, and the outfeed eye is lit for its dwell |
| `Physics.ZonesTakePart` | src/finishing_line/sim/physics.py:161-180 | A zone takes part in a shift if it runs, the second only the way the first does |
| `BeltRun.RigTickKeeps` | src/finishing_line/sim/physics.py:92-202 | One tick of the belts, with or without a look of the firmware, keeps the joint phases of an advance and brings its end nearer |
| `BeltRun.ShiftsOnce` | src/finishing_line/sim/physics.py:100-202 | Belts and firmware run together, the looks falling anywhere as long as none is a flight or a transfer apart: one request, at most one departure, and after transfer, flight and a look everything stands |
| `BeltRun.AdvanceShiftsOnce` | src/finishing_line/process/train.py:104-129 | For every scheduled advance, with the targets the mover asks for, that end is the map the machine adopts |
| `Executor.StepKeeps` | src/finishing_line/process/executor.py:63-129 | Every atomic step of any thread keeps the invariant |
| `Executor.RunIsSound` | src/finishing_line/process/executor.py:63-129 | Under every interleaving intents start in submission order and at most once, an id is reported only after its call returned or its halt was carried out, and at most one intent starts while the fault is latched; what latches it is Executor.FailureLatches |
| `Executor.FailureLatches` | src/finishing_line/process/executor.py:82-127 | Every device failure and every halt latches with its own reason, unless one stood before, and the latch holds until a reset |
| `Executor.NothingStartsAfterFailure` | src/finishing_line/process/executor.py:119-127 | Between a failure and the next reset nothing starts |
| `Executor.NothingCheckedAfterHaltStarts` | src/finishing_line/process/executor.py:119-122 | Behind a check that follows a halt nothing starts before the next reset |
| `Executor.DrainedNeverStarts` | src/finishing_line/process/executor.py:107-112 | What is drained off the queue never starts, reset or not |
| `Executor.DoneIsReported` | src/finishing_line/process/executor.py:73-77 | What waits to be collected is exactly what was reported since the last collection or reset |
| `Executor.ReturnedIsReported` | src/finishing_line/process/executor.py:119-129 | A call that returned is reported before the worker takes anything else |
| `Executor.LatchedStartHadPassed` | src/finishing_line/process/executor.py:119-124 | That one had passed its poison check before the latch |
| `Executor.FirstReasonStays` | src/finishing_line/process/executor.py:82-98 | The first fault reason stays latched until a reset |
| `Executor.StartsAfterReset` | src/finishing_line/process/executor.py:93-98 | After a reset only later submissions start, or the single intent the worker already held |
| `Executor.OldIntentCanStart` | src/finishing_line/process/executor.py:114-122 | That exception happens: an intent taken before a halt and checked after the reset starts |
| `Handshake.StepNumbers` | src/finishing_line/core/machine.py:68-96 | A step's intents carry the next numbers of the counter in order, and what it leaves pending was pending or is among them |
| `Handshake.ResumeNumbers` | src/finishing_line/core/machine.py:144-188 | An accepted recovery leaves exactly its own new id pending; a refused one only uses up a number |
| `Handshake.TurnKeeps` | src/finishing_line/process/supervisor.py:69-110 | Every turn of controller, submission, worker, collection or operator keeps the books: ids anywhere were emitted below the counter, and what was collected belongs to a call that returned or a halt that was begun and carried out |
| `Handshake.AlwaysHonest` | src/finishing_line/process/executor.py:63-129 | The same at every point of every joint run |
| `Handshake.StaleNeverStrikes` | src/finishing_line/core/machine.py:77 | At every tick after a recovery, leaving out all ids emitted before it changes nothing; an id struck off was emitted since, and its call returned |
| `Handshake.InboxIsCollected` | src/finishing_line/process/supervisor.py:88-92 | A tick is shown exactly the completions collected since the tick before it |
| `Handshake.FaultLatchesExecutor` | src/finishing_line/process/supervisor.py:88-99 | Once all that a faulting tick emitted has been submitted the executor is latched, until a reset |

## Left out

- Web routes, websocket, HMI page, command line, monitor scripts, YAML values: interface and data.
- Robot, sander, sprayer and gun-clean sequences: device calls over opaque libraries; only their completion, failure and duration appear.
- Sockets, motor, Ethernet and Modbus client libraries: byte streams, registers and a steps-complete oracle stand for them.
- Controller threads and locks, and tick scheduling by the wall clock: events come one at a time, in any order.
- `core/pairing.py` and the configuration parsers: not called by the machine, easy members.
- Beat and fault-phase strings a snapshot may hold that name no beat or phase: the original reads them unchecked, the model refuses the file.
- JSON text and file atomicity: a file is absent, unreadable or a whole snapshot.
- Legacy `clear_line` and `confirm_occupancy`: the operator is trusted, so the order and coat statements stop there.
- Legacy sensor reads that raise outside a handler end the program thread; the model leaves the state where it was.
- Exceptions of a Modbus write inside the legacy driver: the feed statement covers calls that return or time out, not a dead connection.
- The legacy driver's 16-bit distance check, request-id seeding and measured spacing: arithmetic on single calls.
- The motor side of the firmware tick (velocity, direction, stop commands), the shutter valve and the legacy echo registers.
- The client's register sequence and the executor's threads are modelled as steps of a protocol rather than as objects: what matters there is the interleaving, which a method body cannot show.
- Setting a bit of a response byte is written as adding its weight, the bit being clear.
- Two belts armed so far apart that a shift falls between the two requests: the shift is taken with every requested belt running.
- Crashes.CrashesReCoatNothing: assumes a positive flash time and that no crash falls between a spraying tick and its save, because the statement is false there (Crashes.LostTurnRepeats).
- Firmware.FirmwareRefinesFake: no two ticks may be further apart than the counter's wrap less the timeout, because the watchdogs part there (Firmware.WatchdogsAgree).
- Throughput.BeatTakes: bounds a beat from the landing that loads its fan; a beat whose fan station is empty has no bound.
- Burst.PeriodTakes: assumes a gun clean of no negative length, which the configuration does not check.
