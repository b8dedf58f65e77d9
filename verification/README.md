# Smart desk: motion protocol and voice capture

This project models the parts of the smart desk that move a motor or open a microphone, and proves what
their concurrent runs keep.

- **Relay firmware** (`policy`, `relay_controller`, `sessions`, `firmware_runs`, `firmware_answers`,
  `control_handler`, `firmware_loop`). The GPIO driver and its timer interrupt, which may run between any two steps; the
  height session that arms the motor; the handlers; the main loop. `Sessions` and `Relays` hold the pure
  machine, `FirmwareRuns` its runs on unbounded time, and the classes change their fields as the firmware
  does, each method shown to be one event of that machine.
- **Desk controller** (`height_monitor`, `desk_model`, `desk_facts`, `desk_answers`, `desk_requests`,
  `desk_controller`, `desk_world`, `desk_progress`, `desk_record`, `desk_wire`, `desk_pulses`, `desk_targets`, `desk_intents`, `desk_admission`, `desk_halts`, `desk_findings`,
  `desk_fine`, `desk_runtime`). The code between two awaits that can suspend is one section. `DeskModel` says
  what a section does to the controller, `DeskController` does it field by field, and `DeskWorld` interleaves
  the sections of the runner, the request holding the intent lock, stop tasks, start and shutdown in every
  order over one relay lock, with an append-only trace. The other modules prove what all those interleavings
  keep, and `DeskRuntime` carries every move out on the controller object.
- **Both together** (`dead_man`): the time by which the motor is off after the last HOLD.
- **Voice capture** (`audio_input`, `recorder`, `wakeword`, `voice_service`). The bounded queue with its
  generation tags, the recorder and the wake-word detector against declarative specifications, and the
  service, in which every await is a call of one method that lets the microphone's thread run.

Most theorems are of two kinds. Some say that nothing happens which must not: what a motor that is on, a pulse
on the wire or a frame that is heard implies, in every run. The others say that what must happen does:
`FirmwareAnswers`, `DeskAnswers`, `DeskRequests` and `DeskProgress`, and their counterparts in the voice
pipeline, give for every operation exactly when it acts, how, and what it leaves behind, in terms of heights,
reports, times and fields (`DeskFacts`) and not of the functions that compute it.

Times of the desk are whole milliseconds, those of the voice pipeline real seconds, heights real
centimetres. Clocks of the firmware wrap at 2^32; elsewhere they do not. Reports, heights, publish results, scores and the outcome of every await are arbitrary.

## Where the code departs from its design

- A STOP that is cancelled while it is sent or confirmed leaves the STOP flag set for good: the hand-over of
  a request that is cancelled, `start()` cancelled before its STOP is confirmed, and a stop task whose caller
  is cancelled a second time, which then reaches the shielded task through its `gather`.
  `FlagIsLostByCancelling` says that it happens exactly so; two runs show it.
- A fine pulse whose direction differs from the one on record is decided on and not sent, because the fine
  phase passes the new direction on without recording it (`DecidedIsWanted`). The run then stands still until
  another height, its timeout or the missing answer of the relay ends it (`NothingIsSent`). This can happen
  when a height may be as old as a fine pulse and its settling take (`FinePulseIsRefused`), and cannot with
  any shorter stale limit, such as the default one (`FinePhaseNeverWaits`).
- A target that passes validation before `start` has finished is refused, but does not call off the startup
  WAKE (`StartupWakeIsRare`, `EarlyRequestDoesNotPreventWake`).
- The height lease is measured on the wrapping clock but dropped only while armed. Readiness is wrong exactly
  in an armed session whose last change is at least a turn of the clock old and looks younger than the lease
  (`ReadinessIsExact`). It takes a gap of more than 1000 ms between ticks (`WrapAgrees`, `SafeGapIsSharp`)
  and 49 days.
- The 30 ms break is made when `start` finds the other direction on. When the interrupt has stopped the motor
  a moment earlier, the other direction starts at once (`SkipsTheBreak`); the contract of `Start` says exactly
  when the break is kept.

## Model

| member | source | states |
|---|---|---|
| `DeskWire.StopDominates` | src/smart_desk/modules/desk/controller.py:963-991 | in every interleaving of runner, requests, stop tasks and shutdown, the generations of pulses and the generations under which STOPs were sent never decrease along the wire: no pulse of a generation follows a STOP sent under a later one |
| `DeskRecord.RecordHolds` | src/smart_desk/modules/desk/controller.py:1288-1317 | every reachable state keeps the intent record: stopping or closing has no intent; no intent has no target, phase or direction and is IDLE, STOPPED or ERROR; a target is within the operation range; SETTLING exactly when a target has no direction; WAKING exactly when a fresh height is awaited; a pending startup WAKE has no intent; and the locks and tasks fit the flags |
| `DeskRecord.StepKeepsWorld` | src/smart_desk/modules/desk/controller.py:1117-1161 | the same for one step of any task |
| `DeskHalts.InvalidReplacementStops` | src/smart_desk/modules/desk/controller.py:263-276 | after every run, whoever has sent a request that failed validation while an intent was live: a stop task of it is due and nothing prevents it, or a new generation has replaced the intent |
| `DeskHalts.ServedAfterHalting` | src/smart_desk/modules/desk/controller.py:256-276 | so before the next request is served that intent is no longer the live one |
| `DeskHalts.InvalidRequestHalts` | src/smart_desk/modules/desk/controller.py:391-404 | a target out of range, or an adjustment that is not positive or leads there, keeps the intent lock for a stop task exactly when an intent is live, and changes no record itself |
| `DeskPulses.EveryPulseIsJustified` | src/smart_desk/modules/desk/controller.py:817-872 | every pulse on the wire was decided with a live, connected, non-stale height, a recent ready relay report, inside the operation range; a HOLD pulse within the watchdog; a target pulse towards the target, beyond the tolerance (a continuous one beyond the fine distance) and within the target timeout |
| `DeskPulses.TargetGuardNeverFires` | src/smart_desk/modules/desk/controller.py:880-891 | with a target inside the operation range the boundary guard of a target cycle never fires |
| `DeskTargets.TargetRunIsBounded` | src/smart_desk/modules/desk/controller.py:892-937 | one target generation sends at most T/refresh + 1 continuous and T/(fine hold + settle) + 1 fine pulses, T the target timeout |
| `DeskTargets.FinePulsesUseNewHeights` | src/smart_desk/modules/desk/controller.py:925-937 | two fine pulses of a generation carry strictly increasing heights' times, each that of the height it was decided on |
| `DeskTargets.PaceHolds` | src/smart_desk/modules/desk/controller.py:993-1014 | in every reachable state the pulses of a target run are spaced by the refresh interval, or by fine hold and settling time, and the deadlines on record know of the last of them |
| `DeskIntents.EveryEntryIsLegit` | src/smart_desk/modules/desk/controller.py:621-678 | every installed intent, pulse and WAKE in every trace has the history its kind requires |
| `DeskIntents.HandOverIsConfirmed` | src/smart_desk/modules/desk/controller.py:1108-1181 | an intent that replaces a live one by hand-over is installed only after its own STOP was sent under a later generation and published without an error, and after a STOP report, neither offline nor rejected, strictly newer than the report known when the live intent was invalidated; every pulse after that STOP is of a later generation than the replaced intent |
| `DeskIntents.DirectReplacementOnlyWakes` | src/smart_desk/modules/desk/controller.py:436-448 | the only intent that replaces a live one without that is a HOLD on a stale height, which only wakes the sensor |
| `DeskIntents.WakeIsSentOnce` | src/smart_desk/modules/desk/controller.py:635-668 | no generation sends WAKE twice and every WAKE belongs to an intent installed as waiting for the sensor |
| `DeskIntents.PulseWaitsForSensor` | src/smart_desk/modules/desk/controller.py:701-716 | a pulse of an intent that began with a WAKE comes after an ONLINE height strictly newer than the basis, with the relay at STOP and ready |
| `DeskIntents.StartupWakeIsRare` | src/smart_desk/modules/desk/controller.py:532-583 | at most one startup WAKE, only after start() has finished, never after a request validated since |
| `DeskIntents.ContinuousIsNotReentered` | src/smart_desk/modules/desk/controller.py:910-923 | once a target run has sent a fine pulse it sends no continuous one |
| `DeskFine.DecidedIsWanted` | src/smart_desk/modules/desk/controller.py:925-932 | a pulse just decided on passes the check under the relay lock if and only if its run is not in the fine phase with a direction on record other than the one to its target |
| `DeskFine.NothingIsSent` | src/smart_desk/modules/desk/controller.py:925-982 | from such a state, over any number of the runner's moves while the height stays on that side and no cycle stops the motion, nothing is sent and the record does not change |
| `DeskFine.FinePulseIsRefused` | src/smart_desk/modules/desk/controller.py:892-937 | a run from start() that gets there, with valid settings whose stale limit is just as long as a fine pulse and its settling |
| `DeskFine.FinePhaseNeverWaits` | src/smart_desk/modules/desk/controller.py:892-937 | with any shorter stale limit, and clocks in step, no run gets there: in every interleaving no cycle begins in the fine phase |
| `DeskFindings.EarlyRequestDoesNotPreventWake` | src/smart_desk/modules/desk/controller.py:278-279 | a concrete run in which a target validated before start() finished is refused and the startup WAKE follows all the same |
| `DeskFindings.FlagIsLostByCancelling` | src/smart_desk/modules/desk/controller.py:1108-1161 | before a shutdown the STOP flag is up with nobody to lower it if and only if some STOP was cancelled while it was being sent or confirmed: a hand-over, a stop task, or start() |
| `DeskFindings.LostForGood` | src/smart_desk/modules/desk/controller.py:1282-1286 | from then on, until a shutdown is over, no intent is ever installed again |
| `DeskFindings.OnwardIsRun` | src/smart_desk/modules/desk/controller.py:1282-1286 | further moves after a run make a longer run, so these statements are about runs |
| `DeskFindings.CancelledHandOverLosesTheFlag` | src/smart_desk/modules/desk/controller.py:1139-1142 | a concrete run, with valid settings and a healthy relay, that gets there by a cancelled hand-over |
| `DeskFindings.CancelledStartLosesTheFlag` | src/smart_desk/modules/desk/controller.py:186-191 | and one by a cancelled start() |
| `DeskAdmission.RefusalsKeepTheIntent` | src/smart_desk/modules/desk/controller.py:1192-1213 | a target or HOLD refused after its validation leaves the live intent and its motion exactly as they were; only the startup WAKE is called off; one that fails validation is refused like that exactly when no intent is live |
| `DeskAdmission.TargetIsAdmitted` | src/smart_desk/modules/desk/controller.py:299-351 | a target that starts to move or to wake has a fresh generation, and was admitted on live height and ready relay, or on a stale height in range and a relay at STOP; it moves towards the target, further than the tolerance |
| `DeskAdmission.TargetEntryIsAdmitted` | src/smart_desk/modules/desk/controller.py:262-297 | the same for a target set without a hand-over |
| `DeskAdmission.HoldIsAdmitted` | src/smart_desk/modules/desk/controller.py:413-497 | the same for a HOLD, in both of its ways in |
| `DeskAdmission.AnswerIsHistory` | src/smart_desk/modules/desk/controller.py:1025-1065 | watching the relay cycle by cycle is the same as reading the whole list of reports: motion goes on if and only if no report was missing too long, contradicted the direction, or said STOP after or instead of the confirmed motion |
| `DeskAnswers.CycleIsExact` | src/smart_desk/modules/desk/controller.py:817-937 | the answer and the new record of every cycle, said of heights, reports, times and the record: a HOLD with a live height and relay, in time, untroubled and with room publishes its hold in its direction if and only if no refresh time is on record or it has come, and rests otherwise; a target run likewise in each phase; and when exactly it rests, stops with or without an error, or sends the STOP between its phases |
| `DeskAnswers.AnswerIsExact` | src/smart_desk/modules/desk/controller.py:1025-1065 | which report ends the motion, and what a report leaves on record |
| `DeskAnswers.WaitingIsExact` | src/smart_desk/modules/desk/controller.py:680-788 | when a waiting intent goes on waiting, is stopped, or begins to move, its first pulse then being due at once |
| `DeskAnswers.StartupIsExact` | src/smart_desk/modules/desk/controller.py:532-598 | when the startup WAKE is sent, kept or dropped, and when an unasked motion is stopped |
| `DeskFacts.TestsAreFacts` | src/smart_desk/modules/desk/height_monitor.py:128-161 | the controller's tests of a height are: a recent live measurement over a connected line, the same in range, an old or cached one in range, a broken line |
| `DeskFacts.RelayTestsAreFacts` | src/smart_desk/modules/desk/controller.py:1244-1270 | its tests of a report and of the record, in the same terms |
| `DeskRequests.HoldRequestIsExact` | src/smart_desk/modules/desk/controller.py:413-497 | the answer and the new record of every HOLD: refused, renewed, handed over, waking or moving, exactly when; renewing moves only the time of the last HOLD and ends the startup WAKE |
| `DeskRequests.TargetRequestIsExact` | src/smart_desk/modules/desk/controller.py:262-351 | the same for a target: invalid, in effect, refused, handed over, reached, waking or moving |
| `DeskRequests.TargetFollowsExactly` | src/smart_desk/modules/desk/controller.py:299-351 | and for a target after its hand-over |
| `DeskRequests.StopIsExact` | src/smart_desk/modules/desk/controller.py:1126-1161 | a stop begins unless one is under way or the controller has ended; what it leaves, and what its end leaves |
| `DeskRequests.StartIsExact` | src/smart_desk/modules/desk/controller.py:190-209 | the startup WAKE is pending after start() exactly when the height in range is an old one |
| `DeskRequests.PulseIsNoted` | src/smart_desk/modules/desk/controller.py:993-1014 | after a published pulse the next is due one refresh after this one was decided on; after a fine one the desk settles for its hold and the settling time |
| `DeskProgress.HoldIsRenewed` | src/smart_desk/modules/desk/controller.py:420-462 | a further HOLD of the intent in effect, admissible or still waiting for the sensor, moves the time of the last HOLD, is noted as taking effect, and changes nothing else |
| `DeskProgress.WatchdogIsExact` | src/smart_desk/modules/desk/controller.py:844-852 | in every reachable state of a HOLD a cycle with a live height and relay stops for the watchdog if and only if every HOLD that took effect is longer ago than the watchdog allows; while one is not, no cycle does |
| `DeskProgress.HoldMovesTheDesk` | src/smart_desk/modules/desk/controller.py:486-497 | a HOLD of an idle desk that may move is on the wire after one cycle that still sees so, for the manual hold, and the next pulse is due one refresh later |
| `DeskProgress.TargetMovesTheDesk` | src/smart_desk/modules/desk/controller.py:331-351 | the same for a target beyond the fine distance, towards it, for the continuous hold |
| `DeskProgress.CycleIsCarriedOut` | src/smart_desk/modules/desk/controller.py:790-815 | the runner sets about exactly what its cycle has answered |
| `DeskProgress.StartupIsCarriedOut` | src/smart_desk/modules/desk/controller.py:532-583 | the same for the part under the intent lock |
| `DeskProgress.HoldIsCarriedOut` | src/smart_desk/modules/desk/controller.py:413-497 | a HOLD that has the intent lock does what it has answered, and the trace says so |
| `DeskProgress.TargetIsCarriedOut` | src/smart_desk/modules/desk/controller.py:262-297 | the same for a target |
| `DeskProgress.AdjustIsCarriedOut` | src/smart_desk/modules/desk/controller.py:393-411 | an adjustment fails, ends the startup WAKE, or asks for the target moved by its amount |
| `DeskProgress.PulseGoesOut` | src/smart_desk/modules/desk/controller.py:963-1014 | a decided pulse goes out and is noted if its generation is current and the intent still moves its way, and is dropped otherwise |
| `DeskProgress.LostPulseStops` | src/smart_desk/modules/desk/controller.py:983-992 | a pulse of the current generation that could not be published stops the motion |
| `DeskProgress.SettlingStopGoesOut` | src/smart_desk/modules/desk/controller.py:953-961 | the STOP between the phases goes out, and the settling time counts from its publish |
| `DeskProgress.WakeGoesOut` | src/smart_desk/modules/desk/controller.py:662-678 | an ordered WAKE goes out with its order |
| `DeskProgress.StopTasksBegin` | src/smart_desk/modules/desk/controller.py:1092-1138 | a stop task begins its STOP unless one is under way |
| `DeskProgress.StopRequestHalts` | src/smart_desk/modules/desk/controller.py:247-254 | stop_motion comes to a stop task once it has the intent lock |
| `DeskProgress.StopGoesOut` | src/smart_desk/modules/desk/controller.py:1139-1149 | the STOP of a stop in progress goes out, and the wait for its report begins |
| `DeskProgress.StopIsConfirmed` | src/smart_desk/modules/desk/controller.py:1144-1181 | a report of STOP that is newer than the baseline and neither offline nor rejected, and no other, ends the wait, lowers the flag and frees who waits for it |
| `DeskProgress.HandOverEnds` | src/smart_desk/modules/desk/controller.py:1108-1115 | the request of a hand-over then installs its intent exactly when it is admitted at that moment |
| `DeskProgress.ShutdownGoesOut` | src/smart_desk/modules/desk/controller.py:211-245 | stop() ends the intent at once, sends its STOP, and leaves the runner dead |
| `FirmwareAnswers.HoldIsGiven` | firmware/relay-controller/src/control_handler.cpp:123-156 | in every run and at every later time the motor is on in a direction if and only if a move command that had to be obeyed asks for it, nothing has ended it since, and its hold, counted from the moment the timer was set, is not over |
| `FirmwareAnswers.CommandIsObeyed` | firmware/relay-controller/src/control_handler.cpp:99-156 | a move command in an armed session with a height that changed within the lease and leaves room switches the motor on for exactly the hold asked for, whether it starts, extends or switches; every other control message stops it |
| `FirmwareAnswers.TickStopsExactly` | firmware/relay-controller/src/control_handler.cpp:158-172 | a tick stops the motor exactly when it finds the lease of an armed session over |
| `FirmwareAnswers.HeightStopsExactly` | firmware/relay-controller/src/control_handler.cpp:49-97 | a height stops the motor exactly when it is invalid, or new and at the limit the motor moves to |
| `FirmwareLoop.Firmware.OrderOfTrail` | firmware/relay-controller/src/main.cpp:172-240 | the same for the firmware object, at every moment |
| `AudioInputs.EnqueueEnters` | src/smart_desk/modules/voice/audio.py:319-342 | a well-sized call of the present generation at an open gate always enters, last, and only the oldest frames beyond the capacity make room, each counted; any other call changes no queue |
| `AudioInputs.QueueHoldsTheNewest` | src/smart_desk/modules/voice/audio.py:319-342 | through any sequence of callbacks and scheduled calls the queue becomes the newest frames it can hold of what it held and every entitled frame since, and exactly the oldest others are dropped |
| `Recorders.RecordingIsDeclared` | src/smart_desk/modules/voice/audio.py:550-640 | the recording said of frames and clock alone: nothing starts, or the first frame completing the loud run in time starts it; it is everything from the pre-roll to the first long enough silence, the longest length or the timeout, too short exactly if the voice in it is; with the right cause |
| `Recorders.PatienceIsDeclared` | src/smart_desk/modules/voice/audio.py:570-612 | the timeout of each read: until the deadline before the start, until the utterance must be full after it |
| `DeadMan.DeadManStops` | src/smart_desk/modules/desk/controller.py:844-866 | controller and firmware together: from last HOLD + watchdog + delivery delay + 30 ms break + manual hold on the motor is off, in every interleaving, with every STOP lost and the firmware loop stalled |
| `DeadMan.MotorIsCommanded` | firmware/relay-controller/src/control_handler.cpp:131-156 | in every run of the firmware a motor that is on was switched on by a move command of that direction and is off by its hold time, plus the break, after it |
| `DeadMan.HoldsAreNoted` | src/smart_desk/modules/desk/controller.py:457-469 | the HOLD time on record, and in every pulse, is that of a HOLD that took effect, and none on the trace is later than the one of a HOLD intent |
| `FirmwareRuns.MotorFollowsHeight` | firmware/relay-controller/src/control_handler.cpp:131-156 | in every run, however long and however often the loop stalls, whose commands come within one turn of the clock after the last change: a motor that is on at time t is on because a height differing from its predecessor arrived less than 1500 + 30 + 500 ms (and the processor's own delay) before t in this session |
| `FirmwareRuns.HonestMotorFollowsHeight` | firmware/relay-controller/src/control_handler.cpp:131-156 | the same for every run in which no command meets a change that the clock misreads |
| `FirmwareRuns.ReadinessIsExact` | firmware/relay-controller/src/control_handler.cpp:219-222 | in every run and at every time, readiness on the wrapping clock differs from the same test on unbounded time if and only if the session is armed and distinct and the last change is at least one turn of the clock old, but less than the lease on the clock |
| `FirmwareRuns.WrapAgrees` | firmware/relay-controller/src/control_handler.cpp:158-172 | while ticks are at most 1000 ms apart nothing is misread through any number of turns of the clock, and the motor follows the height |
| `FirmwareRuns.ReadyIsHistory` | firmware/relay-controller/src/control_handler.cpp:158-172 | after a tick of any run readiness is a function of the messages of the session: exactly a fresh change and a session old enough while it is younger than one turn of the clock; later a wrapped arming window can only postpone it and only a misread change can fake it |
| `FirmwareRuns.SafeGapIsSharp` | firmware/relay-controller/src/control_handler.cpp:234-243 | with one gap of 1001 ms a concrete run with a tick every second is armed and ready on a height more than 49 days old |
| `FirmwareRuns.RunIsSound` | firmware/relay-controller/src/control_handler.cpp:213-217 | in every run, whatever the interrupt and the publishes do, an output that is on has at most 500 ms left, and moving implies armed, armed implies distinct implies baseline implies a height in 73..118, Up implies below 115, Down above 75 |
| `FirmwareRuns.RunReads` | firmware/relay-controller/src/control_handler.cpp:70-88 | the flags are a reading of the messages since the session began: baseline, last time stamp, height and lease time equal those of the messages; distinct needs a message that differs from its predecessor and lasts until a tick a lease later; armed, in a session younger than one turn of the clock, exactly when no tick has found the last change a lease old and a change or a tick has found the arming delay over |
| `FirmwareRuns.RunHolds` | firmware/relay-controller/src/control_handler.cpp:158-243 | all run invariants together: soundness, reading, kept leases, arming, bounded timers |
| `FirmwareRuns.LastChangeIsLatest` | firmware/relay-controller/src/control_handler.cpp:80-88 | the last change is the newest message that differs from its predecessor |
| `Sessions.HandlersKeepSound` | firmware/relay-controller/src/control_handler.cpp:49-217 | one handler call keeps the invariant, for any timing of the interrupt and any publish failure |
| `Relays.OffBetweenOpposites` | firmware/relay-controller/src/relay_controller.cpp:48-60 | the two outputs are never both on, and between energisations of opposite directions both have been off |
| `Policy.ElapsedCountsModulo` | firmware/relay-controller/include/policy.h:14-16 | the wrapping subtraction tells the true age modulo one turn of the clock |
| `HeightMonitors.OnlineMeans` | src/smart_desk/modules/desk/height_monitor.py:128-161 | ONLINE if and only if the monitor runs, the line is connected and the height is a live one within the stale limit |
| `AudioInputs.FramesAreConserved` | src/smart_desk/modules/voice/audio.py:319-342 | in every run accepted = read + dropped + discarded + queued, queued is at most the capacity, and the frames read are an in-order subsequence of those accepted, which are in the order of their callbacks |
| `AudioInputs.DiscardIsFinal` | src/smart_desk/modules/voice/audio.py:282-330 | a frame whose callback ran before a discard is never read after it, however late its call runs and whatever the gate does |
| `AudioInputs.RunKeepsIntake` | src/smart_desk/modules/voice/audio.py:293-342 | the accounting, the order and the freshness of queue and calls hold after every operation |
| `Recorders.RmsRecorder.Record` | src/smart_desk/modules/voice/audio.py:550-626 | the loop returns the recording that RecordingIsDeclared speaks of, and gives its reads the specified timeouts |
| `Recorders.UtteranceIsContiguous` | src/smart_desk/modules/voice/audio.py:600-626 | an utterance is one unbroken stretch of what was heard, from the pre-roll before its start frame on, at most the longest length, and its start frame completes the required run |
| `Recorders.ReadsAreBounded` | src/smart_desk/modules/voice/audio.py:603-626 | after its start a recording reads at most as many frames as the pre-roll left room for |
| `Recorders.StreakCompletes` | src/smart_desk/modules/voice/audio.py:588-599 | the counter reaches its threshold exactly at a frame that ends enough adjacent loud frames, the given streak counting only if unbroken |
| `Recorders.SilentIsMeasured` | src/smart_desk/modules/voice/audio.py:610-624 | the silence on record is long enough exactly when an unbroken quiet stretch is |
| `Wakewords.ListenTracks` | src/smart_desk/modules/voice/wakeword.py:157-197 | the four counters are functions of the frames heard, and each frame gets an inference, on exactly the last 25 frames, if and only if it is the first full window, follows a hit, or is one interval after a miss, and nothing has fired yet |
| `Wakewords.FiresOnTheFirstHitRun` | src/smart_desk/modules/voice/wakeword.py:190-197 | detect answers true exactly on the frame that ends the required number of hits on adjacent frames, for the first time |
| `Wakewords.FiresOnce` | src/smart_desk/modules/voice/wakeword.py:163-164 | at most once between two resets |
| `Wakewords.InferencesFollowTheCadence` | src/smart_desk/modules/voice/wakeword.py:166-175 | with L misses and P hits over n frames (L-1)*interval + P is at most n-25, and without hits L is exactly 1 + (n-25)/interval |
| `Wakewords.CountersKnowWhatIsDue` | src/smart_desk/modules/voice/wakeword.py:169-175 | the test on the counters is the test on the frames |
| `Relays.RelayController.Start` | firmware/relay-controller/src/relay_controller.cpp:33-64 | with the interrupt firing between any two steps: the new state, the result, and the outputs: an extension writes none; a direction that goes on does so after both were off for the 30 ms break if and only if the motor was found running the other way, or had been off that long by itself |
| `Relays.SkipsTheBreak` | firmware/relay-controller/src/relay_controller.cpp:43-53 | the concrete case without a break: up, the interrupt, and down at the same moment |
| `Relays.RelayController.Cut` | firmware/relay-controller/src/relay_controller.cpp:36-41 | once the timer is disabled the direction found is final |
| `Relays.RelayController.Remake` | firmware/relay-controller/src/relay_controller.cpp:48-60 | both outputs off, the break for opposite directions, then the requested one on |
| `Relays.RelayController.StopNow` | firmware/relay-controller/src/relay_controller.cpp:66-75 | both outputs off, no timer, no pending timeout; whether it was moving |
| `Relays.RelayController.OnTimer` | firmware/relay-controller/src/relay_controller.cpp:136-147 | the interrupt clears both outputs and leaves a timeout to report |
| `Relays.RelayController.Elapse` | firmware/relay-controller/src/relay_controller.cpp:132-147 | while time passes the interrupt runs once, when the timer is due, and nothing else changes |
| `Relays.RelayController.TakeTimeoutEvent` | firmware/relay-controller/src/relay_controller.cpp:95-101 | the timeout is reported once |
| `ControlHandlers.ControlHandler.BeginSession` | firmware/relay-controller/src/control_handler.cpp:15-25 | a session with no history; the motor off |
| `ControlHandlers.ControlHandler.InvalidateSession` | firmware/relay-controller/src/control_handler.cpp:27-36 | no history; the motor off |
| `ControlHandlers.ControlHandler.HandleHeight` | firmware/relay-controller/src/control_handler.cpp:49-82 | is one height event of the run model |
| `ControlHandlers.ControlHandler.HandleChange` | firmware/relay-controller/src/control_handler.cpp:84-96 | is the same event for a new time stamp: lease, arming and limit |
| `ControlHandlers.ControlHandler.HandleControl` | firmware/relay-controller/src/control_handler.cpp:99-156 | is one control event: a move command that may be obeyed sets the motor going for exactly its hold, any other one stops it; it sends one status, and fails closed if and only if that cannot be sent |
| `ControlHandlers.ControlHandler.Tick` | firmware/relay-controller/src/control_handler.cpp:158-172 | is one tick event: arming, or the end of a lapsed lease |
| `ControlHandlers.ControlHandler.UpdateArming` | firmware/relay-controller/src/control_handler.cpp:234-243 | arms, and fails closed if that cannot be published |
| `ControlHandlers.ControlHandler.HandleTimeoutEvent` | firmware/relay-controller/src/control_handler.cpp:203-211 | reports the timeout or fails closed |
| `ControlHandlers.ControlHandler.FailClosed` | firmware/relay-controller/src/control_handler.cpp:213-217 | motor off, session invalid, connection closed |
| `FirmwareLoop.Firmware.Loop` | firmware/relay-controller/src/main.cpp:172-240 | a pass takes the timeout, and with both links up delivers the message, checks the lease and sends the heartbeat when it is due; otherwise it leaves the motor off, and connects when it is time; a connection that neither broke nor refused a message is up, and nothing fails closed unless a message could not be sent |
| `FirmwareLoop.Firmware.ConnectMqtt` | firmware/relay-controller/src/main.cpp:94-141 | connecting is tried exactly when the motor is stopped, Wi-Fi up, MQTT down and the last try long enough ago; a session dated from the top of the pass begins exactly when it succeeds; it never switches the motor on |
| `FirmwareLoop.Firmware.Serve` | firmware/relay-controller/src/main.cpp:218-238 | the message, the lease check, and the heartbeat exactly when it is due, in this order |
| `FirmwareLoop.Firmware.MotorIsJustified` | firmware/relay-controller/src/main.cpp:172-240 | a motor that is on, at any point between passes, has a height that moved within its session, obeys the limit of its direction, and has at most 500 ms left |
| `FirmwareLoop.Firmware.MotorFollowsTrail` | firmware/relay-controller/src/main.cpp:172-240 | at any time, however long the loop stalls, a motor that is on follows a height that moved in time, unless some command came a whole turn of the clock after the last change |
| `FirmwareLoop.Firmware.ReadinessOfTrail` | firmware/relay-controller/src/control_handler.cpp:219-222 | the exact condition of a wrong readiness, for the firmware object |
| `HeightMonitors.DeskHeightMonitor.GetSnapshot` | src/smart_desk/modules/desk/height_monitor.py:128-161 | the status is the specified function of provenance, age and line |
| `HeightMonitors.DeskHeightMonitor.Start` | src/smart_desk/modules/desk/height_monitor.py:65-111 | a cached height is never ONLINE |
| `HeightMonitors.DeskHeightMonitor.Receive` | src/smart_desk/modules/desk/height_monitor.py:163-181 | only a decoded line of a connected source becomes an observation |
| `DeskControllers.DeskController.Start` | src/smart_desk/modules/desk/controller.py:152-184 | refuses while the controller or its last runner task runs; otherwise a fresh generation with no intent, stopping, or not running when the task cannot be created |
| `DeskControllers.DeskController.FinishStart` | src/smart_desk/modules/desk/controller.py:190-209 | the flag falls, and the startup WAKE is registered if the height calls for it |
| `DeskControllers.DeskController.RegisterStartupWake` | src/smart_desk/modules/desk/controller.py:500-530 | pending with a deadline, or checked as not needed |
| `DeskControllers.DeskController.BeginClosing` | src/smart_desk/modules/desk/controller.py:211-220 | closing, stopping and no intent, or nothing to do when it neither runs nor has a runner task |
| `DeskControllers.DeskController.FinishClosing` | src/smart_desk/modules/desk/controller.py:230-245 | not running; STOPPED or ERROR |
| `DeskControllers.DeskController.BeginStop` | src/smart_desk/modules/desk/controller.py:1126-1138 | refused, already stopping, or a new generation with no intent and the newest report as baseline |
| `DeskControllers.DeskController.WaitForFreshStop` | src/smart_desk/modules/desk/controller.py:1163-1181 | finds the first report at STOP newer than the baseline and neither offline nor rejected, if every earlier pass was in time |
| `DeskControllers.DeskController.FinishStop` | src/smart_desk/modules/desk/controller.py:1150-1161 | the flag falls; STOPPED or ERROR |
| `DeskControllers.DeskController.SetTarget` | src/smart_desk/modules/desk/controller.py:262-297 | keeps the record consistent, and answers and records exactly what TargetRequestIsExact says; what it installs has a new generation and was admitted |
| `DeskControllers.DeskController.ProceedTarget` | src/smart_desk/modules/desk/controller.py:299-351 | the same after a hand-over, as TargetFollowsExactly says |
| `DeskControllers.DeskController.Hold` | src/smart_desk/modules/desk/controller.py:413-497 | the same for a HOLD, as HoldRequestIsExact says; one that renews moves exactly the time of the last HOLD |
| `DeskControllers.DeskController.ProceedHold` | src/smart_desk/modules/desk/controller.py:472-497 | the same after a hand-over |
| `DeskControllers.DeskController.BeginWakeIntent` | src/smart_desk/modules/desk/controller.py:635-660 | a fresh generation that waits for a height newer than its basis, or refused |
| `DeskControllers.DeskController.RunCycle` | src/smart_desk/modules/desk/controller.py:817-872 | keeps the record consistent, and answers and records exactly what CycleIsExact says; a pulse it decides on is justified and carries the present record |
| `DeskControllers.DeskController.RunTargetCycle` | src/smart_desk/modules/desk/controller.py:874-937 | the same for a target run that has looked at its relay: in each phase it publishes, rests, settles or stops exactly when it must |
| `DeskControllers.DeskController.EvaluateRelayStatus` | src/smart_desk/modules/desk/controller.py:1025-1065 | the same for the relay's answer, as AnswerIsExact says |
| `DeskControllers.DeskController.EnterSettling` | src/smart_desk/modules/desk/controller.py:939-953 | settling, without direction, in a new generation; nothing for a replaced generation |
| `DeskControllers.DeskController.PulseIsWanted` | src/smart_desk/modules/desk/controller.py:973-982 | the check under the relay lock |
| `DeskControllers.DeskController.RecordPulse` | src/smart_desk/modules/desk/controller.py:993-1014 | what a published pulse leaves on record, as PulseIsNoted says; nothing for a replaced generation |
| `DeskControllers.DeskController.RunWakeCycle` | src/smart_desk/modules/desk/controller.py:680-716 | the decision while the sensor is awaited, as WaitingIsExact says |
| `DeskControllers.DeskController.ActivateAfterWake` | src/smart_desk/modules/desk/controller.py:718-788 | the awake intent moves, ends or is stopped, exactly when |
| `DeskControllers.DeskController.RunStartupWakeCycle` | src/smart_desk/modules/desk/controller.py:532-598 | the startup WAKE is sent, dropped or kept waiting, as StartupIsExact says |
| `DeskControllers.DeskController.WatchInactiveRelay` | src/smart_desk/modules/desk/controller.py:1067-1090 | an unasked motion is stopped once for each new report |
| `DeskRuntimes.DeskRuntime.TraceIsSafe` | src/smart_desk/modules/desk/controller.py:98-150 | the trace of the controller object among its tasks, at any moment of any run, has all the properties proved of the interleavings |
| `DeskRuntimes.DeskRuntime.RunCycle` | src/smart_desk/modules/desk/controller.py:790-795 | the object carries out one move of the runner |
| `DeskRuntimes.DeskRuntime.SetTarget` | src/smart_desk/modules/desk/controller.py:256-260 | the same for a request that holds the intent lock |
| `DeskRuntimes.DeskRuntime.AdjustTarget` | src/smart_desk/modules/desk/controller.py:354-364 | the same, also for an invalid amount |
| `DeskRuntimes.DeskRuntime.Hold` | src/smart_desk/modules/desk/controller.py:366-376 | the same for a HOLD |
| `DeskRuntimes.DeskRuntime.FinishStop` | src/smart_desk/modules/desk/controller.py:1150-1161 | the end of a STOP, and what its owner does next |
| `DeskRuntimes.DeskRuntime.Release` | src/smart_desk/modules/desk/controller.py:983-1014 | the end of a publish, and what its sender does next |
| `AudioInputs.LocalAudioInput.Callback` | src/smart_desk/modules/voice/audio.py:293-317 | schedules a call tagged with the generation of its moment |
| `AudioInputs.LocalAudioInput.EnqueueFromLoop` | src/smart_desk/modules/voice/audio.py:319-342 | as EnqueueEnters says: an entitled frame always enters, last; a full queue drops its oldest frame and counts it; any other call changes no queue |
| `AudioInputs.LocalAudioInput.ReadQueue` | src/smart_desk/modules/voice/audio.py:262-280 | the oldest queued frame, captured since the last discard, or a timeout, which is an error when the stream is inactive or its callback has been silent for a second |
| `AudioInputs.LocalAudioInput.DiscardPending` | src/smart_desk/modules/voice/audio.py:285-291 | a new generation and an empty queue |
| `AudioInputs.LocalAudioInput.Start` | src/smart_desk/modules/voice/audio.py:204-243 | an open gate on an empty queue |
| `AudioInputs.LocalAudioInput.Stop` | src/smart_desk/modules/voice/audio.py:245-252 | a closed gate on an empty queue |
| `Wakewords.LiveKitWakeWordDetector.Detect` | src/smart_desk/modules/voice/wakeword.py:157-197 | true exactly when the frame fires in the sense of FiresOnTheFirstHitRun; wrong sizes and a missing model are refused |
| `Wakewords.LiveKitWakeWordDetector.Reset` | src/smart_desk/modules/voice/wakeword.py:199-204 | as if nothing had been heard |
| `Wakewords.LiveKitWakeWordDetector.Stop` | src/smart_desk/modules/voice/wakeword.py:145-155 | as if nothing had been heard, and not started |
| `Wakewords.LiveKitWakeWordDetector.Start` | src/smart_desk/modules/voice/wakeword.py:126-143 | as after a reset, if the model loads |
| `VoiceServices.VoiceService.Stop` | src/smart_desk/modules/voice/service.py:179-194 | from any suspension of a turn: closed, disabled, no window |
| `VoiceServices.VoiceService.Supervise` | src/smart_desk/modules/voice/service.py:135-164 | through any number of lives and losses of the devices nothing is heard that was captured while the microphone was closed |
| `VoiceServices.VoiceService.Cleanup` | src/smart_desk/modules/voice/service.py:436-458 | the gate falls before anything is awaited |
| `VoiceServices.VoiceService.Await` | src/smart_desk/modules/voice/service.py:264-286 | no suspension while processing or speaking finds the microphone open; no frame captured during one with a closed microphone has been or is heard |
| `VoiceServices.VoiceService.ReadFrame` | src/smart_desk/modules/voice/service.py:202-206 | a frame that is heard was captured after every closed period |
| `VoiceServices.VoiceService.RunTurn` | src/smart_desk/modules/voice/service.py:223-286 | what was said and what the services answered decide the outcome, and the outcome where the turn ends: after no utterance or an empty transcript the same window while it lasts, else the wake word; after a turn error the wake word; after a played reply a new window or the wake word; it breaks off only when something outside has failed for good |
| `VoiceServices.VoiceService.Respond` | src/smart_desk/modules/voice/service.py:261-286 | the same from the transcription on |
| `VoiceServices.VoiceService.Record` | src/smart_desk/modules/voice/service.py:247-252 | the recorder hears exactly the frames read during the recording, with the timeouts it asks for, and gives up for want of speech only at its deadline |
| `VoiceServices.VoiceService.ReturnAfterEmptyRecording` | src/smart_desk/modules/voice/service.py:311-325 | back to the same window while it lasts, else to the wake word |
| `VoiceServices.VoiceService.RecoverEmptyTranscript` | src/smart_desk/modules/voice/service.py:327-340 | the same, after the error effect |
| `VoiceServices.VoiceService.RecoverTurnError` | src/smart_desk/modules/voice/service.py:342-344 | to the wake word, after the error effect |
| `VoiceServices.VoiceService.AfterSuccessfulPlayback` | src/smart_desk/modules/voice/service.py:352-378 | the only place that opens a window, which lasts the follow-up timeout |
| `VoiceServices.VoiceService.WaitForFollowupCandidate` | src/smart_desk/modules/voice/service.py:288-309 | the first loud frame inside the window, with the last quiet frames just before it; nothing only once the window is over, all frames until then being quiet |
| `VoiceServices.VoiceService.EnterWaitingWake` | src/smart_desk/modules/voice/service.py:380-397 | no deadline, an empty open microphone, a reset detector |
| `VoiceServices.VoiceService.StartComponents` | src/smart_desk/modules/voice/service.py:121-133 | started components await the wake word |
| `VoiceServices.VoiceService.RunOnce` | src/smart_desk/modules/voice/service.py:199-221 | one pass: a turn is run exactly when the frame read makes the detector fire, or a loud frame comes before the window is over; the states and deadlines the main loop raises errors for cannot occur |
| `VoiceServices.VoiceService.RunLoop` | src/smart_desk/modules/voice/service.py:199-221 | over any number of passes the deadline moves only when a reply has been played to its end, and while every turn comes to nothing the window stays open, unchanged, exactly until its deadline |

## Left out

- Status texts, error codes and detail strings, log lines, and the text of every exception; a refusal is one value.
- JSON parsing of commands, heights and status reports: the parsed values are inputs, and the firmware's are those its parsers accept, or invalid. WAKE is among the invalid ones, as this firmware does not know it.
- MQTT, serial, HTTP, audio devices, OpenAI and the playback coordinator: their results are arbitrary.
- The bench mode of the firmware, the retry fields of its Wi-Fi connection, and a boot whose timer cannot be created.
- Time within a millisecond, and rounding of heights to single precision.
- Clocks and snapshots are read once for each uninterrupted section of the controller; the source reads some of them twice in a row.
- DeskWorld.Run: a created stop task runs, its wait ends and a shutdown begins at any time, so it admits more orders than the event loop; the relay lock is granted in any order, not first come first served, and therefore nothing is claimed about a WAKE and the STOP that cancels it.
- A target or an amount that is not a finite number: it takes the path of one out of range, and the model has only numbers.
- A cancelled stop() of the controller; the theorem on the STOP flag is about the time before a shutdown.
- Controller lifetimes that overlap: a run is one start()..stop() of a fresh object.
- DeskIntents.StartupWakeIsRare: a request made before start() has finished does not prevent the startup WAKE, because it does not in the code either.
- DeskIntents.HandOverIsConfirmed: does not cover a HOLD on a stale height, which replaces a live intent without a STOP; DirectReplacementOnlyWakes says that it then only wakes.
- DeadMan.DeadManStops: the delay from decision to delivery is a parameter, and earlier target pulses must have ended by the same time, since with further motion asked for the bound would not be one.
- Floats: the arithmetic of the recorder is that of the source, with its tolerance, on real numbers.
- Wakewords.ListenTracks: says nothing after a failed inference, which ends the detector's life in the service; the model is one function of the window.
- VoiceServices.VoiceService.RunLoop: a fatal error and a cancellation look alike, and the snapshot with its error code is not modelled.
- VoiceServices.VoiceService.Record: only finitely many awaits of one recording find the microphone busy, which its deadlines bring about in the source.
- Levels of the sound: a frame is above the threshold or not. WAV building, signal statistics and debug snapshots.
- Profiles, storage, the height cache, cameras, lights, the assistant's sessions: plain state or other programs.
