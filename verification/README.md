# Vehicle service: a verified model

A Dafny model of the service that runs an electric scooter: the vehicle state machine with its
motor interlock and its latches, the start after a restart, the blinker worker, the input
pipeline with its gestures, and the LED curve index. `dafny verify dfyconfig.toml` checks it.

## The vehicle

`Definition` holds the machine as data: states, parents, guarded rows, dropped events, timeouts.
The concerns a transition touches are values of their own, each with the functions that change it
and the invariant they keep: `Outputs` (three GPIO lines, what is published about them, their
faults), `Commitment` (a shutdown that has told the dashboard computer to halt, and unlocks queued
behind it), `HibernationIntent`, `DashboardHold` (what keeps the dashboard rail up) and
`AutoStandby`. `Vehicle` joins them into one transition system: a step is one event or handler run
to completion, an event queued by an entry action is handled next, and everything the environment
decides (readings, which writes and publications succeed, the clock) is in the `Io` of the step.
Every GPIO write may fail, leaving its line as it was.

`VehicleSystem` is the class whose methods update the fields in the order of the source. Each is
proved equal to the transition system through `Abs()`, up to `HandleAll`, which handles any
sequence of stimuli as `Vehicle.Run` does, and `Start`, which ends in `Startup.Booted`. The
theorems over whole runs are about those functions:

* the motor interlock from the start on, and published values and faults that describe the lines,
  each with the exact starts it holds from (`StartupLines.MotorInterlockFromBoot`,
  `StartupLines.BootInterlocksExactly`, `StartupLines.LinesReportedFromBoot`,
  `StartupLines.BootReportsExactly`);
* deferring the reports of a drive entry to its join leaves behind what reporting at once would
  have (`DeferredEffects.DriveJoinSettles`, `Outputs.DeferredMatchesImmediate`);
* one replay for each shutdown in which an unlock was queued, hibernation confirmations accounted
  for, late timer callbacks inert (`VehicleSafety.RunKeepsBookkeeping`, `VehicleSafety.RunReplays`,
  `Interleavings.QueuedUnlockIsReplayed`, `RailSafety.LateCallbacksInert`);
* admission to drive, and a ride saved without supply that stays parked
  (`DriveSafety.StepAdmission`, `Startup.UnpoweredRideStaysParked`);
* the owner of the auto-standby countdown and of a dashboard rail left on, each with the exact
  step that loses it (`AtRestSafety.StepOwned`, `RailSafety.StepKeepsRail`);
* stand-by within the auto-standby setting plus 50 s when nothing but timers happens
  (`Progress.ReachesStandby`);
* the restore marker over any sequence of starts and crashes (`Restore.NoRepeatedInterruption`,
  `Restore.RefusalBlamesInterruption`).

## The other cores

`BlinkerProtocol` interleaves callers, workers and shutdown step by step; `BlinkerCadence` is the
worker's cue schedule under arbitrary delays. `Debounce` is one input line in time, `HardwareInput`
the class with the maps, and `Gestures` the detector fed by deduplicated input. `StandDeferral` is
the short delay after a drive entry before a lowered stand is acted on. `Fade` and `CurveLibrary`
relate the precomputed off instants of LED curves to the raw samples: the wait for an off instant
is exact for a cue of one curve, and ends with all curves of a cue dark exactly when they agree on
their next off instant (`CurveLibrary.OneCurveWaitIsExact`, `CurveLibrary.WaitEndsDarkExactly`).

## Where the code does not keep what its comments say

* Auto-standby is documented as never running outside parked (internal/core/system.go:797): the
  initial hibernation hold is shown as parked, so a lever, the stand, the seatbox button, a
  setting or a disconnect starts the countdown there. `AtRestSafety.StepOwned` says exactly when,
  `AtRestSafety.InitialHoldCounterexample` gives a run.
* A watchdog that gives up an update in stand-by while a map download holds the rail drops the
  deferred power-off: when the download ends nothing cuts the rail. `RailSafety.StepKeepsRail`,
  `RailSafety.DroppedDeferralCounterexample`.
* A map-download hold is documented as a capped courtesy window (internal/core/system.go:62-68):
  the cap is armed on entering shutting-down only, so a download announced after that has none.
  `RailSafety.StepKeepsCap` says exactly when, `RailSafety.UncappedLasts` for how long.
* A gesture timer's callback asks whether the button is pressed, not by which press: one that had
  already run out when its press was released counts for the next press. That is a long tap too
  early, and two if the press is held until its own timer; a late hold is out of order at once.
  `Gestures.RunLeavesGrammarExactly` says exactly when the grammar of press cycles is left,
  `Gestures.RunCyclesExactly` when a timer speaks for another press than its own, and
  `Gestures.ReleasedAsTheTimerRunsOut` gives a run. Pairing of taps never suffers.
* A lowered stand right after a drive entry is deferred so that no flip is lost
  (internal/core/system.go:1216-1217): the deferred check reads the cached state, which can show a
  bounce that the debounced line never reports. The vehicle then stays in drive with its stand down
  until the line reports another edge, the dashboard drops out or a forced lock is asked for.
  `StandDeferral.StepKeeps`, `StandDeferral.BounceIsNotReported`,
  `StandDeferral.LostStandStaysInDrive`.
* When the saved state cannot be read, controller power comes up dark without being published. When
  it can, a dashboard update that is still going on brings the dashboard's power up on, unpublished,
  over a Redis that says off, until that line is written.
  `StartupLines.BootReportsExactly`, `StartupLines.UnreadStateMisreports`.
* Handlers read the machine's state, or a copy of it that lags, before they act. An unlock queued
  after the shutdown has ended is never replayed; a lever edge handled while the copy still says
  drive releases the brake on a powered controller; the end of a map download, the end of an update
  and its watchdog forget a power-off that was just deferred while the copy does not say stand-by
  yet; a touch or a disconnect starts a countdown outside parked while it still says parked.
  `Interleavings` has the condition of each.
* A state restored from `waiting-hibernation` starts the confirmation over, and the initial hold
  is restored as parked. `Restore.ResumesWhereItWas`.

## Model

| member | source | states |
|---|---|---|
| Definition.FirstAdmittedIsFirst | internal/fsm/definition.go:130-135 | the row taken is the first, in declaration order, whose guards all hold; none is taken exactly when none is admitted |
| Definition.DispatchFollowsMap | internal/fsm/definition.go:118-298 | every dispatched row, own or inherited, follows the map of sources, targets, actions and required guards |
| Definition.DispatchIsLegal | internal/fsm/definition.go:118-298 | stand-by is reached only from shutting-down; shutting-down and stand-by turn to parked only with the unlock action, and shutting-down only if aborting is permitted; updating is never a target |
| Definition.DriveEdge | internal/fsm/definition.go:152-171 | a row into drive was admitted by the full condition, or by seatbox button with raised stand, both brakes and supply |
| Definition.FamilyBorder | internal/fsm/definition.go:31-45 | the at-rest parent is left or entered exactly when a transition crosses the family's border |
| Outputs.DeferredMatchesImmediate | internal/core/system.go:1803-1895 | for any sequence of successful and failed writes, reporting at the join leaves lines, published values and output faults as reporting each write at once would; the held-unpowered fault, which an earlier power-on would have cleared, may also stand after a cut |
| Outputs.SettleConsistent | internal/core/system.go:1939-1994 | published power equals the last good write, a fault stands exactly when the latest write failed, and a controller reported as held dark is dark |
| Outputs.SettleTells | internal/core/system.go:1939-1994 | a power line that is published wrongly stays so exactly until a write of it succeeds |
| Outputs.ParkedKeepsInterlock | internal/core/fsm_actions.go:483-530 | entering parked keeps the interlock between any two of its writes and establishes it at the end, even from drive; without a confirmed brake the controller ends dark |
| Outputs.DriveReleasesLast | internal/core/fsm_actions.go:394-456 | entering drive never releases the brake before its last write; the motor is free only behind a passed recheck; every rejection ends interlocked |
| Outputs.BrakeEdgeInterlock | internal/core/system.go:1312-1324 | a lever edge keeps the interlock exactly when it does not release the brake on a live controller |
| Outputs.EngineCut | internal/core/fsm_actions.go:709-712 | a successful cut leaves the controller dark and the reports consistent |
| Outputs.DashboardOnly | internal/core/fsm_actions.go:641-659 | dashboard writes leave controller and brake alone |
| DeferredEffects.DriveJoinSettles | internal/core/fsm_actions.go:371-456 | for every combination of write results the effect lists of a drive entry, reordered and thinned as the source does, settle to the last good writes and latest failures |
| DeferredEffects.RejectedCutJoins | internal/core/fsm_actions.go:424-441 | the rejecting branch that also cuts power reports the cut in place of the power-on |
| DeferredEffects.DashboardFailedJoins | internal/core/fsm_actions.go:400-420 | the branch without dashboard never publishes a power-on that was cut again |
| DeferredEffects.BrakeLastJoins | internal/core/fsm_actions.go:443-456 | the ordinary entry settles to its three writes |
| DeferredEffects.WriteThenReport | internal/core/system.go:1795-1844 | one write with its report and its publication is one undeferred write |
| Commitment.ShuttingDownKeeps | internal/core/fsm_actions.go:683-694 | a new shutdown starts a visit without queued unlock |
| Commitment.StandbyKeeps | internal/core/fsm_actions.go:667-677 | stand-by ends the visit and dispatches the replay exactly if an unlock was queued |
| Commitment.DeferKeeps | internal/core/redis_handlers.go:119-133 | queueing during a committed shutdown keeps the account, however often it happens |
| Commitment.OneReplayPerVisit | internal/core/fsm_actions.go:672-677 | visits with a queued unlock equal replays dispatched plus one if one is still queued |
| HibernationIntent.ActKeeps | internal/core/fsm_actions.go:1116-1141 | every transition action keeps each confirmation in exactly one of pending, cancelled, submitted |
| HibernationIntent.ChangedKeeps | internal/core/fsm_actions.go:115-121 | the state-change callback submits a confirmation once, and only after stand-by was published |
| DashboardHold.StaleCallbacksInert | internal/core/system.go:2155-2208 | a timer callback ends a hold only in the session that armed it |
| DashboardHold.EntriesKeepTimersCurrent | internal/core/fsm_actions.go:759-786 | entering shutting-down and stand-by keeps the newest generation tied to the live hold |
| DashboardHold.ReleasesKeepTimersCurrent | internal/core/redis_handlers.go:738-755 | so do releases and watchdog timeouts |
| DashboardHold.WatchdogDropsDeferralUnderMapHold | internal/core/redis_handlers.go:868-882 | a watchdog timeout in stand-by keeps an owner for a powered rail exactly when no map hold is live, a cut is due, or the rail is down |
| DashboardHold.LostDeferralStaysLost | internal/core/redis_handlers.go:738-804 | right after that neither a release nor an expiry schedules a cut |
| AutoStandby.OwnershipLostOnlyInInitialHold | internal/core/system.go:795-919 | an input, status or setting starts a countdown outside the at-rest family exactly in the initial hold |
| AutoStandby.HopOnDeadlineUntouched | internal/core/system.go:1112-1148 | in the locked and learning modes only a reconnect during a lock countdown moves the deadline |
| VehicleSafety.StepKeepsBookkeeping | internal/core/fsm_actions.go:88-126 | every stimulus keeps commitment, intent, hold timers and queue in order |
| VehicleSafety.RunKeepsBookkeeping | internal/core/redis_handlers.go:119-137 | so does every run: commitment only while shutting down, queued unlock only while committed and never beside a hibernation request, every confirmation accounted for |
| VehicleSafety.RunReplays | internal/core/fsm_actions.go:788-798 | over every run, queued visits equal replays plus the one waiting |
| VehicleSafety.RunAnnounces | internal/core/fsm_actions.go:96-117 | while publications succeed the published name is that of the state, over every run |
| VehicleSafety.RunInvariant | internal/core/fsm_actions.go:88-126 | what every permitted step keeps holds after every run of permitted steps |
| DriveSafety.EntryInterlocks | internal/core/fsm_actions.go:351-518 | every legal entry establishes interlock and dark controller for its state if cuts succeed |
| DriveSafety.RunInterlocks | internal/core/fsm_actions.go:351-518 | over every run with successful cuts, whatever else fails: interlocked outside drive, dark in shutting-down and stand-by |
| DriveSafety.RunReportsLines | internal/core/system.go:1803-1994 | over every run with successful cuts from outputs that are described by Redis and the fault set, they stay described |
| DriveSafety.StepInterlocks | internal/core/system.go:1266-1324 | one stimulus keeps both |
| DriveSafety.DriveEntryOutcome | internal/core/fsm_actions.go:394-456 | a drive entry frees the motor only behind a passed recheck; a rejected one ends interlocked and, in the same step, in parked |
| DriveSafety.StepAdmission | internal/core/fsm_actions.go:1028-1053 | every entry to drive had raised stand, supply, no rejected request, and readiness with open lock unless it was the seatbox override |
| DriveSafety.FireAdmission | internal/core/drive_start.go:21-30 | the same for one event |
| DriveSafety.RejectedStaysOut | internal/core/drive_start.go:32-62 | with a rejected request no run reaches drive before stand-down, shutting-down or stand-by is observed |
| AtRestSafety.StepOwned | internal/core/fsm_actions.go:817-868 | a running countdown stays inside the at-rest family, except exactly for a countdown started in the initial hold |
| AtRestSafety.RunOwned | internal/core/fsm_actions.go:817-868 | over every run without such a step |
| AtRestSafety.HopOnKeepsCountdown | internal/fsm/definition.go:91-117 | moves inside the family leave the countdown alone, and inside the locked modes no input or setting moves the deadline but a reconnect |
| AtRestSafety.InitialHoldCounterexample | internal/core/system.go:851-868 | two levers, then another lever edge: the countdown runs in the initial hold |
| RailSafety.StepKeepsRail | internal/core/redis_handlers.go:209-252 | one step leaves a powered rail in stand-by without an owner exactly when the watchdog expires under a live map hold |
| RailSafety.RunKeepsRail | internal/core/redis_handlers.go:738-804 | over every other run the rail has a hold, a scheduled cut or a shutdown pass |
| RailSafety.CompletionStartsPass | internal/core/redis_handlers.go:239-252 | an update that ends in stand-by starts the shutdown pass that cuts the rail |
| RailSafety.LateCallbacksInert | internal/core/system.go:2121-2208 | after any run a late callback ends a hold only in the session that armed it |
| RailSafety.DroppedDeferralCounterexample | internal/core/redis_handlers.go:806-882 | update, map download, watchdog, release: the rail stays on with nothing left to cut it |
| RailSafety.StepKeepsCap | internal/core/fsm_actions.go:759-771 | a step leaves a map hold of a vehicle going to sleep without its cap exactly when the download is announced after the shutdown began |
| RailSafety.RunKeepsCap | internal/core/system.go:2172-2191 | over every other run the hold is under a timer |
| RailSafety.StepKeepsUncapped | internal/core/redis_handlers.go:708-728 | a step gives a hold without its cap an end exactly when the dashboard lets go or a shutdown begins; no timer does |
| RailSafety.UncappedLasts | internal/core/system.go:2172-2191 | so the hold lasts along every run without the two |
| RailSafety.DroppedDeferralStrands | internal/core/redis_handlers.go:806-858 | a watchdog expiry under a map hold leaves the rail on with nothing deferred, scheduled or under update |
| RailSafety.StepStranded | internal/core/redis_handlers.go:738-804 | a step changes that exactly by leaving stand-by or starting an update |
| RailSafety.StrandedRailStaysUp | internal/core/redis_handlers.go:738-804 | so the rail stays up along every run that stays in stand-by and starts no update, whatever ends the download |
| Interleavings.CommittedStep | internal/fsm/definition.go:230-238 | a committed shutdown stays committed or reaches stand-by, and an unlock request in it is queued |
| Interleavings.QueuedUnlockIsReplayed | internal/core/fsm_actions.go:667-677 | along every run a queued unlock is still queued in its visit or has been replayed |
| Interleavings.LateDeferralKeepsBooks | internal/core/redis_handlers.go:119-133 | queueing after the check is harmless exactly while the shutdown is still committed |
| Interleavings.LateDeferralIsReached | internal/core/redis_handlers.go:119-133 | the shutdown's timer ringing between check and act is a run to that |
| Interleavings.LateDeferralIsForgotten | internal/core/fsm_actions.go:692-694 | otherwise the next shutdown forgets the unlock |
| Interleavings.LaggingCopyReleasesBrake | internal/core/system.go:1312-1324 | a lever edge handled with a copy of the state that still says drive breaks the interlock exactly with levers released, a good write and a powered controller |
| Interleavings.LaggingWindowIsReal | internal/core/fsm_actions.go:493-518 | and parked powers the controller whenever its writes succeed |
| Interleavings.HeldShutdownDefers | internal/core/fsm_actions.go:641-660 | every shutdown that ends with a powered rail held and no cut scheduled leaves the power-off deferred and no cut scheduled |
| Interleavings.LaggingReleaseForgets | internal/core/redis_handlers.go:738-804 | the end of a map download carries that deferral out exactly if the copy of the state says stand-by already |
| Interleavings.LaggingWatchdogForgets | internal/core/redis_handlers.go:806-858 | so does the watchdog of an update |
| Interleavings.LaggingCompletionForgets | internal/core/redis_handlers.go:209-252 | and so does the end of an update, which is the transition system's if the copy does not lag |
| Interleavings.LaggingCountdownIsUnowned | internal/core/system.go:795-904 | a touch or a disconnect starts a countdown outside the at-rest family exactly if the copy still says parked and its time is set, and for the disconnect that it was connected |
| Progress.ReachesStandby | internal/fsm/definition.go:10-19 | with only timers ringing, every state but drive, seatbox confirmation and updating reaches stand-by after at most five timers and within the setting plus 50 s |
| Progress.ClockIsProgress | internal/fsm/definition.go:49-83 | each timer lowers the time bound by the time it took, and the rank |
| Progress.RingFollowsClock | internal/core/fsm_actions.go:887-901 | the vehicle's timers, the state-scoped force timer included, run like the clock whatever is read or fails |
| Progress.TimersLead | internal/fsm/definition.go:230-284 | what each timer's event does; only the forced hibernation depends on the levers |
| Progress.SleeplessStay | internal/fsm/definition.go:46-83 | drive, seatbox confirmation and updating have no timer |
| Restore.MarkerNamesUnanswered | internal/core/fsm_actions.go:181-226 | the marker names a state exactly when the last unanswered attempt was at it |
| Restore.NoRepeatedInterruption | internal/core/fsm_actions.go:181-226 | between two attempts cut short at one state some boot refused it, finished an attempt or was cut short elsewhere |
| Restore.RefusalBlamesInterruption | internal/core/fsm_actions.go:190-197 | a refusal means that the last attempt was at this state and was cut short |
| Restore.RepeatsExactly | internal/core/fsm_actions.go:190-201 | with a faulty store the attempt is repeated exactly if the marker ran out, cannot be read, or was neither set nor there before |
| Restore.RefusedAfterSuccessExactly | internal/core/fsm_actions.go:223-232 | a finished attempt is refused next time exactly if its marker could not be cleared and still stands |
| Restore.AttemptsAreKnown | internal/core/fsm_actions.go:140-151 | nothing resumes into updating, a parent or an unknown state, nor into drive without supply |
| Restore.ResumesWhereItWas | internal/core/fsm_actions.go:18-86 | publishing and resuming a state is the identity but for the named exceptions |
| Startup.BootIsSafe | internal/core/system.go:209-752 | every start ends with books and countdown in order, dark in shutting-down and stand-by if cuts succeed, and with an owner for a powered rail if rail cuts succeed |
| Startup.BootIntoDrive | internal/core/fsm_actions.go:203-219 | a start ends in drive only if that was saved, supplied and not refused; without supply it ends parked and rejected |
| Startup.UnpoweredRideStaysParked | internal/core/fsm_actions.go:204-216 | and then no run reaches drive before a new request |
| StartupLines.BootedLines | internal/core/system.go:492-503 | the lines at the end of a start are those its writes leave, in order, and it ends in drive exactly when a drive was resumed with its dashboard |
| StartupLines.BootInterlocksExactly | internal/core/system.go:662-688 | with every cut succeeding a start ends interlocked exactly when the brake engages or no locked mode is resumed |
| StartupLines.MotorInterlockFromBoot | internal/core/fsm_actions.go:351-518 | the interlock over every run from every such start on |
| StartupLines.BootReportsExactly | internal/core/system.go:460-503 | with every cut succeeding, what is published at the end of a start describes the lines exactly if no power-on was left standing in Redis without a state to restore, and dashboard power came up as published or was written on the way |
| StartupLines.UnreadStateMisreports | internal/core/system.go:224-228 | a saved state that cannot be read, over a power-on in Redis, ends dark and published as on |
| StartupLines.LinesReportedFromBoot | internal/core/system.go:1803-1994 | from every other start on, Redis and the fault set describe the lines after every step |
| Startup.ClosedIsSafe | internal/core/system.go:662-728 | the end of a start: brake engaged outside drive, an interrupted shutdown taken up again |
| VehicleSystem.VehicleSystem.WriteOutputDeferredFault | internal/core/system.go:1803-1835 | the line changes only on success; the report carries the failure |
| VehicleSystem.VehicleSystem.SetPowerOutput | internal/core/system.go:1846-1937 | a power write with its two effects; losing the rail clears readiness |
| VehicleSystem.VehicleSystem.RunEffect | internal/core/system.go:1939-1994 | one effect, as the value model applies it |
| VehicleSystem.VehicleSystem.RunEffects | internal/core/fsm_actions.go:371-389 | the effects of a drive entry in order, joined |
| VehicleSystem.VehicleSystem.WriteBrake | internal/core/system.go:1795-1801 | one undeferred brake write |
| VehicleSystem.VehicleSystem.SetPower | internal/core/system.go:1837-1844 | one undeferred power write |
| VehicleSystem.VehicleSystem.DriveOutputs | internal/core/fsm_actions.go:394-456 | in all branches the outputs of the transition system, and the not-ready event exactly when rejected |
| VehicleSystem.VehicleSystem.EnterReadyToDrive | internal/core/fsm_actions.go:351-481 | the drive entry of the transition system |
| VehicleSystem.VehicleSystem.EnterParked | internal/core/fsm_actions.go:483-595 | brake, power behind it, dashboard, as the transition system settles them |
| VehicleSystem.VehicleSystem.EnterStandby | internal/core/fsm_actions.go:600-681 | rail cut or deferred, commitment ended, replay dispatched once |
| VehicleSystem.VehicleSystem.EnterShuttingDown | internal/core/fsm_actions.go:683-804 | power cut, holds resolved, halt published only when nothing holds the dashboard |
| VehicleSystem.VehicleSystem.EnterAtRest | internal/core/fsm_actions.go:817-844 | arms the countdown |
| VehicleSystem.VehicleSystem.ExitAtRest | internal/core/fsm_actions.go:855-868 | clears it |
| VehicleSystem.VehicleSystem.CancelHibernationRequest | internal/core/fsm_actions.go:319-330 | cancels a pending confirmation and tells the power manager if one was requested |
| VehicleSystem.VehicleSystem.CompleteHibernationShutdown | internal/core/fsm_actions.go:1096-1109 | submits a pending confirmation once |
| VehicleSystem.VehicleSystem.Act | internal/core/fsm_actions.go:1116-1141 | the transition actions |
| VehicleSystem.VehicleSystem.StateChanged | internal/core/fsm_actions.go:97-121 | copies the state, publishes it, and only then completes a hibernation shutdown |
| VehicleSystem.VehicleSystem.Transition | internal/core/fsm_actions.go:88-126 | exit, action, entry, callback equal one move of the transition system |
| VehicleSystem.VehicleSystem.Send | internal/fsm/definition.go:118-298 | an event, and the not-ready event its entry may queue, as the transition system |
| VehicleSystem.VehicleSystem.AssertMotorSafeOutputs | internal/core/fsm_actions.go:265-272 | brake first, then the cut |
| VehicleSystem.VehicleSystem.ChooseRestoreState | internal/core/fsm_actions.go:203-216 | a saved drive without supply becomes parked and rejected |
| VehicleSystem.VehicleSystem.ResumeSavedState | internal/core/fsm_actions.go:203-221 | enters the chosen state, and makes it safe if the machine reports a failure |
| VehicleSystem.VehicleSystem.RestoreFSMState | internal/core/fsm_actions.go:161-226 | vehicle and marker after a boot that survives, in every branch, the marker having run out or not |
| VehicleSystem.VehicleSystem.FinishStart | internal/core/system.go:562-752 | lock sensor, brake, interrupted shutdown, publication |
| VehicleSystem.VehicleSystem.SetUp | internal/core/system.go:460-503 | initial lines, what is published of them, and the flags and settings read |
| VehicleSystem.VehicleSystem.Start | internal/core/system.go:209-752 | a whole start, from any earlier state of the object, equals the start of the transition system, and leaves the marker as a boot that survives |
| VehicleSystem.VehicleSystem.HandleUnlockRequest | internal/core/redis_handlers.go:119-137 | queued in a committed shutdown, an event otherwise |
| VehicleSystem.VehicleSystem.StartDbcUpdate | internal/core/redis_handlers.go:182-207 | a new update session with a new watchdog generation and a powered rail |
| VehicleSystem.VehicleSystem.CompleteDbcUpdate | internal/core/redis_handlers.go:209-252 | the update and its deferral end; in stand-by a shutdown pass starts |
| VehicleSystem.VehicleSystem.HoldForMapDownload | internal/core/redis_handlers.go:708-728 | a hold starts, or goes on |
| VehicleSystem.VehicleSystem.ReleaseMapDownloadHold | internal/core/redis_handlers.go:738-804 | the hold ends and what it deferred is carried out, unless an update outranks it |
| VehicleSystem.VehicleSystem.MapHoldExpires | internal/core/system.go:2174-2191 | only the newest generation releases |
| VehicleSystem.VehicleSystem.WatchdogExpires | internal/core/system.go:2155-2170 | only the newest generation gives the update up |
| VehicleSystem.VehicleSystem.HandleDbcWatchdogTimeout | internal/core/redis_handlers.go:806-858 | the update and its deferral end; a cut is scheduled as decided |
| VehicleSystem.VehicleSystem.StartMapHoldTimer | internal/core/system.go:2174-2191 | arms a new generation for the current hold |
| VehicleSystem.VehicleSystem.StartAutoStandbyTimer | internal/core/system.go:795-819 | starts the countdown only when shown as parked |
| VehicleSystem.VehicleSystem.ResetAutoStandbyTimer | internal/core/system.go:851-868 | a touch restarts it, or ends a lock countdown |
| VehicleSystem.VehicleSystem.HandleBleStatusChange | internal/core/system.go:876-904 | a disconnect starts the lock countdown, a reconnect ends it |
| VehicleSystem.VehicleSystem.ClearKeylessCountdown | internal/core/system.go:909-925 | back to the idle countdown |
| VehicleSystem.VehicleSystem.HandleSettingsUpdate | internal/core/redis_handlers.go:484-560 | a changed setting re-arms, zero cancels, a grace time is clamped |
| VehicleSystem.VehicleSystem.HandleLeverEdge | internal/core/system.go:1266-1336 | touch and brake write of a lever edge, and the event of the levers, sent exactly if the brake could be written |
| VehicleSystem.VehicleSystem.HandleKickstandEdge | internal/core/system.go:1192-1249 | touch, a new request when the stand goes down, and the event sent, or deferred right after a drive entry |
| VehicleSystem.VehicleSystem.StandDelayElapses | internal/core/system.go:1226-1240 | the deferred check sends the event exactly if the stand is read as down |
| StandDeferral.StepKeeps | internal/core/system.go:1205-1249 | a step loses the stand exactly when the deferred check does not read it as down |
| StandDeferral.RunKeeps | internal/core/system.go:1216-1217 | along every other run the last event sent is that of the last edge reported, or a check for it is outstanding |
| StandDeferral.BounceIsNotReported | internal/hardware/io.go:170-219 | a bounce shorter than the debounce is visible to the check and never reported by the line |
| StandDeferral.BounceLosesStand | internal/core/system.go:1229-1240 | met by the check it leaves the stand down, untold, and nothing outstanding |
| StandDeferral.LostStandStaysInDrive | internal/core/system.go:1217-1249 | from then on the vehicle stays in drive along every run without another edge of the stand, a dashboard that drops out, or a forced lock |
| VehicleSystem.VehicleSystem.CheckDriveStart | internal/core/drive_start.go:38-62 | the warning, exactly; and drive is asked for exactly when its guard would admit it |
| VehicleSystem.VehicleSystem.HandleAll | internal/core/system.go:1057-1360 | any sequence of stimuli is handled as the transition system runs |
| BlinkerProtocol.EveryRunIsOrderly | internal/core/system.go:1378-1392 | under every schedule at most one live worker, and a log ordered by turn, each turn speaking for one side |
| BlinkerProtocol.NextKeepsValid | internal/core/system.go:1405-1544 | every step of callers and workers keeps that |
| BlinkerProtocol.OneLiveWorker | internal/core/system.go:1533-1544 | at most one worker is alive |
| BlinkerProtocol.ShutdownSilences | internal/core/system.go:2210-2216 | a shutdown that has joined leaves nobody who could write |
| BlinkerProtocol.SilentForever | internal/core/system.go:2210-2216 | and nothing is played or published after it, whatever arrives |
| BlinkerProtocol.TurnDrains | internal/core/system.go:1378-1392 | no step lengthens a turn, and each step of the caller or of the worker it waits for shortens it |
| BlinkerProtocol.TurnNeverStuck | internal/core/system.go:1533-1544 | no deadlock: some shortening step is always possible, and a turn has at most twenty |
| BlinkerProtocol.RejectedChangesNothing | internal/core/redis_handlers.go:41-50 | an invalid request changes nothing; after shutdown no request is carried out |
| BlinkerProtocol.ScriptIsWritten | internal/core/system.go:1473-1530 | a turn whose writes succeed logs exactly its script, in order and for its side |
| BlinkerProtocol.SwitchesDecide | internal/core/system.go:1419-1445 | a side is lit exactly when its switch is on, an unreadable switch counting as remembered |
| BlinkerProtocol.PublishedMatchesLight | internal/core/system.go:1365-1371 | while a worker blinks and its publication went out, the last published side and the remembered one are the one it blinks |
| BlinkerCadence.RunBlinker | internal/core/system.go:1585-1682 | for arbitrary delays every decision lies within 33 ms after its grid point, grid points are multiples of 800 ms from the phase start, re-anchoring happens exactly after an overrun or a late wake, and the published phase start is within 33 ms of the true one |
| BlinkerCadence.NeverCatchesUp | internal/core/system.go:1603-1613 | n decisions take at least n intervals less one slack, so successive ones are at least 767 ms apart |
| BlinkerCadence.PhaseMovesForward | internal/core/system.go:1659-1664 | the phase moves forward only, exactly with an overrun or a late wake |
| BlinkerCadence.NoDrift | internal/core/system.go:1652-1682 | within one phase the n-th decision is n intervals on, give or take one slack |
| Debounce.RunReports | internal/hardware/io.go:170-219 | over every timed run reports alternate from the seed on, each is the last value fed, unchanged for its full wait, and with no newest timer outstanding the report is the last value fed |
| Debounce.StepKeepsValid | internal/hardware/io.go:196-219 | every operation keeps that |
| Debounce.ReportsAreSpaced | internal/hardware/io.go:196-219 | two reports are at least the later one's wait apart |
| Debounce.StaleTimersAreInert | internal/hardware/io.go:209-218 | only the newest generation reports |
| Debounce.CleanupDisarms | internal/hardware/io.go:745-755 | a timer armed before a cleanup reports nothing after it, whatever happens between |
| Debounce.CleanupSilences | internal/hardware/io.go:733-755 | a line no longer fed reports nothing |
| Debounce.KeyPartsFromRaw | internal/hardware/io.go:361-563 | the cached key and the last fed value part exactly by a repeat for a missed press, a resync of an unwatched line, or a direct read that finds a change |
| Debounce.ResyncRepairs | internal/hardware/io.go:361-409 | after a resync and its wait, key, fed and reported value are what the kernel said |
| HardwareInput.LinuxHardwareIO.constructor | internal/hardware/io.go:318-352 | the kernel's state at start counts as reported, and nothing does if it cannot be read |
| HardwareInput.LinuxHardwareIO.SetDebounce | internal/hardware/io.go:160-164 | sets one channel's duration |
| HardwareInput.LinuxHardwareIO.Deliver | internal/hardware/io.go:170-193 | records a value and invokes the callback exactly when it differs from the last report |
| HardwareInput.LinuxHardwareIO.DebounceInput | internal/hardware/io.go:195-219 | feeds one channel and touches no other |
| HardwareInput.LinuxHardwareIO.TimerFires | internal/hardware/io.go:209-218 | a callback delivers only as the newest generation |
| HardwareInput.LinuxHardwareIO.HandleKeyEvent | internal/hardware/io.go:465-503 | press and release are fed, repeats refresh the cache only, unknown keys are cached only |
| HardwareInput.LinuxHardwareIO.ResyncInputs | internal/hardware/io.go:367-411 | every known key is cached, every watched one fed again, and each callback invoked exactly when its report changed |
| HardwareInput.LinuxHardwareIO.ReadDigitalInputDirect | internal/hardware/io.go:532-564 | a direct read replaces the cached state of its channel and reports it to nobody |
| HardwareInput.LinuxHardwareIO.Cleanup | internal/hardware/io.go:745-755 | every debounced channel moves to a new generation |
| HardwareInput.AfterFits | internal/hardware/io.go:170-219 | a channel's entry in the maps follows its line, and a callback is invoked exactly when the line logs a report |
| HardwareInput.RunFits | internal/hardware/io.go:170-219 | over every run |
| HardwareInput.MapsSettle | internal/hardware/io.go:170-193 | with no newest timer outstanding the last report in the maps is the last value fed |
| Gestures.GestureState.OnChange | internal/core/input_gestures.go:49-117 | a press or release, with tap and double tap |
| Gestures.GestureState.OnLongTapTimer | internal/core/input_gestures.go:68-80 | the long-tap callback |
| Gestures.GestureState.OnHoldTimer | internal/core/input_gestures.go:82-93 | the hold callback |
| Gestures.GestureDetector.OnChange | internal/core/input_gestures.go:49-58 | one button's gestures never depend on another's |
| Gestures.GestureDetector.Stop | internal/core/input_gestures.go:130-136 | disarms the timers of every button and changes nothing else |
| Gestures.DoubleTapsPair | internal/core/input_gestures.go:94-117 | over every run, late callbacks included: two taps are spent on every double tap, which ends tap, press, release, tap within the window with nothing between, and every such unspent pair gets one |
| Gestures.StepKeepsTapping | internal/core/input_gestures.go:60-117 | every step keeps that |
| Gestures.StepKeepsGrammar | internal/core/input_gestures.go:60-117 | from a log in the grammar of press cycles one step leaves it exactly when a callback, late or not, meets a press with a long tap already reported, or with a hold before a long tap or after a hold |
| Gestures.RunLeavesGrammarExactly | internal/core/input_gestures.go:60-117 | the log of a run is out of the grammar exactly when some step was such a callback |
| Gestures.StepKeepsCycling | internal/core/input_gestures.go:68-93 | each timer goes on speaking once, for its own press, exactly until a late callback meets a press |
| Gestures.RunCyclesExactly | internal/core/input_gestures.go:60-117 | over a run each timer speaks once, for its own press, exactly when no late callback meets a press |
| Gestures.MeetingAPress | internal/core/input_gestures.go:68-93 | a late long tap that meets a fresh press stays in the grammar if the press is released first, and is the first of two long taps if it is held; a late hold is out of order at once |
| Gestures.ReleasedAsTheTimerRunsOut | internal/core/input_gestures.go:94-98 | a press released as its timer runs out, and pressed again: the log leaves the grammar |
| Gestures.AlternatingInputIsTaken | internal/hardware/io.go:170-193 | with any timers and late callbacks between alternating inputs, the button is pressed exactly when the last one said so, and none is dropped |
| Gestures.DebouncedInputIsTaken | internal/hardware/io.go:170-219 | fed from any run of a debounced line, the detector takes every report |
| Fade.Fade.Load | internal/led/fade.go:31-64 | duration and index of a curve |
| Fade.Fade.FindZeroPoints | internal/led/fade.go:66-96 | the index holds exactly the off instants, ascending, with its ends |
| Fade.Fade.IsZeroAt | internal/led/fade.go:115-126 | what the samples say at any time, negative and past the end included |
| Fade.Fade.NextZeroAfter | internal/led/fade.go:128-136 | the least off instant from a time on, or -1 if there is none |
| Fade.Fade.DutyAt | internal/led/fade.go:98-112 | between 0 and 1 for samples within the period, and 0 inside the curve exactly when it is off |
| Fade.IndexIsUnique | internal/led/fade.go:66-96 | the samples determine the index |
| Fade.NextZeroMeetsSamples | internal/led/fade.go:115-136 | from a lit instant to the next indexed zero, or the end, the curve is lit throughout, and at the zero it is off |
| CurveLibrary.Cue.CalculateDuration | internal/led/cue.go:100-112 | a cue lasts as long as its longest loaded curve |
| CurveLibrary.Cue.GetFadeIndices | internal/led/cue.go:115-129 | every referenced fade once, in order of first use |
| CurveLibrary.CurveLibrary.LoadFades | internal/led/loader.go:53-84 | numbered fades over those already loaded, a later file replacing an earlier one |
| CurveLibrary.CurveLibrary.LoadCues | internal/led/loader.go:86-118 | numbered cues over those already loaded, each with the length of its loaded curves |
| CurveLibrary.CurveLibrary.LoadFromDirs | internal/led/loader.go:38-51 | both; cues of an earlier load that are not loaded again stay as they were |
| CurveLibrary.CurveLibrary.GetCueNextZero | internal/led/loader.go:143-171 | the least off instant of any curve of the cue from a time on |
| CurveLibrary.CurveLibrary.IsCueAtZero | internal/led/loader.go:174-196 | whether all its curves are off |
| CurveLibrary.CurveLibrary.WaitForCueZeroOrEnd | internal/led/loader.go:199-233 | never negative nor past the end; none for an unknown, finished or dark cue; else until the least off instant of any curve, or the end |
| CurveLibrary.OneCurveWaitIsExact | internal/led/loader.go:199-233 | for a cue of one curve: off, or over, after the wait, and lit at every instant before |
| CurveLibrary.WaitIsDetermined | internal/led/loader.go:199-233 | the contract of the wait allows one value |
| CurveLibrary.WaitEndsDarkExactly | internal/led/loader.go:199-233 | a wait that ends before its cue leaves every curve dark exactly when the curves agree on their next off instant, or are over by then and end off |
| CurveLibrary.TwoCurvesMayEndLit | internal/led/loader.go:199-233 | with two curves that do not agree, whatever wait the contract allows ends while one is lit |

## Left out

- The state machine library is not part of this model. Its rules are taken from the comments in
  internal/fsm/definition.go and internal/core/fsm_actions.go: own rows before the parent's,
  least-common-ancestor entry and exit, exit before action before entry, callback last. Whether a
  transition to the same state enters it again is left to the environment, all guards of one
  dispatch see one reading, and restoring a state is entered like a transition from stand-by.
- A lever edge whose LED cue cannot be played returns before the brake is written; the model has no
  such edge.
- Steps run to completion. For the unlock and lever handlers, the ends of a map download and of an
  update, the update's watchdog and the countdown's handlers `Interleavings` has what happens when
  the machine moves between the handler's reading and its acting; whole runs of such steps, and
  the same window of the other handlers, are not modelled.
- The fields of the vehicle are grouped into records by concern instead of one field each.
- Redis writes other than state publication, halt command and restore marker are taken to succeed.
- Operator hardware commands, the horn, the seatbox latch, LED cues of entry actions, the modem and
  USB links, inhibitors, keycard counting and logging: they decide nothing that is proved here.
- Steering lock and unlock retries run as goroutines that check and pulse separately; only the lock
  sensor's value enters the gate.
- The cuts scheduled five seconds after a hold ends do not look at the state when they fire; the
  model counts them and lets them fire at any time.
- A heartbeat that resets the update watchdog only postpones the callback of the same generation;
  the model lets every armed callback run at any time, any number of times.
- The events that input handlers send are results of their methods; the transition system has them
  delivered at any later step, in any order.
- The publication of dashboard readiness is not deduplicated in the model; readiness itself is.
- Progress.ReachesStandby: timers ring on time, and the auto-standby setting is positive.
- BlinkerProtocol.NextKeepsValid: handlers and workers are steps of a transition system and not
  methods, because their interleaving is what is proved; the mutex itself is taken as given.
- BlinkerProtocol.EveryRunIsOrderly: the wait for an off instant before an off cue, and the
  dashboard LED, are not among the logged writes.
- BlinkerCadence.RunBlinker: brightness sampling between decisions is not modelled; clock readings
  never go back.
- HardwareInput.LinuxHardwareIO.Deliver: a callback runs outside the lock in the source; the model
  orders callbacks as their values were recorded.
- Gestures.RunCyclesExactly: of one press the long-tap callback, due first, runs before the hold
  callback.
- Fade.Fade.Load: reading and decoding the file is left out, as are the names in file names.
- The index of a sample is an unbounded integer; the source truncates it to the machine's width.
