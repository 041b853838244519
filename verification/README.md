# Verification of the power manager's state machine

This project models the power state machine of the service and the pieces that its guarantees
depend on, and proves their behaviour over all inputs, all runs and all interleavings.

| file | what it models |
|---|---|
| `PowerTypes.dfy` | shared enumerations |
| `FfrtTimer.dfy` | `FFRTTimer`: one delayed task per timer id over a task queue |
| `StateEngine.dfy` | one request to the state machine, as functions on values |
| `PowerStateMachine.dfy` | the state machine object; each method equals a function on values |
| `RequestLaws.dfy` | what one request can do, and display self-stabilisation |
| `RequestAnswers.dfy` | the exact answer and effect of every request, in plain terms |
| `MachineRuns.dfy` | runs: forbidden paths, timeouts, refreshes, running locks |
| `PreBrightProtocol.dfy` | the two-stage authentication protocol over runs |
| `Timeouts.dfy` | stale timer tasks, and when an idle device dims and turns off |
| `Hibernation.dfy` | the hibernate sequence with restore and rollback |
| `ScreenOffTime.dfy` | overriding and restoring the screen-off time |
| `DimInterrupt.dfy` | a DIM request interleaved with lock-free timer resets |
| `UlsrWaiter.dfy` | the task that waits for an ultra-low-power result |
| `ScreenOffBlocks.dfy` | screen-off blocks, death recipients, the filtering calls |
| `RecoverJson.dfy` | saving and reading the map of settings to recover |
| `ModePolicy.dfy` | the three maps of the power-mode policy |
| `PowerMode.dfy`, `PowerModeService.dfy` | power modes and sub-modes, on values and as objects |
| `ModeRuns.dfy` | runs of mode calls, changes and restarts |
| `SettingsRecovery.dfy` | the user's settings over such runs |

The imperative parts are classes whose methods are proved equal to functions on values: a
method's `ensures` says that the abstract value afterwards is the function of the abstract value
before. The laws are lemmas about those functions and about runs of them.

## Assumptions

- A display call succeeds or fails as its surroundings decide, and sets the display only on
  success; a display may also drift by itself in a run.
- Handling and cancelling an event of the suspend controller arm and cancel the screen-off timer;
  starting a sleep timer is counted and not followed further.
- Each submission to a task queue gives out a new handle. A task that has started keeps its
  stored handle until the timer is set or cancelled.
- The number of valid running locks of a type is a given number.
- The settings are a map of stored values. A setting watched by an observer is reported to it when
  its stored value changes.
- Screen decoupling, takeover of suspend and the external screen are off; the S4 build is assumed
  where a theorem says so, other build flags and product parameters are fields of `Build`.
- The preparation of a hibernation finishes within its time limit, and nothing else changes the
  state meanwhile.
- JSON text is a list of members, each with its key and, if it is a number, its number.

## Results that differ from what one might expect

- A refresh that runs its compare-exchange just before a DIM request sets the flag, and cancels the
  screen-off timer just after the request armed it, leaves the device in DIM with no screen-off
  timer (`MissedRefreshLeavesDim`; `ScreenOffTimerLost` gives the exact condition). Left alone, the
  device then stays dimmed for ever: the inactivity timer asks for DIM again, which the tables refuse
  (`StuckInDim`).
- In a build without deferral, a new setting that equals the overriding time is overlooked, and
  restoring brings the older time back (`OverlookedSetting`, `RestoreGivesLatestSettingIff`).
- If the last display call of a hibernate sequence fails, the device stays in HIBERNATE
  (`SequenceEnds`).
- A client's death clears a block that another client has taken over, and a client that dies
  between the two halves of its call leaves its block behind (`DeathClearsTheNextHoldersBlock`,
  `DeathInsideACallLeavesTheBlock`; `DeathClearsByHistory` gives the exact condition).
- Where `long` has 32 bits, keys of 2^31 and above are lost on reading (`RecoverMapRoundTrip`).
- A change by hand while the setting is not watched, as after a restart in a saving mode or in
  custom power save, is undone by the next mode that does not list the setting, if a value waits to
  be recovered (`UnwatchedChangeIsUndone`, `ChangeAfterRestartIsLost`, `ChangeInCustomModeIsLost`;
  `ManualChangeIsKept` gives the exact condition).
- The configuration file shipped with the service flags nothing as recoverable, so a user's choice is
  lost by switching modes (`ShippedConfigurationLosesRotation`; `SparedByConfiguration` gives the exact
  condition).
- Without any configuration file, values that were once switched back are stored again by every mode
  change (`UnconfiguredModeOverwrites`).
- Entering the extreme mode announces the sub-mode of before, and a power failure between saving the
  mode and the sub-mode can start the device without a sub-mode
  (`EnteringExtremeAnnouncesNoSubMode`, `PowerFailureBetweenModeAndSubMode`).

## Model

| member | source | states |
|---|---|---|
| `RequestLaws.RequestOutline` | services/native/src/power_state_machine.cpp:2242-2297 | A request commits exactly its target and only if the tables, the allow-by-reason map and the running locks admit it; otherwise the power state is the reconciled one, and a stale timeout leaves the whole machine alone; the setting flag is clear afterwards |
| `RequestLaws.AdmitOutline` | services/native/src/power_state_machine.cpp:2676-2713 | The checks of a transition change neither power state nor display, and passing them means that no table or lock objects |
| `RequestLaws.MatchStateSettles` | services/native/src/power_state_machine.cpp:2769-2801 | Reconciliation is idempotent, repairs every disagreement of display and power state unless it is told to skip, and leaves agreeing states alone |
| `RequestLaws.ActionDisplay` | services/native/src/power_state_machine.cpp:342-425 | What each state's action leaves on the display when it succeeds and when it fails |
| `RequestLaws.RequestDisplay` | services/native/src/power_state_machine.cpp:2242-2297 | A request that may not commit does not touch the display; any other leaves what its action leaves |
| `RequestLaws.RequestsRestoreAgreement` | services/native/src/power_state_machine.cpp:2676-2730 | Display self-stabilisation: from any state and any display, after a request to AWAKE, INACTIVE or DIM (committed, refused, failed or interrupted) display and power state agree, iff it is not a committed pre-bright authentication failure that turns the screen off |
| `RequestLaws.AgreementKept` | services/native/src/power_state_machine.cpp:2676-2801 | Once display and state agree, every request keeps them so, except for that same one |
| `RequestLaws.CallersView` | services/native/src/power_state_machine.cpp:2242-2297 | A stale task changes nothing; after any other request the flag is clear and display and state agree, with the one exception; who is answered yes finds the machine in the requested state |
| `RequestAnswers.StartsFrom` | services/native/src/power_state_machine.cpp:2769-2801 | The state a request starts from, state by state: off corrects AWAKE to INACTIVE, dimmed and on correct INACTIVE to DIM and AWAKE, nothing else is corrected |
| `RequestAnswers.AnsweredAsExpected` | services/native/src/power_state_machine.cpp:2242-2297 | The exact answer to every request in every state of a device in use, in the order of the source: stale task, already there, closed move, sensor, lock, protocol, action; in pairs of states, lock counts and stored handles |
| `RequestAnswers.DoneAsExpected` | services/native/src/power_state_machine.cpp:2676-2730 | The exact effect of every request: state, listeners told, display, protocol, every pending timer with its due time, flag and sleep timers started; a stopped request changes nothing else |
| `RequestAnswers.DimTimeTable` | services/native/src/power_state_machine.cpp:1998-2013 | A fifth of the screen-off time, at most 7500 ms, or what a long time leaves beyond the active time |
| `RequestAnswers.InactiveDeviceSleeps` | services/native/src/power_state_machine.cpp:164-190 | An INACTIVE device enters SLEEP for the system or for its sleep timer's current task, unless a coordination lock holds it and the request is not forced |
| `RequestAnswers.SystemMoves` | services/native/src/power_state_machine.cpp:139-162 | Fourteen ordinary moves between states that a forced system request makes, with the display each leaves |
| `RequestAnswers.ActivityLightsUp` | services/native/src/power_state_machine.cpp:789-791 | Touching a dimmed screen ends AWAKE with the display on and the inactivity timer pending for the active time |
| `RequestAnswers.ActivityRearms` | services/native/src/power_state_machine.cpp:792-797 | Touching a screen that is on starts the inactivity time anew and changes nothing else |
| `RequestAnswers.ActivityWhileDimming` | services/native/src/power_state_machine.cpp:789-791 | Touching the screen while DIM is being set asks for AWAKE |
| `RequestAnswers.ActivityIgnored` | services/native/src/power_state_machine.cpp:780-800 | A dark screen, or one being turned off, is not touched |
| `RequestAnswers.ResetInterrupts` | services/native/src/power_state_machine.cpp:1536-1539 | Starting the inactivity time anew interrupts a DIM that is being set, unless it is for coordination |
| `RequestAnswers.WakeDoesAsExpected` | services/native/src/power_state_machine.cpp:639-691 | A pre-bright wakeup: which timers it stops, that it is a forced request for AWAKE, and when it starts a sleep timer |
| `PowerStateMachine.StateMachine.SetState` | services/native/src/power_state_machine.cpp:2242-2297 | The method on the fields does what the request function on values does; answered true, the machine is in the requested state; afterwards the flag is clear and display and state agree, or the task was stale and nothing changed |
| `PowerStateMachine.StateMachine.TransitTo` | services/native/src/power_state_machine.cpp:2676-2730 | The transition on the fields: reconcile, check, act, commit and notify, equal to the function on values |
| `PowerStateMachine.StateMachine.CanTransitTo` | services/native/src/power_state_machine.cpp:231-274 | Both tables, the sensor conditions and the proximity lock; a refused wakeup of a sleeping device starts a sleep timer |
| `PowerStateMachine.StateMachine.CheckRunningLock` | services/native/src/power_state_machine.cpp:1816-1854 | The loop over the blocking lock types finds a state free iff no screen lock holds DIM or INACTIVE and no coordination lock holds SLEEP |
| `PowerStateMachine.StateMachine.HandlePreBrightState` | services/native/src/power_state_machine.cpp:2152-2200 | The three branches of the pre-bright gate on state and authentication timer |
| `PowerStateMachine.StateMachine.AwakeAction` | services/native/src/power_state_machine.cpp:342-379 | The AWAKE action on the fields |
| `PowerStateMachine.StateMachine.InactiveAction` | services/native/src/power_state_machine.cpp:391-425 | The INACTIVE action on the fields |
| `PowerStateMachine.StateMachine.DimAction` | services/native/src/power_state_machine.cpp:478-515 | The DIM action on the fields, with a refresh's compare-exchange before the look at the flag |
| `PowerStateMachine.StateMachine.ResetInactiveTimer` | services/native/src/power_state_machine.cpp:1533-1569 | Compare-exchange of the flag, cancelling both activity timers, arming the inactivity timer |
| `PowerStateMachine.StateMachine.MatchState` | services/native/src/power_state_machine.cpp:2769-2801 | Reconciliation on the field |
| `PowerStateMachine.StateMachine.CheckFFRTTaskAvailability` | services/native/src/power_state_machine.cpp:2202-2234 | A timeout task is available iff it is the stored task of the timer for its state (or, in the charging-type build, of the auto-sleep timer) |
| `PowerStateMachine.StateMachine.RefreshActivityInner` | services/native/src/power_state_machine.cpp:773-801 | User activity on the fields: a dimmed screen lights up, a lit one keeps its state, both with the inactivity timer armed anew; a dark device stays dark |
| `PowerStateMachine.StateMachine.HandlePreBrightWakeUp` | services/native/src/power_state_machine.cpp:639-691 | A pre-bright wakeup from a client or from the timer on the fields: sleep timers stopped, authentication timer stopped by a result, then the request |
| `PowerStateMachine.StateMachine.OverrideScreenOffTimeInner` | services/native/src/power_state_machine.cpp:814-824 | Override on the fields: the time before the first override is remembered |
| `PowerStateMachine.StateMachine.RestoreScreenOffTimeInner` | services/native/src/power_state_machine.cpp:826-836 | Restore on the fields |
| `PowerStateMachine.StateMachine.DisplayOffTimeUpdateFunc` | services/native/src/power_state_machine.cpp:1900-1939 | A changed setting on the fields, deferred during an override in the charging-type build |
| `PowerStateMachine.StateMachine.PrepareHibernate` | services/native/src/power_state_machine.cpp:898-947 | Preparation on the fields |
| `PowerStateMachine.StateMachine.RollbackHibernate` | services/native/src/power_state_machine.cpp:1006-1037 | Rollback on the fields and the events it publishes |
| `PowerStateMachine.StateMachine.RestoreHibernate` | services/native/src/power_state_machine.cpp:983-1004 | Restore on the fields and the event it publishes |
| `PowerStateMachine.StateMachine.HibernateInner` | services/native/src/power_state_machine.cpp:1039-1089 | The whole sequence on the fields, with takeover and the refusal of a second request |
| `MachineRuns.ForbiddenPaths` | services/native/src/power_state_machine.cpp:139-162 | No event ever commits SLEEP from AWAKE or DIM, nor from HIBERNATE in the S4 build, nor DIM from INACTIVE or SLEEP after reconciliation |
| `MachineRuns.SleepOnlyThroughInactive` | services/native/src/power_state_machine.cpp:2676-2730 | On every run of the S4 build, with any display drift, a device that goes from AWAKE, DIM or HIBERNATE to SLEEP is INACTIVE in between |
| `MachineRuns.CurrentAfter` | services/native/src/power_state_machine.cpp:2769-2801 | Besides commits, only reconciliation changes the power state, and only between AWAKE and INACTIVE or upwards from INACTIVE |
| `MachineRuns.TimeoutLowersRank` | services/native/src/power_state_machine.cpp:164-190 | A committed timeout is strictly below the state it starts from, even when timing out is forced |
| `MachineRuns.TimeoutsTerminate` | services/native/src/power_state_machine.cpp:164-190 | A run of timeouts alone commits at most rank-many transitions, hence at most three |
| `MachineRuns.RefreshNeverWakes` | services/native/src/power_state_machine.cpp:164-190 | A refresh commits AWAKE only from DIM or AWAKE |
| `MachineRuns.RefreshesNeverWakeOverRuns` | services/native/src/power_state_machine.cpp:773-801 | On every run in which only refreshes ask for AWAKE and the display does not drift, a device that is INACTIVE or asleep never wakes or dims |
| `MachineRuns.LocksBlock` | services/native/src/power_state_machine.cpp:2269-2286 | A commit of DIM or INACTIVE under a screen lock, or of SLEEP under a coordination lock, is by a forced request or by a timeout while timing out is forced |
| `MachineRuns.LocksHoldOverRuns` | services/native/src/power_state_machine.cpp:95-114 | While a screen lock is held and nothing is forced, no event of any run commits DIM or INACTIVE, and none commits SLEEP under a coordination lock |
| `PreBrightProtocol.InStepOverRuns` | services/native/src/power_state_machine.cpp:2152-2200 | On every run an authentication result is awaited exactly while the authentication timer is armed |
| `PreBrightProtocol.StartedAfter` | services/native/src/power_state_machine.cpp:2152-2200 | A result is accepted only while one is awaited, then none is awaited; only a start makes one awaited |
| `PreBrightProtocol.ResultsNeverExceedStarts` | services/native/src/power_state_machine.cpp:639-691 | Accepted results never outnumber starts |
| `PreBrightProtocol.FreshStartBetweenResults` | services/native/src/power_state_machine.cpp:639-691 | Between two accepted results there is a fresh start |
| `PreBrightProtocol.LateResultCommitsNothing` | services/native/src/power_state_machine.cpp:2711-2713 | A late or duplicate result, or a timeout after the protocol is over, is answered with the pre-bright error and commits nothing |
| `Timeouts.StaleTimeoutIsHarmless` | services/native/src/power_state_machine.cpp:2202-2255 | A timeout request passes the availability check iff its timer was neither set nor cancelled since its task was armed; otherwise it changes nothing at all |
| `Timeouts.ActiveTimeMonotone` | services/native/src/power_state_machine.cpp:1998-2013 | The dim time lies within the screen-off time, the active time grows with it, and a long dim caps it |
| `Timeouts.IdleDeviceTurnsOffOnTime` | services/native/src/power_state_machine.cpp:478-515 | From activity at t0 without blocking locks the device is asked for DIM at t0 + off - dim and for INACTIVE at exactly t0 + off, even when the dim display call fails |
| `Timeouts.CommittedTimersFit` | services/native/src/power_state_machine.cpp:342-515 | After a committed request the activity timers fit the state: AWAKE has only the inactivity timer, due after the active time, DIM only the screen-off timer, due after the dim time, INACTIVE neither |
| `FfrtTimer.ApplyRefines` | utils/ffrt/src/ffrt_utils.cpp:99-168 | Every operation on handles and queue is the same operation on a map with one pending task per id |
| `FfrtTimer.QueueHoldsOnlyStoredTasks` | utils/ffrt/src/ffrt_utils.cpp:99-168 | After any operations each waiting task is the handle stored for its id and the pending task of that id |
| `FfrtTimer.DelayIsTruncated` | utils/ffrt/src/ffrt_utils.cpp:123-132 | A delay is passed as 32 bits: one that fits is kept, any other loses its upper bits |
| `FfrtTimer.LatestTask` | utils/ffrt/src/ffrt_utils.cpp:123-147 | An armed task's handle is the stored one iff its id was neither set nor cancelled since, and is never stored for another id |
| `FfrtTimer.FFRTTimer.SetTimer` | utils/ffrt/src/ffrt_utils.cpp:123-132 | Cancel what is stored for the id, submit a task, store its handle, count up with 32-bit wrap-around |
| `FfrtTimer.FFRTTimer.CancelTimer` | utils/ffrt/src/ffrt_utils.cpp:116-121 | Cancel what is stored for the id |
| `FfrtTimer.FFRTTimer.CancelAllTimerInner` | utils/ffrt/src/ffrt_utils.cpp:150-159 | The loop cancels every stored task and nothing else |
| `FfrtTimer.FFRTTimer.Clear` | utils/ffrt/src/ffrt_utils.cpp:99-107 | Every task is cancelled and all counts are dropped |
| `Hibernation.PrepareEnds` | services/native/src/power_state_machine.cpp:898-947 | Preparation ends in HIBERNATE whatever the display calls do, unless an account or parameter step fails |
| `Hibernation.SequenceEnds` | services/native/src/power_state_machine.cpp:1039-1089 | From any state in use and whatever fails: success ends AWAKE and a rollback without shutdown ends INACTIVE iff the last display call succeeds; a sleep timer is started iff the device was asleep and rolls back; one enter event, one exit event unless shutdown |
| `Hibernation.FlagClearedEventsPaired` | services/native/src/power_state_machine.cpp:983-1089 | Every return path clears the hibernating flag and pairs the enter event with one exit event or one shutdown |
| `Hibernation.TurnedAway` | services/native/src/power_state_machine.cpp:1055-1066 | A request while another one is under way, and one that is taken over, change and publish nothing |
| `Hibernation.EventsPairedOverRuns` | services/native/src/power_state_machine.cpp:983-1089 | On every run of one machine, hibernate requests among any other events, the hibernating flag is clear between requests, enter events are paired with exit events or shutdowns, and there is one enter event per request that is not taken over |
| `ScreenOffTime.MachineTimes` | services/native/src/power_state_machine.cpp:814-836 | On the whole machine the three times change as the override functions say |
| `ScreenOffTime.RestoreGivesLatestSetting` | services/native/src/power_state_machine.cpp:814-836 | After any number of nested overrides, restoring gives the time before the first one, or in the charging-type build the latest setting |
| `ScreenOffTime.RestoreGivesLatestSettingIff` | services/native/src/power_state_machine.cpp:1900-1939 | In every build, restoring gives the latest setting iff it was deferred, differed from the time in effect, or equalled the remembered time |
| `ScreenOffTime.OverlookedSetting` | services/native/src/power_state_machine.cpp:1924-1933 | The input for which restoring gives an older setting in a build without deferral |
| `ScreenOffTime.NewTimeStartsAnew` | services/native/src/power_state_machine.cpp:1874-1898 | Overriding, restoring and a setting that takes effect start the inactivity time of an AWAKE device anew with the new time, and change nothing else |
| `DimInterrupt.InterruptedDim` | services/native/src/power_state_machine.cpp:478-515 | On every interleaving of a DIM request with any number of lock-free timer resets, once all are done: a compare-exchange won before the look leaves the state, the display on, the inactivity timer armed, the screen-off timer not; otherwise DIM is set as if alone, its screen-off timer is armed iff no caller cancelled it after it was armed, and without callers the inactivity timer is not |
| `DimInterrupt.FlagClearWhenMutexFree` | services/native/include/power_state_machine.h:338-368 | Whenever nobody holds the state mutex the flag is clear |
| `DimInterrupt.CoordinationIsNeverInterrupted` | services/native/include/power_state_machine.h:338-368 | A DIM for coordination is never interrupted |
| `DimInterrupt.InterleavingsRefineOneStep` | services/native/src/power_state_machine.cpp:1533-1569 | Every interleaving ends as the engine's one-step request does, given whether a caller got in before the look |
| `DimInterrupt.ScreenOffTimerLost` | services/native/src/power_state_machine.cpp:1533-1542 | An uninterrupted request ends without its screen-off timer iff a refresh whose compare-exchange fell before the flag was set or after the look cancelled it; every refresh after the look does |
| `DimInterrupt.DimAgainIsRefused` | services/native/src/power_state_machine.cpp:1674-1678 | For a device in DIM the inactivity timer's request is stale or forbidden and changes nothing but the flag |
| `DimInterrupt.StuckInDim` | services/native/src/power_state_machine.cpp:164-190 | Left alone, a device in DIM without a screen-off timer stays there on every run |
| `DimInterrupt.MissedRefreshLeavesDim` | services/native/src/power_state_machine.cpp:793-796 | The window the source calls not guaranteed: an interleaving after which the device is in DIM without a screen-off timer, while the tables refuse what the inactivity timer asks for |
| `UlsrWaiter.WaiterIsExclusive` | services/native/src/power_mgr_service.cpp:2283-2334 | For any callers, at most one waiting task is in flight, and the flag is set exactly while one caller past the compare-exchange or one task owns it |
| `UlsrWaiter.EveryWinIsSettled` | services/native/src/power_mgr_service.cpp:2283-2334 | Each won compare-exchange ends in exactly one early exit or one notification, and the flag is free again |
| `UlsrWaiter.CallerNotifiesOnce` | services/native/src/power_mgr_service.cpp:2283-2334 | From a free flag, with a holder in the ENTER stage, a caller's task tells the callbacks exactly once whether the result says success, and frees the flag |
| `UlsrWaiter.TaskNotifiesOnce` | services/native/src/power_mgr_service.cpp:2329-2333 | A task that reads the result notifies once, with true iff the result is success |
| `UlsrWaiter.WithoutHolderGivesUp` | services/native/src/power_mgr_service.cpp:2297-2301 | Without a callback holder the caller gives up and frees the flag |
| `UlsrWaiter.OutsideEnterGivesUp` | services/native/src/power_mgr_service.cpp:2302-2307 | In any other stage the caller gives up and frees the flag |
| `ScreenOffBlocks.BlockTable.IsScreenOffBlocked` | services/native/src/power_state_machine.cpp:1364-1374 | A type is blocked iff it maps to a token that is not null |
| `ScreenOffBlocks.BlockTable.UpdateScreenOffBlock` | services/native/src/power_state_machine.cpp:1376-1383 | The type maps to the token, other types stay |
| `ScreenOffBlocks.BlockTable.RemoveScreenOffBlock` | services/native/src/power_state_machine.cpp:1385-1391 | The type is erased, other types stay |
| `ScreenOffBlocks.BlockTable.RunCallback` | services/native/src/power_mgr_service.cpp:3306-3319 | Each of the three callbacks removes the blocks of its own type and no others |
| `ScreenOffBlocks.WholeCallIs` | services/native/src/power_mgr_service.cpp:3320-3339 | A service call without anything in between is the run model's two halves, and leaves every client covered |
| `ScreenOffBlocks.DeathRecipientManager.AddDeathRecipient` | services/native/src/death_recipient_manager.cpp:34-51 | Null tokens and local objects are ignored; otherwise the callback joins the token's set |
| `ScreenOffBlocks.DeathRecipientManager.OnRemoteDied` | services/native/src/death_recipient_manager.cpp:23-32 | Exactly the token's callbacks are run once each and its entry is erased, as the run model's death does; a covered remote client then holds no block on the objects |
| `ScreenOffBlocks.DeathRecipientManager.RemoveDeathRecipient` | services/native/src/death_recipient_manager.cpp:67-82 | The loop over the callbacks removes exactly the blocks of the types they clear |
| `ScreenOffBlocks.DeathRecipientManager.RemoveDeathRecipientObj` | services/native/src/death_recipient_manager.cpp:84-95 | The entry is erased and nothing is run |
| `ScreenOffBlocks.PowerMgrService.SetPowerKeyFilteringStrategy` | services/native/src/power_mgr_service.cpp:3291-3340 | Strategy 2 writes the block and 3 erases it, both register; 0 and 1 only touch the shutdown dialog; others do nothing; a whole call of the run model, which keeps clients covered |
| `ScreenOffBlocks.PowerMgrService.SetLidFilteringStrategy` | services/native/src/power_mgr_service.cpp:3423-3468 | Strategy 1 writes the block, 0 erases it, both register, others are refused; a whole call of the run model, which keeps clients covered |
| `ScreenOffBlocks.PowerMgrService.SetInterfaceCallFilteringStrategy` | services/native/src/power_mgr_service.cpp:3470-3516 | Strategy 1 writes the block, 0 erases it, both register, others are refused; a whole call of the run model, which keeps clients covered |
| `ScreenOffBlocks.BlocksAreCovered` | services/native/src/power_mgr_service.cpp:3306-3338 | On every run, with calls cut in two halves, a remote client's block has its clearing callback registered under that client or the call is still in flight |
| `ScreenOffBlocks.NoBlockOutlivesItsClient` | services/native/src/death_recipient_manager.cpp:23-82 | Once the death of a remote client with no call in flight is handled, it holds no block, whatever others do later |
| `ScreenOffBlocks.DeathClears` | services/native/src/death_recipient_manager.cpp:67-82 | A handled death removes the block of a type iff the dead client registered that type's callback, whoever holds the block |
| `ScreenOffBlocks.RegisteredSinceCall` | services/native/src/death_recipient_manager.cpp:34-95 | On every run a remote client's callback is registered iff it completed a call on that type since its last death or withdrawal |
| `ScreenOffBlocks.DeathClearsByHistory` | services/native/src/death_recipient_manager.cpp:67-82 | A handled death removes the block of a type, whoever holds it, iff the dead client completed a call on that type since its last death or withdrawal |
| `ScreenOffBlocks.CallbacksRunOncePerRegistration` | services/native/src/death_recipient_manager.cpp:34-82 | On every run each callback has been run exactly as often as it was newly registered, less the registration that stands |
| `ScreenOffBlocks.RepeatedNoticesDoNothing` | services/native/src/death_recipient_manager.cpp:67-82 | A notice runs each registered callback once; further notices run none again |
| `ScreenOffBlocks.DeathClearsTheNextHoldersBlock` | services/native/src/power_mgr_service.cpp:3443-3466 | The input for which a death clears a block that a living client has taken over |
| `ScreenOffBlocks.DeathInsideACallLeavesTheBlock` | services/native/src/power_mgr_service.cpp:3459-3466 | The input for which a death between the two halves of a call leaves the block behind |
| `RecoverJson.ParseRecoverJson` | services/native/src/power_mode_policy.cpp:82-122 | The loop with its skips equals the function that reads the members; anything but an object or array is an error and changes nothing |
| `RecoverJson.SavePowerModeRecoverMap` | services/native/src/power_mode_policy.cpp:229-254 | The loop writes one member per entry, by ascending keys |
| `RecoverJson.AcceptedKeys` | services/native/src/power_mode_policy.cpp:102-117 | A key is accepted iff it is white space, a sign and digits, and its number fits where long has 32 bits |
| `RecoverJson.NumbersSaturate` | services/native/src/power_mode_policy.cpp:118-119 | A number beyond 32 bits is read as the nearest bound |
| `RecoverJson.KeyRoundTrip` | services/native/src/power_mode_policy.cpp:102-119 | A written key is read back through the signed cast, unless long has 32 bits and the key needs all of them |
| `RecoverJson.RecoverMapRoundTrip` | services/native/src/power_mode_policy.cpp:82-122 | What is saved and read into an empty map is the map of the surviving keys; it is the same map iff long has 64 bits or all keys are below 2^31 |
| `RecoverJson.SkippedMembersDoNotMatter` | services/native/src/power_mode_policy.cpp:97-117 | Reading is the same with all skipped members left out |
| `RecoverJson.KeptAreAccepted` | services/native/src/power_mode_policy.cpp:97-117 | Exactly the members that are numbers under an accepted key are kept |
| `ModePolicy.PowerModePolicy.UpdatePowerModePolicy` | services/native/src/power_mode_policy.cpp:51-56 | The three maps after an update, and the saved text, in terms of the maps and settings before |
| `ModePolicy.PowerModePolicy.ReadPowerModePolicy` | services/native/src/power_mode_policy.cpp:124-141 | The loop over a mode's lines; an empty configuration keeps the maps |
| `ModePolicy.PowerModePolicy.ComparePowerModePolicy` | services/native/src/power_mode_policy.cpp:58-69 | Values to recover stay for settings that the mode switches, and are switched back to otherwise |
| `ModePolicy.PowerModePolicy.GetSettingSwitchState` | services/native/src/power_mode_policy.cpp:153-184 | The stored value of a recoverable setting, none if it is not valid |
| `ModePolicy.PowerModePolicy.RemoveBackupMapSettingSwitch` | services/native/src/power_mode_policy.cpp:219-227 | The entry goes and the map is saved, only if it was there |
| `ModePolicy.PowerModePolicy.InitRecoverMap` | services/native/src/power_mode_policy.cpp:71-80 | The saved members are read, or nothing changes |
| `ModePolicy.BackupsAreFlagged` | services/native/src/power_mode_policy.cpp:133-140 | A mode backs up exactly what it flags, with the stored value where that is valid and zero otherwise |
| `ModePolicy.UpdateIsIdempotentOnRecover` | services/native/src/power_mode_policy.cpp:51-69 | A second update for the same mode changes nothing in the map of values to recover, whatever became of the settings |
| `PowerModeService.PowerModeModule.InitPowerMode` | services/native/src/power_mode_module.cpp:80-111 | Starting from saved settings on the fields |
| `PowerModeService.PowerModeModule.SetModeItem` | services/native/src/power_mode_module.cpp:156-194 | Setting a mode on the fields, with its error answers in the source's order |
| `PowerModeService.PowerModeModule.SetModeAndSubModeItem` | services/native/src/power_mode_module.cpp:203-225 | Setting mode and sub-mode on the fields |
| `PowerModeService.PowerModeModule.EnableMode` | services/native/src/power_mode_module.cpp:368-392 | Update, announce, act, save on the fields |
| `PowerModeService.PowerModeModule.RunAction` | services/native/src/power_mode_module.cpp:574-646 | The actions one after the other write exactly the observed settings that the mode switches, sparing stored ones when booting |
| `PowerModeService.PowerModeModule.SettingUpdateFunc` | services/native/src/power_mode_module.cpp:276-285 | The observer's update function on the fields |
| `PowerModeService.PowerMgrService.SetDeviceMode` | services/native/src/power_mgr_service.cpp:2419-2441 | The service call without sub-mode, the extreme mode taking the emergency sub-mode |
| `PowerModeService.PowerMgrService.SetDeviceModeAndSubMode` | services/native/src/power_mgr_service.cpp:2454-2482 | The service call with sub-mode and its error answers |
| `ModeRuns.ModeSet` | services/native/src/power_mode_module.cpp:156-194 | What a successful change to another mode does to mode, sub-mode, announcements and what is saved, and that settings are watched afterwards iff the mode is 601 or 603 |
| `ModeRuns.SavedModes` | services/native/src/power_mode_module.cpp:83-97 | The mode and sub-mode read from the settings, with what stands in for missing and unknown values |
| `ModeRuns.ExtremeModeSet` | services/native/src/power_mgr_service.cpp:2437-2440 | The extreme mode sets and saves the emergency sub-mode, or the one it is called with |
| `ModeRuns.ModeAnswers` | services/native/src/power_mgr_service.cpp:2419-2441 | The exact answer of the service call by mode numbers, and that a refused call changes nothing |
| `ModeRuns.SubModeAnswers` | services/native/src/power_mgr_service.cpp:2454-2482 | The exact answer of the call with sub-mode, and that a refused call changes nothing |
| `ModeRuns.RulesHoldOverRuns` | services/native/src/power_mode_module.cpp:148-225 | On every run of calls, changes and restarts the mode is EXTREME iff there is a sub-mode, and a restart reproduces both |
| `ModeRuns.StartObeysTheRules` | services/native/src/power_mode_module.cpp:80-97 | Starting obeys the rules iff the extreme mode was not saved together with the invalid sub-mode |
| `ModeRuns.PerformanceOnlyThroughNormal` | services/native/src/power_mode_module.cpp:73-78 | Every run from a power-saving mode to PERFORMANCE goes through NORMAL |
| `ModeRuns.PowerFailureBetweenModeAndSubMode` | services/native/src/power_mode_module.cpp:203-225 | A power failure between saving mode and sub-mode breaks the rules at the next start iff the invalid sub-mode had been saved before |
| `ModeRuns.EnteringExtremeAnnouncesNoSubMode` | services/native/src/power_mode_module.cpp:203-225 | Entering the extreme mode announces the invalid sub-mode and not the new one; changing the sub-mode announces it |
| `SettingsRecovery.SparedIsKept` | services/native/src/power_mode_policy.cpp:58-69 | Comparing and running the actions keep the user's value iff the maps that were read spare it |
| `SettingsRecovery.SparedByConfiguration` | services/native/src/power_mode_policy.cpp:124-141 | With a configuration, that is seen beforehand in the mode's lines: unless nothing waits, and the mode switches the setting to another value without flagging it |
| `SettingsRecovery.ModeChangeKeeps` | services/native/src/power_mode_module.cpp:156-194 | A mode switch keeps the user's value iff it is spared, and what is stored and waits afterwards |
| `SettingsRecovery.RestartKeeps` | services/native/src/power_mode_module.cpp:80-111 | A restart keeps the user's value iff it is spared, whether or not the mode is switched on anew |
| `SettingsRecovery.ManualChangeIsKept` | services/native/src/power_mode_module.cpp:276-285 | A real change by hand belongs to the user from then on iff the setting is watched, nothing waits to be recovered, or it is the value that waits |
| `SettingsRecovery.EventKeeps` | services/native/src/power_mode_module.cpp:156-225 | Every call, change and restart keeps the value that is the user's after it iff a condition on the state before it holds |
| `SettingsRecovery.SettingsAreRecovered` | services/native/src/power_mode_policy.cpp:51-69 | In any configuration and over any run, the user's latest value waits to be recovered or is stored all the time iff the start and every event spare it; then a mode that does not switch the setting stores it |
| `SettingsRecovery.FlaggedSettingsAreSpared` | services/native/src/power_mode_policy.cpp:124-141 | If every mode that lists the setting flags it, mode switches, restarts and watched changes always spare the user's value |
| `SettingsRecovery.UnflaggedModeOverwrites` | services/native/src/power_mode_policy.cpp:133-140 | A mode that switches a setting without flagging it stores its own value, and nothing waits to be recovered |
| `SettingsRecovery.UnconfiguredModeOverwrites` | services/native/src/power_mode_policy.cpp:127-130 | Without any configuration, a value once switched back is stored again by every later mode change, over the user's choice |
| `SettingsRecovery.ShippedConfigurationLosesRotation` | services/native/profile/power_mode_config.xml:36-53 | With the shipped lines, rotation turned off by the user comes out turned on after power save and back |
| `SettingsRecovery.UnwatchedChangeIsUndone` | services/native/src/power_mode_module.cpp:264-285 | A change that is not watched while a value waits is undone as soon as a mode is entered that does not list the setting |
| `SettingsRecovery.ChangeAfterRestartIsLost` | services/native/src/power_mode_module.cpp:264-274 | The run that loses a change: power save, restart, change, normal mode, in every configuration that flags the setting in power save only |
| `SettingsRecovery.WatchedChangeStays` | services/native/src/power_mode_module.cpp:264-285 | The run that keeps a change: power save, change to another value than the mode's, normal mode, in every configuration that flags the setting in power save only |
| `SettingsRecovery.ChangeInCustomModeIsLost` | services/native/src/power_mode_module.cpp:264-274 | In custom power save, which is never watched, the change is lost without a restart |
| `SettingsRecovery.LostChangeExample` | services/native/src/power_mode_module.cpp:264-274 | The same run over a concrete device and store |

## Left out

- The proximity screen-off timer, the swing pre-time timer, and the `settingOn`/`settingOff` flags: none of the modelled branches reads them.
- The FREEZE, STAND_BY, DOZE and SHUTDOWN actions: nothing in the modelled code requests those states; reconciliation and the tables treat them.
- Suspend, wakeup, shutdown and running-lock controllers: only what the state machine asks of them is a parameter or a count.
- The detached preparation thread after its 30 s limit: it may change the state after a rollback.
- DimInterrupt.InterruptedDim: timer tasks that start while the request runs are not steps here, because their requests wait for the state mutex and then meet the availability check of `Timeouts.StaleTimeoutIsHarmless`.
- Null timer, state machine and service pointers, which the source answers by logging and returning.
- Notification of listeners beyond the list of states they were told; common events, system events and logs.
- PowerModeService.PowerModeModule.RunAction: the display-off-time, sleep-time, brightness and performance actions are not run, because they write no setting that an observer watches.
- PowerStateMachine.StateMachine.SetState: the proximity screen-off timer and the wakeup monitors are not touched, because no modelled branch reads them.
- PowerStateMachine.StateMachine.HandlePreBrightWakeUp: the display's wakeup call and the sync-sleep callback after a successful authentication are not made, because they belong to collaborators outside the model.
- PowerStateMachine.StateMachine.DisplayOffTimeUpdateFunc: the saved display-off time is not removed from the policy's recover map, because the state machine and the policy are modelled as separate objects.
- ModePolicy.PowerModePolicy.GetSettingSwitchState: the stored display-off time is read as one map entry, because the retry and fallback of its reader are in code that is not part of this model.
- SettingsRecovery.SettingsAreRecovered: the setting must be stored with a value other than -2, at the start and when it is changed, because the policy takes that value for no setting at all.
- SettingsRecovery.ModeChangeKeeps: a power failure inside a mode switch is not an event; `ModeRuns.PowerFailureBetweenModeAndSubMode` treats the one between the two saved modes.
- ScreenOffBlocks.BlocksAreCovered: excludes a client's token being withdrawn as a running-lock callback object, which drops its callbacks without running them.
- The overload of `AddDeathRecipient` that takes a recipient object, and the proximity filtering call: their callbacks touch no block and are covered by the event `Register`.
- Permission checks, IPC and its proxies, dumpers, shell tools, dialogs, XML and JSON parsing.
