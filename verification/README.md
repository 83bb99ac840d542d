# repowerd: a verified model

repowerd is a power-management daemon: it turns the display on and off, dims it, suspends the
system after inactivity, and lets clients, notifications and calls hold that off. This project
models the parts of it that keep state, and proves what holds over every order of events.

| file | what it models |
|---|---|
| `Alarms`, `Plans` | the timer, and what one session has scheduled on it |
| `PowerModel` | the per-session state machine as functions on values, with a recorder of all it tells the outside |
| `PowerInvariants`, `PowerEffects`, `PowerChanges` | what every event keeps, what it may touch, and what it changes of deadlines, inhibitors, a deferred suspend and the shared interfaces |
| `PowerTheorems`, `PowerDeadlines` | the results for every run of one machine |
| `PowerOutcomes`, `PowerSchedules`, `PowerDevices` | what every event makes of the machine, of the times of its alarms, and of the devices, told by cause |
| `PowerPromises` | what follows for runs: suspending after the timeout, displays that are held on, the power button |
| `StateMachine` | the machine as an object with fields, each handler proved against its function |
| `Clients`, `ClientBooks`, `ScreenService` | client requests, notifications and suspend blocks, end to end; the service and the adapter as objects |
| `Sessions`, `Routing`, `Daemon` | all sessions on one timer, one proximity sensor and one suspend block, the routing of events, session switching |
| `SharedTimer`, `SharedSensor`, `SharedBlock` | when the three shared things serve the active session |
| `Scenarios` | runs from start-up into the situations in which they do not, or in which a suspend is lost |
| `Hermite`, `Spline` | the monotone cubic spline |
| `Autobrightness`, `Backlight` | light averages and the debounce chain; brightness modes and transitions |
| `SuspendLock`, `Autosuspend` | the counted wake lock, timed windows, and the suspend thread with its semaphore |
| `Text`, `Reals` | decimal numerals and the identifiers built from them; products of reals |

Objects that the program updates in place are classes here. A class gives its state as a value
(`View`), and each method ensures that the new value, recorder included, is a function of the old
one. Invariants over runs are proved of these functions, and each method also ensures that the
object keeps its own invariant (`Valid`, `Sound`, `Chain`, `Covered`): handlers that only the active
session gets when the machine is not paused, alarm handlers when the alarm has gone off. Outgoing
interfaces are recorders, incoming ones are events that may come in any order.

Five places where the code does not do what it is for are stated exactly.

- The tangent repair of the spline jumps over the segment after a flat one
  (src/adapters/monotone_spline.cpp:68-76), so a rising table with equal neighbours can give a
  falling curve. `FlatsHarmless` is the exact condition under which it does not.
- Enabling autobrightness while the display is dimmed leaves the algorithm and the light sensor
  off, and restoring the normal brightness does not start them
  (src/adapters/backlight_brightness_control.cpp:131-192).
- All machines switch one proximity sensor, so a paused session whose last reason ends switches it
  off under the active one (src/core/default_state_machine.cpp:162-177, 951-962).
  `DisturbsSensor` is the exact condition.
- All machines take and release the suspend block under one id
  (src/core/default_state_machine.cpp:44), so a paused session that is dark releases it under the
  lit display of the active one when logind lifts its own block. `DisturbsBlock` is the exact
  condition.
- A deferred suspend is not always carried out when the last hold on suspending ends. `Forgets`,
  `ForgetsBy` and `Frees` say exactly what drops it and when: everything that starts the timeouts
  over, such as activity on a lit display or the release of the last display request, and also a
  change of the power source on a dark display. A client that disconnects while holding both the
  last display request and the last suspend request drops the suspend before releasing it
  (src/adapters/jingos_screen_service.cpp:664-675); for such calls `Restarts` is the exact condition.

A limit that the code sets on purpose is stated exactly too: a client's request to keep the display
on does not keep on one that was lit for a notification or a call
(src/core/default_state_machine.cpp:914-934, `HoldYieldsToOffAlarm`).

## Model

| member | source | states |
|---|---|---|
| `PowerTheorems.StepKeeps` | src/core/default_state_machine.cpp:131-997 | every handler call, timer event, pause and resume keeps the whole session invariant: distinct live alarms, one consistent display-off schedule, a lit display that is not held on is scheduled to go off, the suspend block and the proximity events agree with the state, nothing but housekeeping is said while paused |
| `PowerTheorems.RunKeeps` | src/core/default_state_machine.cpp:131-997 | so does every run of possible events, from any state that satisfies it |
| `PowerTheorems.DisplayNeverStuckOn` | src/core/default_state_machine.cpp:704-734 | in every reachable state that is unpaused, display on and with both inactivity allowances, the off time is never (infinite timeout) or the off alarm is live, due exactly at the recorded off time, and its arrival darkens the display |
| `PowerTheorems.SuspendBlockedExactly` | src/core/default_state_machine.cpp:576-596 | over every run, paused or not, automatic suspend is blocked exactly when the display is on, or went off for proximity, or suspend is disallowed; a deferred suspend implies that suspend is disallowed |
| `PowerTheorems.EveryEventActsAs` | src/core/default_state_machine.cpp:980-997 | for every possible event: inactivity suspends the system exactly when the suspend alarm arrives with timeouts applicable and suspend allowed, or a deferred suspend is released, and never while paused; a long press is reported exactly when its alarm arrives; a paused session stays quiet; no alarm id comes back; other users' alarms are untouched |
| `PowerTheorems.StaleForever` | src/core/default_state_machine.cpp:131-178 | an alarm id that was issued and is no longer awaited stays so through every run, and its late event leaves the whole state unchanged and emits nothing |
| `PowerTheorems.ReleaseEndsLongPress` | src/core/default_state_machine.cpp:428-444 | releasing the power button gives the pending long press up for good |
| `PowerTheorems.PauseEndsLongPress` | src/core/default_state_machine.cpp:630-645 | so does pausing the session |
| `PowerTheorems.PressSupersedesLongPress` | src/core/default_state_machine.cpp:404-426 | so does a second press, although it does not cancel the first alarm |
| `PowerTheorems.NotificationHoldEnds` | src/core/default_state_machine.cpp:783-794 | the notification allowance is withheld exactly while the expiration alarm is awaited; that alarm is live, and its arrival gives the allowance back |
| `PowerTheorems.ExpirationLiftsHold` | src/core/default_state_machine.cpp:168-177 | the arrival of the expiration alarm gives the notification allowance back in every state that satisfies the invariant |
| `PowerTheorems.OffAlarmDarkens` | src/core/default_state_machine.cpp:147-153 | the arrival of the off alarm of an unpaused session without inhibitors turns the display off |
| `PowerTheorems.ProximityFollowsReasons` | src/core/default_state_machine.cpp:936-969 | by this machine's own calls, proximity events are on only if some enablement flag is set, and while unpaused exactly then; the sensor shared by all machines is the subject of `SharedSensor` |
| `PowerTheorems.LeftAloneGoesOff` | src/core/default_state_machine.cpp:147-154 | in every state that satisfies the invariant: letting time pass to the recorded off time, the off alarm go off and its event arrive is a possible run, and it ends with the display off |
| `PowerTheorems.DarkOnceOffAlarmCame` | src/core/default_state_machine.cpp:131-178 | every possible run of timer events alone, from any state that satisfies the invariant with a lit, unpaused display that nothing holds on, ends with the display off exactly when it delivers the off alarm, whatever other alarms it delivers |
| `PowerDeadlines.DisplayGoesOffInTime` | src/core/default_state_machine.cpp:704-772 | in every run of a machine started at most once and first: a lit, unpaused display that nothing holds on has an infinite timeout, or an off time no further ahead than the normal, reduced or post-notification timeout its schedule is for, and left alone goes off at it |
| `PowerDeadlines.StepKeepsTimely` | src/core/default_state_machine.cpp:131-997 | every event keeps these deadlines, also when it changes the timeout in force or switches the power supply |
| `PowerChanges.EventEffects` | src/core/default_state_machine.cpp:131-997 | for every event in every state, by conditions on the state before it: a deferred suspend is there afterwards exactly if the event defers one, or one was there and the event does not forget it; whether a reason for proximity events is left; when the shared sensor and the shared suspend block are switched; and only the inhibitors' own events change what they asked for |
| `PowerTheorems.LogIsProper` | src/core/default_state_machine.cpp:809-883 | whatever was said while paused was a suspend block, its release or a proximity switch; each inactivity suspend was issued unpaused and with suspend allowed |
| `PowerTheorems.AlarmsNeverCoincide` | src/core/default_state_machine.cpp:668-702 | in every reachable state the six alarm ids are pairwise distinct when valid, and each of them is still going to arrive |
| `PowerOutcomes.EventShows` | src/core/default_state_machine.cpp:131-666 | what every possible event makes of the display and of its reason: lit by the causes in `Lights`, dark by those in `Darkens`, both told from the state before and independently of the handlers |
| `PowerOutcomes.PressMakes` | src/core/default_state_machine.cpp:404-426 | a press remembers the mode of the display before it lights a dark one, and with it as activity extends a lit one; nothing else of the machine changes |
| `PowerOutcomes.OffBehaviorMakes` | src/core/default_state_machine.cpp:248-286 | an accepted display-off timeout replaces that of its power supply alone, and drops a deferred suspend exactly if a normal schedule for that supply runs |
| `PowerOutcomes.SuspendBehaviorMakes` | src/core/default_state_machine.cpp:248-286 | the same for the suspend timeout |
| `PowerSchedules.EventTimes` | src/core/default_state_machine.cpp:668-807 | when each of the six alarms is due after every possible event: which events set it and to what time, which drop it, and that all others leave it alone |
| `PowerSchedules.NormalSuspendTimes` | src/core/default_state_machine.cpp:736-746 | after scheduling the normal suspend exactly one alarm is awaited for it, pending and due after the timeout, or none if that is infinite; all other alarms keep their times |
| `PowerSchedules.NormalOffTimes` | src/core/default_state_machine.cpp:710-734 | the same for display-off: the off alarm is due after the timeout and the dim alarm the dim duration before it, if there is room |
| `PowerSchedules.PostponeTimes` | src/core/default_state_machine.cpp:748-772 | a later off time gets a new off alarm due at it and no dim alarm; an earlier one changes nothing |
| `PowerPromises.SuspendIsRearmed` | src/core/default_state_machine.cpp:704-746 | every event that starts the timeouts over leaves a suspend alarm pending, due after the suspend timeout in force then, or none if that is infinite |
| `PowerPromises.SuspendsAfterTimeout` | src/core/default_state_machine.cpp:155-161 | that alarm stays armed for that time over every run in which nothing starts the timeouts over; if the session is unpaused, timeouts apply and suspend is allowed then, waiting until it is due and delivering it is a possible run that suspends the system once |
| `PowerPromises.SuspendedOnceByItsAlarm` | src/core/default_state_machine.cpp:155-161 | a run of timer events alone suspends a session that nothing holds off exactly once if it delivers the suspend alarm, and not at all otherwise |
| `PowerPromises.HeldDisplayStaysOn` | src/core/default_state_machine.cpp:885-934 | a display that a client holds on, not lit for a notification or a call, stays on over every run in which the client does not give up and nobody turns it off: by command, button, lid, proximity or leaving the session |
| `PowerPromises.HoldYieldsToOffAlarm` | src/core/default_state_machine.cpp:914-934 | the off alarm turns a held display off if and only if it was lit for a notification or a call |
| `PowerPromises.ShortPressToggles` | src/core/default_state_machine.cpp:404-444 | where the button is not activity, a short press turns a lit display off and a dark one on |
| `PowerPromises.LongPressLeavesDisplay` | src/core/default_state_machine.cpp:133-139 | after a long press, which is reported once, letting the button go leaves the display as it is |
| `PowerDevices.EventHeard` | src/core/default_state_machine.cpp:131-883 | what the commands of every possible event make of the devices, with the log replayed into panels, backlight, modem, interactive mode, notices, default handlers, automatic and set brightness, and counts of the suspends for lid and power and of the power-offs |
| `PowerDevices.DevicesFollowMachine` | src/core/default_state_machine.cpp:809-883 | in every reachable state: the external panel is lit exactly when the display is on, the internal one exactly when it is on and the lid is open; then the light is normal or dim, and off or never set while the display is off; interactive mode, the notices and the modem agree with display and reason; default handlers are allowed exactly while paused; the set brightness is the remembered one unless paused, and automatic brightness is on only if wanted and unpaused |
| `PowerDevices.RunKeepsDevices` | src/core/default_state_machine.cpp:809-883 | so does every run from any state in which the devices agree |
| `PowerDevices.DarkHeard` | src/core/default_state_machine.cpp:809-827 | turning an unpaused display off leaves both panels dark, the light off, interactive mode disabled, the notice given, and the modem at full power only for proximity |
| `PowerDevices.LightHeard` | src/core/default_state_machine.cpp:829-853 | turning it on lights the panels that the lid leaves, brightens them, and puts modem, interactive mode and notice right |
| `PowerDevices.CriticalActionIsTaken` | src/core/default_state_machine.cpp:347-360 | an accepted critical action is the one that is taken when power becomes critical; one that is not accepted changes nothing |
| `PowerDevices.LidActionIsTaken` | src/core/default_state_machine.cpp:328-345 | closing the lid without external displays suspends exactly if that was set for the power supply in use |
| `PowerInvariants.AlarmKeeps` | src/core/default_state_machine.cpp:131-178 | the arrival of any alarm keeps the invariant, and afterwards nobody awaits it |
| `PowerInvariants.TurnOffKeeps` | src/core/default_state_machine.cpp:809-827 | turning the display off clears the off schedule, sets mode and reason, and releases the suspend block unless the reason is proximity or suspend is disallowed |
| `PowerInvariants.TurnOnKeeps` | src/core/default_state_machine.cpp:829-853 | turning the display on blocks automatic suspend and changes nothing but mode and reason; nothing at all happens while paused |
| `Plans.NormalOffKeeps` | src/core/default_state_machine.cpp:710-734 | after scheduling the normal display-off the alarms are distinct and live, off alarm, off time and kind describe one schedule (none for an infinite timeout), and other alarms are as before |
| `Plans.PostponeKeeps` | src/core/default_state_machine.cpp:748-772 | the reduced, post-notification and immediate timeouts only ever postpone the off time, and keep the schedule consistent |
| `Plans.CancelOffKeeps` | src/core/default_state_machine.cpp:668-684 | cancelling the display-off schedule leaves every other alarm alone and no schedule behind |
| `PowerEffects.PostponeFrame` | src/core/default_state_machine.cpp:761-772 | rescheduling never touches an alarm that the session does not await, and never awaits one again |
| `StateMachine.DefaultStateMachine.constructor` | src/core/default_state_machine.cpp:72-129 | a new machine: display off, everything allowed, no alarm awaited, power-off on critical power; it is valid |
| `StateMachine.DefaultStateMachine.LeftAloneTurnsOff` | src/core/default_state_machine.cpp:147-154 | a valid object whose lit display nothing holds on goes off at its off time when left alone |
| `StateMachine.DefaultStateMachine.BlocksSuspendExactly` | src/core/default_state_machine.cpp:576-596 | a valid object blocks automatic suspend exactly while its display is on, off for proximity, or suspend is disallowed |
| `StateMachine.DefaultStateMachine.NotificationHoldIsTimed` | src/core/default_state_machine.cpp:783-794 | in a valid object a notification holds the display on exactly while its expiration alarm is awaited and still to come |
| `StateMachine.DefaultStateMachine.HandleAlarm` | src/core/default_state_machine.cpp:131-178 | the event goes to the one purpose that awaits this alarm id, checked in this order: long press, dim, off, suspend, proximity, notification expiration; any other id changes nothing |
| `StateMachine.DefaultStateMachine.HandleLongPressAlarm` | src/core/default_state_machine.cpp:133-139 | a long press is reported once and remembered |
| `StateMachine.DefaultStateMachine.HandleDimAlarm` | src/core/default_state_machine.cpp:140-146 | the display is dimmed if timeouts apply |
| `StateMachine.DefaultStateMachine.HandleOffAlarm` | src/core/default_state_machine.cpp:147-154 | the display goes off if timeouts apply; nothing is scheduled any more |
| `StateMachine.DefaultStateMachine.TurnOffIfApplicable` | src/core/default_state_machine.cpp:151-152 | the display goes off for inactivity if timeouts apply |
| `StateMachine.DefaultStateMachine.HandleSuspendAlarm` | src/core/default_state_machine.cpp:155-161 | the system is suspended, or the suspend deferred, if timeouts apply |
| `StateMachine.DefaultStateMachine.HandleProximityAlarm` | src/core/default_state_machine.cpp:162-167 | the timed proximity enablement ends |
| `StateMachine.DefaultStateMachine.HandleExpirationAlarm` | src/core/default_state_machine.cpp:168-177 | the notification stops holding the display on, and a lit one goes off at once unless its off time is later |
| `StateMachine.DefaultStateMachine.HandleActiveCall` | src/core/default_state_machine.cpp:180-195 | a lit display is brightened and rescheduled, a dark one turned on when nothing is near; proximity stays enabled for the call |
| `StateMachine.DefaultStateMachine.HandleNoActiveCall` | src/core/default_state_machine.cpp:197-223 | the reduced timeout on a lit or newly lit display, else proximity until far or timeout; the call's proximity enablement ends |
| `StateMachine.DefaultStateMachine.HandleEnableInactivityTimeout` | src/core/default_state_machine.cpp:225-230 | the client allowance is given back |
| `StateMachine.DefaultStateMachine.HandleDisableInactivityTimeout` | src/core/default_state_machine.cpp:232-246 | the client allowance is withheld and the display lit without timeout |
| `StateMachine.DefaultStateMachine.HandleSetInactivityBehavior` | src/core/default_state_machine.cpp:248-286 | a positive timeout for display-off or suspend is stored for its power supply, and a running normal schedule is restarted if that supply is in use; anything else is ignored |
| `StateMachine.DefaultStateMachine.HandleLidClosed` | src/core/default_state_machine.cpp:288-306 | without external displays a lit display goes off and the lid action of the current supply is taken; with them only the internal display is turned off |
| `StateMachine.DefaultStateMachine.HandleLidOpen` | src/core/default_state_machine.cpp:308-326 | a lit display gets its internal screen and normal timeouts back, a dark one is turned on |
| `StateMachine.DefaultStateMachine.HandleSetLidBehavior` | src/core/default_state_machine.cpp:328-345 | only none and suspend are accepted, for one power supply |
| `StateMachine.DefaultStateMachine.HandleSetCriticalPowerBehavior` | src/core/default_state_machine.cpp:347-360 | only suspend and power-off are accepted |
| `StateMachine.DefaultStateMachine.HandleNoNotification` | src/core/default_state_machine.cpp:362-374 | the notification allowance comes back, its proximity enablement and its expiration end, and a lit display stays on for the post-notification timeout |
| `StateMachine.DefaultStateMachine.HandleNotification` | src/core/default_state_machine.cpp:376-402 | the notification allowance is withheld until the expiration alarm, which is scheduled; the display is brightened, lit, or proximity enabled |
| `StateMachine.DefaultStateMachine.HandlePowerButtonPress` | src/core/default_state_machine.cpp:404-426 | the mode at the press is remembered, a dark display lit, the long-press alarm scheduled |
| `StateMachine.DefaultStateMachine.HandlePowerButtonRelease` | src/core/default_state_machine.cpp:428-444 | a press that was no long press turns a display off that was lit before; the long-press alarm is no longer awaited |
| `StateMachine.DefaultStateMachine.EndPress` | src/core/default_state_machine.cpp:432-440 | a press that was a long one is forgotten, a short one turns a display off that was lit before |
| `StateMachine.DefaultStateMachine.HandlePowerSourceChange` | src/core/default_state_machine.cpp:446-468 | all three supply-dependent settings switch; the display is extended or lit for the reduced timeout; the suspend alarm is rescheduled in any case |
| `StateMachine.DefaultStateMachine.HandlePowerSourceCritical` | src/core/default_state_machine.cpp:470-478 | the configured critical action is taken |
| `StateMachine.DefaultStateMachine.HandleProximityFar` | src/core/default_state_machine.cpp:480-500 | the two until-far enablements end; a dark display is lit, with the reduced timeout if only a notification had enabled proximity |
| `StateMachine.DefaultStateMachine.HandleProximityNear` | src/core/default_state_machine.cpp:502-508 | a lit display goes off for proximity |
| `StateMachine.DefaultStateMachine.HandleUserActivityChangingPowerState` | src/core/default_state_machine.cpp:510-528 | activity extends a lit display and lights a dark one when nothing is near |
| `StateMachine.DefaultStateMachine.HandleUserActivityExtendingPowerState` | src/core/default_state_machine.cpp:530-540 | activity extends a lit display only |
| `StateMachine.DefaultStateMachine.HandleSetNormalBrightnessValue` | src/core/default_state_machine.cpp:542-552 | the value is remembered for resuming, and set with autobrightness disabled unless paused |
| `StateMachine.DefaultStateMachine.HandleAutobrightness` | src/core/default_state_machine.cpp:554-574 | the choice is remembered for resuming, and carried out unless paused |
| `StateMachine.DefaultStateMachine.HandleAllowSuspend` | src/core/default_state_machine.cpp:576-588 | suspend is allowed; the block is released if the display is off and not for proximity; a deferred suspend is carried out |
| `StateMachine.DefaultStateMachine.HandleDisallowSuspend` | src/core/default_state_machine.cpp:590-596 | suspend is disallowed and the block taken |
| `StateMachine.DefaultStateMachine.HandleTurnOnDisplay` | src/core/default_state_machine.cpp:598-602 | the display is lit with normal timeouts |
| `StateMachine.DefaultStateMachine.HandleTurnOffDisplay` | src/core/default_state_machine.cpp:603-606 | the display goes off as if by the power button |
| `StateMachine.DefaultStateMachine.HandleSystemResume` | src/core/default_state_machine.cpp:607-612 | the display is lit with normal timeouts |
| `StateMachine.DefaultStateMachine.Start` | src/core/default_state_machine.cpp:614-628 | the supply is read, the default handlers are disallowed, the display is lit if so configured |
| `StateMachine.DefaultStateMachine.Pause` | src/core/default_state_machine.cpp:630-645 | the long-press alarm is cancelled first, then the machine steps back |
| `StateMachine.DefaultStateMachine.StepBack` | src/core/default_state_machine.cpp:638-644 | the commands of pausing in order, all before the machine counts as paused |
| `StateMachine.DefaultStateMachine.TakeOver` | src/core/default_state_machine.cpp:647-659 | the first part of resuming: unpaused first, then handlers, autobrightness and brightness are put back |
| `StateMachine.DefaultStateMachine.Resume` | src/core/default_state_machine.cpp:647-666 | after that the display is lit and proximity events return if there is a reason |
| `StateMachine.DefaultStateMachine.CancelUserInactivityDisplayOffAlarm` | src/core/default_state_machine.cpp:668-684 | both alarms are cancelled if awaited; off time and kind are cleared |
| `StateMachine.DefaultStateMachine.CancelNotificationExpirationAlarm` | src/core/default_state_machine.cpp:695-702 | the expiration alarm is cancelled if awaited |
| `StateMachine.DefaultStateMachine.ScheduleNormalUserInactivityAlarm` | src/core/default_state_machine.cpp:704-708 | display-off and suspend are both rescheduled |
| `StateMachine.DefaultStateMachine.ScheduleNormalUserInactivityDisplayOffAlarm` | src/core/default_state_machine.cpp:710-734 | an infinite timeout leaves no alarm and the off time never; another one schedules the dim alarm ahead of the off alarm if there is room |
| `StateMachine.DefaultStateMachine.ScheduleNormalUserInactivitySuspendAlarm` | src/core/default_state_machine.cpp:736-746 | a deferred suspend is forgotten and the suspend alarm replaced by one due after the timeout, or by none if it is infinite (`PowerSchedules.NormalSuspendTimes`) |
| `StateMachine.DefaultStateMachine.PostponeDisplayOff` | src/core/default_state_machine.cpp:748-807 | the common part of the post-notification, reduced and immediate schedules: only a strictly later off time replaces the current one |
| `StateMachine.DefaultStateMachine.ScheduleProximityDisableAlarm` | src/core/default_state_machine.cpp:774-781 | the previous proximity alarm is cancelled and a new one scheduled |
| `StateMachine.DefaultStateMachine.ScheduleNotificationExpirationAlarm` | src/core/default_state_machine.cpp:783-794 | the expiration alarm is replaced, after the smaller of the expiration and the display-off timeout |
| `StateMachine.DefaultStateMachine.TurnOffDisplay` | src/core/default_state_machine.cpp:809-827 | the commands in order, with modem and suspend block spared for proximity; nothing while paused; what they make of the devices is `PowerDevices.DarkHeard` |
| `StateMachine.DefaultStateMachine.TurnOnDisplayWithoutTimeout` | src/core/default_state_machine.cpp:829-853 | the commands in order, for external displays only and unbrightened while the lid is closed; nothing while paused |
| `StateMachine.DefaultStateMachine.TurnOnDisplayWithNormalTimeout` | src/core/default_state_machine.cpp:855-861 | lit, then the normal timeouts, which are scheduled even while paused |
| `StateMachine.DefaultStateMachine.TurnOnDisplayWithReducedTimeout` | src/core/default_state_machine.cpp:863-869 | lit, then the reduced timeout |
| `StateMachine.DefaultStateMachine.BrightenDisplay` | src/core/default_state_machine.cpp:871-876 | normal brightness unless paused |
| `StateMachine.DefaultStateMachine.DimDisplay` | src/core/default_state_machine.cpp:878-883 | dim brightness unless paused |
| `StateMachine.DefaultStateMachine.AllowInactivityTimeout` | src/core/default_state_machine.cpp:885-906 | once the last hold is lifted on a lit display: off at once for a notification without schedule, rescheduled for a client |
| `StateMachine.DefaultStateMachine.IsInactivityTimeoutApplicationAllowed` | src/core/default_state_machine.cpp:922-934 | timeouts apply if both allowances are given, or the display was lit for a notification or a call |
| `StateMachine.DefaultStateMachine.EnableProximity` | src/core/default_state_machine.cpp:936-949 | events go on with the first enablement only |
| `StateMachine.DefaultStateMachine.DisableProximity` | src/core/default_state_machine.cpp:951-962 | events go off with the last enablement only |
| `StateMachine.DefaultStateMachine.OnlyUntilFarOrExpiration` | src/core/default_state_machine.cpp:971-978 | counting the flags finds the notification's one as the only one |
| `StateMachine.DefaultStateMachine.SuspendWhenAllowed` | src/core/default_state_machine.cpp:980-992 | suspended now when allowed (silently dropped while paused), deferred otherwise |
| `StateMachine.Ports.Tell` | src/core/default_state_machine.cpp:809-853 | the recorder keeps, for each command, the standing effect of the two on/off interfaces, the three counts and the log |
| `Alarms.Timer.ScheduleAlarmIn` | src/adapters/event_loop_timer.cpp:51-74 | a fresh id and a due time from now |
| `Alarms.Timer.CancelAlarm` | src/adapters/event_loop_timer.cpp:76-97 | a pending alarm will not go off; one that already went off still arrives |
| `Clients.InhibitorsConserved` | src/core/state_event_adapter.cpp:26-75 | in every run of client calls, logind blocks, alarms and other events: the client allowance is withheld exactly while some client holds a keep-display-on id, suspend is disallowed exactly while a system-state id or logind's block is held, and the notification allowance is withheld only while a notification is active |
| `Clients.CallKeeps` | src/adapters/jingos_screen_service.cpp:603-854 | each single call keeps these equivalences and the uniqueness of ids |
| `Clients.UnheldDisplayGoesOff` | src/adapters/jingos_screen_service.cpp:645-681 | end to end: for a lit, unpaused display with an off time, on which no client holds an id and for which no notification is active, letting time pass to the off time and the off alarm arrive is a possible run that ends with the display off |
| `Clients.UnheldDisplayGoesOffInTime` | src/adapters/jingos_screen_service.cpp:645-681 | and in every run of client calls in which the machine is started at most once and first: without an off time the timeout in force is infinite, and otherwise the wait is at most the timeout the schedule is for |
| `Clients.KeptDisplayStaysOn` | src/adapters/jingos_screen_service.cpp:603-643 | a lit display, not lit for a notification or a call, stays on over every run of calls in which some client keeps it on and nobody turns it off, whatever else clients, logind, alarms and devices do |
| `Clients.RequestHoldsOn` | src/adapters/jingos_screen_service.cpp:603-619 | a request to keep the display on is filed under a fresh id, lights a dark display of an unpaused session, and holds one on that was not lit for a notification or a call |
| `ClientBooks.KeepHeldExactly` | src/adapters/jingos_screen_service.cpp:603-681 | after any run of calls a display request is held exactly if it was held before or made on the way under the next id, and since then neither withdrawn by its owner under this id nor ended by the owner's disconnect |
| `ClientBooks.StateHeldExactly` | src/adapters/jingos_screen_service.cpp:801-854 | the same for requests of the active system state and their cookies |
| `ClientBooks.TimeoutsHeldExactly` | src/core/state_event_adapter.cpp:26-41 | so after any run of calls from start-up the client allowance is withheld exactly while some display request made in it stands, told by the calls alone |
| `ClientBooks.SuspendHeldExactly` | src/core/state_event_adapter.cpp:60-75 | and suspend is disallowed exactly while some request of the active state stands, or logind spoke last of blocking |
| `ClientBooks.NoteBooks` | src/adapters/jingos_screen_service.cpp:746-783 | each client's number of notifications: one more for each begun, one fewer for each ended while there are any, none after its disconnect |
| `ClientBooks.ScreenModeSwitches` | src/adapters/jingos_screen_service.cpp:746-783 | a client that asks for the screen to be on or off gets it in an unpaused session; an unknown mode or reason changes nothing |
| `Clients.CallDecides` | src/core/default_state_machine.cpp:576-588 | for every possible call, by conditions on the state before it: a suspend is deferred afterwards exactly if the call defers it, or it was and the call neither forgets it (`ForgetsBy`: a release of the last display request on a lit display, switching the display on, the events of `Forgets`) nor ends the last hold on suspending; and the system is suspended once exactly when the call ends that hold, unpaused, without forgetting the suspend first, or the suspend alarm arrives with nothing to hold it off |
| `Clients.DeferredExactly` | src/core/default_state_machine.cpp:736-746 | over every possible run: a suspend is deferred at its end exactly if it was deferred on the way, or before, and nothing forgot or freed it since |
| `Clients.DeferredSuspendHappensOnce` | src/core/default_state_machine.cpp:155-161 | a suspend deferred by the suspend alarm stays deferred over every run that neither forgets nor frees it, nothing is suspended meanwhile, and the call that then ends the last hold suspends the system exactly once, or not at all if that call forgets it first or the session is paused |
| `Clients.FreesExactly` | src/adapters/jingos_screen_service.cpp:826-854 | the calls that end the last hold are named by what is held before them: the last system-state request is cleared, its client disconnects, or logind lifts its block |
| `Clients.LastReleaseSuspends` | src/core/default_state_machine.cpp:576-588 | in every reachable, unpaused state with a suspend still deferred, the call that ends the last hold suspends the system once, except exactly when that call is a disconnect that first gives back the last display requests on a lit display; what keeps the suspend deferred until then is `DeferredExactly` |
| `Scenarios.DisconnectForgetsSuspend` | src/adapters/jingos_screen_service.cpp:664-675 | a run from start-up to a deferred suspend on a lit display, where one client holds the last display request and the last system-state request: its disconnect releases everything and suspends nothing |
| `Scenarios.ReleaseForgetsSuspend` | src/adapters/jingos_screen_service.cpp:621-643 | the same with two clients: when the display request is given back before the system-state request is cleared, nothing is suspended either |
| `Scenarios.ReleaseCarriesOutSuspend` | src/adapters/jingos_screen_service.cpp:840-854 | and when the system-state request is cleared first, the system is suspended once |
| `Clients.WrongSenderChangesNothing` | src/adapters/jingos_screen_service.cpp:621-643 | withdrawing a request under another sender's name changes nothing at all |
| `Clients.RemoveUndoesKeep` | src/adapters/jingos_screen_service.cpp:621-643 | withdrawing a request undoes making it, allowance included |
| `Clients.CookieUndoesRequest` | src/adapters/jingos_screen_service.cpp:826-854 | the cookie handed out for a system-state request, read back as a number, withdraws exactly that request |
| `Clients.DisconnectReleasesAll` | src/adapters/jingos_screen_service.cpp:645-681 | a disconnect releases all of the client's ids and notifications and nobody else's; what it alone held off is allowed again |
| `Clients.CallKeepsSound` | src/adapters/jingos_screen_service.cpp:603-854 | each possible call keeps the books and the machine's invariant together |
| `Clients.EventKeepsFlags` | src/core/default_state_machine.cpp:885-912 | no other handler changes the client or the suspend flag, or withholds the notification allowance |
| `Text.TaggedInjective` | src/adapters/jingos_screen_service.cpp:153-156 | a notification id determines sender and index, also when senders contain the separator |
| `Text.NumberOfNumeral` | src/adapters/jingos_screen_service.cpp:838-839 | a decimal numeral reads back as its number |
| `ScreenService.JingosScreenService.constructor` | src/adapters/jingos_screen_service.cpp:160-188 | nobody holds anything, ids start at 1 |
| `ScreenService.JingosScreenService.KeepDisplayOn` | src/adapters/jingos_screen_service.cpp:603-619 | a fresh id is handed out and counted; the adapter's id set and the service's requests still name each other exactly |
| `ScreenService.JingosScreenService.RemoveDisplayOnRequest` | src/adapters/jingos_screen_service.cpp:621-643 | the request is withdrawn if this sender holds it, and the machine hears of it when it was the last of all |
| `ScreenService.JingosScreenService.NameOwnerChanged` | src/adapters/jingos_screen_service.cpp:645-681 | only when a unique name vanishes: its display requests, its system-state requests and its notifications end, in this order |
| `ScreenService.JingosScreenService.EnableEach` | src/adapters/jingos_screen_service.cpp:664-669 | releasing a client's display ids one by one, in any order, tells the machine once, when the last id of all is gone |
| `ScreenService.JingosScreenService.AllowEach` | src/adapters/jingos_screen_service.cpp:672-675 | the same for system-state ids, unless logind's own block remains |
| `ScreenService.JingosScreenService.EndEach` | src/adapters/jingos_screen_service.cpp:677-679 | the ids sender-0 to sender-(count-1) are exactly the sender's notifications, and their end is told once, when no notification remains |
| `ScreenService.JingosScreenService.SetScreenPowerMode` | src/adapters/jingos_screen_service.cpp:746-783 | notification reasons begin and end one notification of the sender, inactivity and power-key reasons switch the display, other reasons are refused |
| `ScreenService.JingosScreenService.RequestSysState` | src/adapters/jingos_screen_service.cpp:801-824 | only the active state is accepted; a fresh cookie is handed out and suspend disallowed |
| `ScreenService.JingosScreenService.ClearSysState` | src/adapters/jingos_screen_service.cpp:826-854 | the request with the cookie's number is withdrawn if this sender holds it |
| `ScreenService.JingosScreenService.SystemBlocksSuspend` | src/core/daemon.cpp:397-412 | logind's block is filed under an id that no client request can have |
| `ScreenService.NoteIdsOfMore` | src/adapters/jingos_screen_service.cpp:153-156 | the next notification id of a sender is not in use, and adding it gives the ids of one more notification |
| `ScreenService.IdsOfRest` | src/adapters/jingos_screen_service.cpp:621-643 | taking one request away takes exactly its own id away |
| `ScreenService.StateEventAdapter.HandleEnableInactivityTimeout` | src/core/state_event_adapter.cpp:26-33 | the id is dropped, known or not, and the machine is told if none is left |
| `ScreenService.StateEventAdapter.HandleDisableInactivityTimeout` | src/core/state_event_adapter.cpp:35-41 | the id is added and the machine told each time |
| `ScreenService.StateEventAdapter.HandleNotification` | src/core/state_event_adapter.cpp:43-49 | the id is added and the machine told each time |
| `ScreenService.StateEventAdapter.HandleNotificationDone` | src/core/state_event_adapter.cpp:51-58 | the machine is told only if the id was there and was the last |
| `ScreenService.StateEventAdapter.HandleAllowSuspend` | src/core/state_event_adapter.cpp:60-67 | the id is dropped, known or not, and the machine is told if none is left |
| `ScreenService.StateEventAdapter.HandleDisallowSuspend` | src/core/state_event_adapter.cpp:69-75 | the id is added and the machine told each time |
| `Sessions.ApplyKeeps` | src/core/daemon.cpp:451-554 | every action of the daemon keeps: the active session is a live entry, exactly it is unpaused among the real ones, each session keeps its own invariant on the shared timer, and no two sessions await one alarm |
| `Sessions.ExactlyActiveUnpaused` | src/core/daemon.cpp:511-554 | the same for every run from start-up |
| `Sessions.OnlyActiveSpeaks` | src/core/daemon.cpp:451-499 | any action but its own activation leaves the number of display, brightness, display-event, long-press, suspend and power-off commands of a session that is not active unchanged |
| `Sessions.BroadcastIsOwners` | src/core/daemon.cpp:119-126 | telling all sessions of an alarm does what its owner does with it, whatever the order in which they are told |
| `Sessions.AlarmReachesNobody` | src/core/daemon.cpp:119-126 | an alarm nobody awaits changes nothing anywhere |
| `Sessions.NeighbourKeeps` | src/core/daemon.cpp:451-499 | a handler call in one session leaves the invariant and the alarms of every other session intact |
| `Sessions.ActivateKeeps` | src/core/daemon.cpp:511-538 | switching sessions, including to an incompatible or a new one, pauses exactly the old one |
| `Sessions.RemoveKeeps` | src/core/daemon.cpp:540-554 | removing a session, active or not, leaves the others sane |
| `Routing.ToActiveReaches` | src/core/daemon.cpp:451-456 | an event for the active session is handled once by it, on the shared parts as they are, and leaves every other session as it was |
| `Routing.ToSessionsReaches` | src/core/daemon.cpp:469-499 | an event for some sessions is handled once by each of them that exists, when its turn comes, and leaves every other session as it was |
| `Routing.KnownSessionResumes` | src/core/daemon.cpp:511-538 | a known session that becomes active keeps its machine, which handles resuming once, after the machine that was active handled pausing once; any other session is as it was |
| `Routing.ActivatedIsLit` | src/core/daemon.cpp:511-538 | a compatible session that becomes active is there and lit; a new one exactly if displays are on at start-up |
| `Routing.RemovedIsForgotten` | src/core/daemon.cpp:540-554 | exactly the removed session is forgotten, and nobody is active exactly if it was |
| `Routing.CallsExactly` | src/core/daemon.cpp:573-591 | the sessions with calls: the active one joins them when a call begins, and none ever leaves |
| `Routing.CallIsHeard` | src/core/daemon.cpp:214-224 | the beginning of a call turns the sensor on for it in the active session, and in no other |
| `Routing.EndOfCallReachesAll` | src/core/daemon.cpp:226-232 | in every run of the daemon: when a call ends, no session's sensor stays on for a call, whichever sessions were active when calls began |
| `SharedSensor.SensorAgreesUnlessDisturbed` | src/default_daemon_config.cpp:252-270 | the sensor all machines share agrees with the active session's reasons after an action of the daemon if and only if that action does not make a session that is not active end its last reason while the active one has one, or begin a first one while it has none, and leave it at that; the condition is read off the flags before the action, for targets without duplicates, as the daemon lists them |
| `SharedSensor.CallsStayDistinct` | src/core/daemon.cpp:573-591 | no session is noted twice among those with calls, whatever happens |
| `SharedSensor.DispatchAgrees` | src/core/default_state_machine.cpp:936-969 | the same for one event in one session |
| `SharedSensor.ToSessionsAgrees` | src/core/daemon.cpp:469-499 | the same for an event sent to several sessions: the last one whose reasons begin or end decides |
| `SharedSensor.AlarmArrivesAgrees` | src/core/daemon.cpp:119-126 | the same for an alarm told to all sessions, which only its owner can make a difference for |
| `SharedSensor.ActivationAgrees` | src/core/daemon.cpp:511-538 | switching away from a real session sets the sensor right, whatever happened to it before |
| `SharedSensor.PausedTimeoutSilencesCall` | src/core/default_state_machine.cpp:162-167 | how it fails: the proximity timeout of a session left after a call switches the sensor off under the call of the active one |
| `Scenarios.SilencedCallReached` | src/core/default_state_machine.cpp:197-223 | a run of the daemon from start-up that comes to this: two sessions, a call in each, and the timeout of the first |
| `SharedBlock.BlockAgreesUnlessDisturbed` | src/core/default_state_machine.cpp:576-596 | the suspend block all machines share under one id is held exactly when the active session needs it, after an action of the daemon, if and only if that action neither allows suspending in another session that is dark for good while the active one still needs the block, nor disallows it in others only while the active one does not need it, nor starts a session with its display off under a block that is held; told from the state before |
| `SharedBlock.RowSwitches` | src/core/default_state_machine.cpp:576-596 | allowing or disallowing suspend in any list of sessions: the block is taken by any that exists and disallows, released by any that is dark for good and allows; display and reason stay |
| `SharedBlock.ActivationDecides` | src/core/daemon.cpp:511-538 | switching sessions sets the block right, whatever it was, unless a new session starts with its display off under a block that is held |
| `SharedBlock.SharedFollowActive` | src/core/daemon.cpp:451-554 | in every run of the daemon in which no action disturbs them, sensor and block both follow the active session |
| `Scenarios.ReleasedBlockReached` | src/core/default_state_machine.cpp:576-588 | a run from start-up in which they do not: a session is left dark, another is lit, and when logind lifts its block the first one releases the suspend block under the lit display |
| `SharedTimer.ApplyKeepsTimely` | src/core/default_state_machine.cpp:704-772 | every action of the daemon keeps every session's off time within its timeout in force, on the timer they share |
| `SharedTimer.ActiveGoesOffInTime` | src/core/default_state_machine.cpp:147-154 | in every run of the daemon: a lit display of the active session that nothing holds on has an infinite timeout, or goes off after at most the timeout its schedule is for when the timer runs and all sessions are told of its off alarm, in any order |
| `Daemons.Daemon.constructor` | src/core/daemon.cpp:49-68 | only the session that stands for nobody, and it is active |
| `Daemons.Daemon.HandleSessionActivated` | src/core/daemon.cpp:511-538 | pause first; then nobody for an incompatible session, creation and start for an unknown one, resume for a known one |
| `Daemons.Daemon.HandleSessionRemoved` | src/core/daemon.cpp:540-554 | an unknown id changes nothing; the active one is paused and replaced by nobody before it is erased |
| `Daemons.Daemon.EnqueueActionToActiveSession` | src/core/daemon.cpp:451-456 | the event reaches the active session and no other |
| `Daemons.Daemon.AlarmToAllSessions` | src/core/daemon.cpp:458-467 | every session is told once, in the map's own order |
| `Daemons.Daemon.EnqueueActionToSessions` | src/core/daemon.cpp:469-499 | the targets are told in order, those that no longer exist are skipped |
| `Daemons.Daemon.HandleActiveCall` | src/core/daemon.cpp:214-224 | the active session is noted once among those with calls and told |
| `Daemons.Daemon.HandleNoActiveCall` | src/core/daemon.cpp:226-232 | all sessions ever noted are told; nothing is forgotten |
| `Daemons.Daemon.SessionsForPid` | src/core/daemon.cpp:556-571 | process 0 stands for all sessions, each once; another one for the session that tracks it |
| `MonotoneSpline.SortIsIncreasing` | src/adapters/monotone_spline.cpp:105-114 | points with distinct x come out strictly increasing in x |
| `MonotoneSpline.SecantSlopes` | src/adapters/monotone_spline.cpp:26-41 | the secants, padded with a final zero |
| `MonotoneSpline.PointTangents` | src/adapters/monotone_spline.cpp:43-58 | end tangents are the end secants, inner ones the mean of their neighbours or zero at a turn |
| `MonotoneSpline.EnsureMonotonicity` | src/adapters/monotone_spline.cpp:60-91 | the in-place repair loop, extra increments included, leaves exactly the tangents of the closed form |
| `MonotoneSpline.RepairOutcome` | src/adapters/monotone_spline.cpp:60-91 | each segment ends up with both tangent ratios in [0,3], or broken in one particular way, and which one can be read off the slopes |
| `MonotoneSpline.Create` | src/adapters/monotone_spline.cpp:93-123 | fewer than two points are refused; otherwise sorted points with repaired tangents |
| `MonotoneSpline.Spline.FindIndex` | src/adapters/monotone_spline.cpp:147-159 | -1 before the first point, the last index behind the last one, else the segment that holds x |
| `MonotoneSpline.HitsKnots` | src/adapters/monotone_spline.cpp:125-145 | the curve passes through every point exactly |
| `MonotoneSpline.ShapeIffFlatsHarmless` | src/adapters/monotone_spline.cpp:60-145 | each segment runs strictly the way its end points do, and stays between them, if and only if no flat stretch is harmful: no skipped flat segment before a rise, no unchecked segment before one more than five times as steep |
| `MonotoneSpline.MonotoneIffFlatsHarmless` | src/adapters/monotone_spline.cpp:60-145 | for rising or falling data the curve is monotone on all reals, across segments, knots and tails, if and only if the same condition holds |
| `MonotoneSpline.NoEqualNeighboursIsHarmless` | src/adapters/monotone_spline.cpp:60-91 | data without equal neighbours always meets the condition |
| `MonotoneSpline.StrictDataStrictCurve` | src/adapters/monotone_spline.cpp:43-145 | strictly rising or falling data gives a strictly monotone curve between the outer points |
| `MonotoneSpline.FlatStretchSpoilsMonotonicity` | src/adapters/monotone_spline.cpp:68-76 | the rising table 0, 0, 1, 10 gives a curve that dips below zero, because the loop skips the segment after the flat one |
| `MonotoneSpline.StaysInTable` | src/adapters/monotone_spline.cpp:125-145 | a curve that meets the condition never leaves the range of its table |
| `MonotoneSpline.RepairIsClosest` | src/adapters/monotone_spline.cpp:60-91 | without flat stretches each repaired tangent is one that keeps the segments on both sides monotone, and of all tangents within three times the slopes the one closest to the mean of the secants |
| `MonotoneSpline.SmoothAtPoints` | src/adapters/monotone_spline.cpp:125-145 | the curve is smooth: at each inner point it has the same tangent on both sides, which it leaves by a multiple of the square of the distance at most |
| `MonotoneSpline.StraightDataStraightCurve` | src/adapters/monotone_spline.cpp:43-145 | points on a straight line give that line |
| `Hermite.BoxImpliesIncreasing` | src/adapters/monotone_spline.cpp:125-145 | a cubic segment whose two tangent ratios lie in [0,3] increases strictly |
| `Hermite.SteepExitUndershoots` | src/adapters/monotone_spline.cpp:125-145 | one that starts flat and leaves with a ratio above 3 undershoots its start |
| `Autobrightness.RunKeepsChain` | src/adapters/android_autobrightness_algorithm.cpp:150-186 | in every run at most one pending callback carries the current sequence number, one does exactly while debouncing, and an algorithm that has seen light and is not debouncing has settled |
| `Autobrightness.RestartOutdates` | src/adapters/android_autobrightness_algorithm.cpp:177-186 | stopping or starting outdates every callback scheduled before |
| `Autobrightness.OutdatedForever` | src/adapters/android_autobrightness_algorithm.cpp:230-237 | an outdated callback changes nothing, after however many events it runs |
| `Autobrightness.ChainEnds` | src/adapters/android_autobrightness_algorithm.cpp:219-269 | once light values stop, the number k of further rounds satisfies 2 * 21^(k-1) <= the error at that moment, so it is at most half that error |
| `Autobrightness.Round` | src/adapters/android_autobrightness_algorithm.cpp:239-268 | a round never increases the error, divides it by 21 at least if the whole delay lies between it and the last light, and only an error of at least max(10%, 2) causes another one |
| `Autobrightness.AveragesStayWithin` | src/adapters/android_autobrightness_algorithm.cpp:193-217 | since the last start both averages and the applied light stay within the range of the light values seen |
| `Autobrightness.AnnouncementsStayInTable` | src/adapters/android_autobrightness_algorithm.cpp:271-274 | every announced brightness lies between the least and the greatest table value divided by the maximum, for tables accepted by the spline's condition |
| `Autobrightness.ChangesAreDeliberate` | src/adapters/android_autobrightness_algorithm.cpp:244-262 | the announced brightness changes only when both averages have moved by the hysteresis, and then to the curve's value at the fast average |
| `Autobrightness.AnnouncesExactly` | src/adapters/android_autobrightness_algorithm.cpp:244-274 | an announcement is made exactly when both averages have moved up, or both down, by the hysteresis at the current callback, or with the first light; it is the curve's value at the fast average over the maximum, and that average becomes the applied light |
| `Autobrightness.CallbackCatchesUp` | src/adapters/android_autobrightness_algorithm.cpp:244-262 | after the current callback the applied light is not left behind in either direction: not both averages are max(10%, 2) of it above, nor both below |
| `Autobrightness.QuietMeansSettled` | src/adapters/android_autobrightness_algorithm.cpp:219-269 | in every run, once light was seen and no callback is awaited, the fast average is not noticeably off the last light |
| `Autobrightness.AveragesApproach` | src/adapters/android_autobrightness_algorithm.cpp:193-217 | each update brings both averages nearer to the light: after dt milliseconds the distance is 200/(dt+200) of what it was for the fast one and 2000/(dt+2000) for the slow one |
| `Autobrightness.LightIsDebounced` | src/adapters/android_autobrightness_algorithm.cpp:127-148 | a later light value leaves a current callback pending, a new one due after four seconds |
| `Autobrightness.StepKeepsDueSoon` | src/adapters/android_autobrightness_algorithm.cpp:219-230 | every event keeps: a callback with the current sequence number is due after at most four seconds |
| `Autobrightness.LastingChangeIsAnnounced` | src/adapters/android_autobrightness_algorithm.cpp:219-274 | a change of one and a half times the hysteresis, rising or falling, that lasts until the callback it causes is announced by it, within a twenty-first of the change |
| `Autobrightness.CreateBrightnessSpline` | src/adapters/android_autobrightness_algorithm.cpp:56-89 | tables of unfitting sizes are refused; otherwise a first value for darkness and one for each level |
| `Autobrightness.AndroidAutobrightnessAlgorithm.constructor` | src/adapters/android_autobrightness_algorithm.cpp:105-115 | stopped, with sequence number 1 |
| `Autobrightness.AndroidAutobrightnessAlgorithm.NewLightValue` | src/adapters/android_autobrightness_algorithm.cpp:127-148 | ignored unless started; the first value is announced at once, later ones only start the debounce chain |
| `Autobrightness.AndroidAutobrightnessAlgorithm.Start` | src/adapters/android_autobrightness_algorithm.cpp:150-157 | a stopped algorithm is reset and runs; a running one is left alone |
| `Autobrightness.AndroidAutobrightnessAlgorithm.Stop` | src/adapters/android_autobrightness_algorithm.cpp:159-166 | a running algorithm is reset and stops |
| `Autobrightness.AndroidAutobrightnessAlgorithm.Reset` | src/adapters/android_autobrightness_algorithm.cpp:177-186 | all light is forgotten and the sequence number advances |
| `Autobrightness.AndroidAutobrightnessAlgorithm.UpdateAverages` | src/adapters/android_autobrightness_algorithm.cpp:193-217 | exponential smoothing over whole milliseconds, both averages start at the first value |
| `Autobrightness.AndroidAutobrightnessAlgorithm.ScheduleDebounce` | src/adapters/android_autobrightness_algorithm.cpp:219-230 | one callback after four seconds, unless one is due already |
| `Autobrightness.AndroidAutobrightnessAlgorithm.RunCallback` | src/adapters/android_autobrightness_algorithm.cpp:230-268 | an old number is ignored; else averages, hysteresis test in both directions, announcement and the next round (`CallbackCatchesUp`) |
| `Backlight.LadderReachesTarget` | src/adapters/backlight_brightness_control.cpp:235-286 | for every start, target and positive step: exactly ceil(|start - target| / step) writes, each strictly nearer and one full step on, the last one exactly the target, never beyond it |
| `Backlight.QuirkShowsNormal` | src/adapters/backlight_brightness_control.cpp:82-223 | with the quirk, in every run: in normal mode the backlight shows the normal brightness, which is the user's unless autobrightness is active; the sensor is enabled exactly while the algorithm is started, which implies autobrightness and not off mode |
| `Backlight.QuirkShowsNormalFromStart` | src/adapters/backlight_brightness_control.cpp:58-223 | the same for every run from start-up, whatever the backlight showed before |
| `Backlight.ShowsUnlessWithheld` | src/adapters/backlight_brightness_control.cpp:171-192 | without assuming the quirk: an event breaks this exactly if it is leaving off mode under autobrightness without the quirk while something else is shown |
| `Backlight.FollowsUnlessEnabledDimmed` | src/adapters/backlight_brightness_control.cpp:131-192 | a lit display under autobrightness keeps its algorithm running, except exactly when autobrightness is enabled while dimmed, or an off display is dimmed |
| `Backlight.EnabledDimmedStaysOff` | src/adapters/backlight_brightness_control.cpp:131-192 | enabling while dimmed and then restoring normal brightness leaves algorithm and sensor off |
| `Backlight.DimmingBrightensOnlyTheDark` | src/adapters/backlight_brightness_control.cpp:150-169 | dimming brightens exactly a display that is dark and darker than dim; otherwise it ends at dim or leaves the display as it is |
| `Backlight.DisableUndoesEnable` | src/adapters/backlight_brightness_control.cpp:112-148 | disabling autobrightness restores the user's brightness whatever was announced in between |
| `Backlight.RunShowsMode` | src/adapters/backlight_brightness_control.cpp:150-223 | in every run, from the first change of mode on, whatever the backlight showed at the start: off mode shows 0, and dim mode shows the dim brightness, or what is lit but darker |
| `Backlight.ChangesAreAnnounced` | src/adapters/backlight_brightness_control.cpp:235-286 | every change of what is shown is written in full steps of one and announced once, and the last value written and announced is what is shown |
| `Backlight.WithheldWritesNothing` | src/adapters/backlight_brightness_control.cpp:171-192 | the event that withholds the normal brightness writes and announces nothing |
| `Backlight.FollowsRequests` | src/adapters/backlight_brightness_control.cpp:112-223 | over every run mode, automatic brightness and the user's brightness are what was last asked for, and the normal brightness follows from them and from what was announced |
| `Backlight.BacklightBrightnessControl.constructor` | src/adapters/backlight_brightness_control.cpp:58-82 | off mode, normal brightness is the user's, autobrightness inactive |
| `Backlight.BacklightBrightnessControl.TransitionToBrightnessValue` | src/adapters/backlight_brightness_control.cpp:235-286 | the two loops write exactly the ladder, end on the target and announce it once if anything changed; an unknown start counts as one step below |
| `Backlight.BacklightBrightnessControl.DisableAutobrightness` | src/adapters/backlight_brightness_control.cpp:112-129 | algorithm and sensor stop, the user's brightness returns, at once in normal mode |
| `Backlight.BacklightBrightnessControl.EnableAutobrightness` | src/adapters/backlight_brightness_control.cpp:131-148 | active from now on; algorithm and sensor start in normal mode only |
| `Backlight.BacklightBrightnessControl.SetDimBrightness` | src/adapters/backlight_brightness_control.cpp:150-169 | dim mode, with a transition unless already darker and lit |
| `Backlight.BacklightBrightnessControl.SetNormalBrightness` | src/adapters/backlight_brightness_control.cpp:171-192 | normal mode; leaving off mode under autobrightness starts the algorithm, and transitions only with the quirk |
| `Backlight.BacklightBrightnessControl.SetNormalBrightnessValue` | src/adapters/backlight_brightness_control.cpp:194-211 | the user's brightness, shown at once in normal mode without autobrightness |
| `Backlight.BacklightBrightnessControl.SetOffBrightness` | src/adapters/backlight_brightness_control.cpp:213-223 | dark, off mode, algorithm and sensor stopped (`RunShowsMode`) |
| `Backlight.BacklightBrightnessControl.NewAutobrightnessValue` | src/adapters/backlight_brightness_control.cpp:84-98 | taken over while autobrightness is active, shown in normal mode |
| `SuspendLock.LockKeeps` | src/adapters/libsuspend_system_power_control.cpp:121-151 | the wake lock is held exactly while the id set is non-empty, and the requests to the kernel alternate |
| `SuspendLock.AllowUndoesDisallow` | src/adapters/libsuspend_system_power_control.cpp:121-151 | allowing undoes disallowing under a new id |
| `SuspendLock.HeldThroughoutWindow` | src/adapters/real_temporary_suspend_inhibition.cpp:31-45 | in every run after an inhibition, the wake lock is held at each moment before its timeout has passed, whatever the machine and overlapping windows do |
| `SuspendLock.StepKeepsCovered` | src/adapters/real_temporary_suspend_inhibition.cpp:31-45 | besides the machine exactly the open windows hold the lock |
| `SuspendLock.LockFollowsHolders` | src/adapters/libsuspend_system_power_control.cpp:121-151 | over every run the wake lock is held exactly while somebody has asked to hold off suspending and not given it back: the machine, or a window that has not been closed |
| `SuspendLock.WindowCanClose` | src/adapters/real_temporary_suspend_inhibition.cpp:39-44 | a window can be closed when its timeout has passed, and holds nothing any more then |
| `SuspendLock.NewIdIsFresh` | src/adapters/real_temporary_suspend_inhibition.cpp:34-35 | a window's id was never given before, whatever its name |
| `SuspendLock.MachineIsNoWindow` | src/adapters/real_temporary_suspend_inhibition.cpp:34-35 | no window's id is the one under which the machines block suspend |
| `SuspendLock.LibsuspendSystemPowerControl.AllowAutomaticSuspend` | src/adapters/libsuspend_system_power_control.cpp:121-135 | the lock is released when a known id was the last one |
| `SuspendLock.LibsuspendSystemPowerControl.DisallowAutomaticSuspend` | src/adapters/libsuspend_system_power_control.cpp:137-151 | the lock is acquired with the first id |
| `SuspendLock.RealTemporarySuspendInhibition.InhibitSuspendFor` | src/adapters/real_temporary_suspend_inhibition.cpp:31-45 | a fresh id blocks suspend, and its release is scheduled |
| `SuspendLock.RealTemporarySuspendInhibition.RunRelease` | src/adapters/real_temporary_suspend_inhibition.cpp:39-44 | the scheduled release withdraws this id only |
| `Autosuspend.StepKeepsBalance` | src/adapters/libsuspend/autosuspend_wakeup_count.cpp:67-208 | each step of the thread, of enable and of disable keeps: semaphore + thread at work + lost releases = enabled, up to a call in progress; that a suspend needs a written wakeup count is `SuspendsFollowWrites` |
| `Autosuspend.SemaphoreCountsEnabled` | src/adapters/libsuspend/autosuspend_wakeup_count.cpp:173-208 | over all interleavings, between calls and without failed releases, semaphore plus thread at work is one when enabled and zero when not |
| `Autosuspend.DisabledMeansAwake` | src/adapters/libsuspend/autosuspend.c:67-88 | once disable has returned no suspend is in progress and the thread cannot begin one |
| `Autosuspend.NoSuspendWhileDisabled` | src/adapters/libsuspend/autosuspend.c:67-88 | and the number of suspends stands still while only the thread runs |
| `Autosuspend.SuspendsFollowWrites` | src/adapters/libsuspend/autosuspend_wakeup_count.cpp:80-112 | over all interleavings the system is suspended once for each wakeup count that the kernel took: suspends, plus one while the thread is about to suspend, equal the successful writes, and likewise for each earlier and later step of a round |
| `Autosuspend.NoWakeupBeforeSuspend` | src/adapters/libsuspend/autosuspend_wakeup_count.cpp:72-100 | the race guard: whenever the kernel takes a wakeup count, no wakeup was counted since the thread read it, however long it waited for the semaphore |
| `Autosuspend.CallsCanSucceed` | src/adapters/libsuspend/autosuspend_wakeup_count.cpp:139-208 | from any reachable state without a call in progress and without lost releases, enabling can succeed, and disabling once the thread has left the semaphore |
| `Autosuspend.RoundCanSuspend` | src/adapters/libsuspend/autosuspend_wakeup_count.cpp:67-112 | while enabled, a round of the thread can suspend the system and leaves everything ready for the next one |
| `Autosuspend.LostReleaseIsFinal` | src/adapters/libsuspend/autosuspend_wakeup_count.cpp:108-111 | a failed release of the semaphore ends all suspending, and disable can never succeed again |
| `Autosuspend.SleepTimeAfterFailures` | src/adapters/libsuspend/autosuspend_wakeup_count.cpp:58-65 | over all interleavings the sleep time after k failed rounds in a row is min(100000 * 2^k, 60000000), reaches its maximum exactly with the tenth failure, and doubling it stays within 32 bits |
| `Autosuspend.SuspendThread.UpdateSleepTime` | src/adapters/libsuspend/autosuspend_wakeup_count.cpp:58-65 | back to the base after success, doubled up to the maximum after failure |

## Left out

- D-Bus, GLib, sysfs, timerfd, hardware lights, sensors and logging: outgoing calls are recorded, incoming ones are events; failures of the wake-lock files are not modelled.
- Floating-point rounding: brightness, light and the spline are over `real`; the repair's sign test on a division by zero is modelled by its sign.
- Wrap-around of alarm ids, request ids and sequence numbers: they are unbounded. So are timeouts in milliseconds, although the timer of the program may truncate large ones.
- MonotoneSpline.Create: points that share an x are excluded, because the program divides by their distance and goes on with infinities.
- Autobrightness.CreateBrightnessSpline: light levels that repeat or are zero are excluded for the same reason.
- The concrete default timeouts: parameters, of which only a positive reduced display-off timeout is required.
- Autobrightness.AndroidAutobrightnessAlgorithm.constructor: a maximum brightness of zero is excluded, because the program divides by it.
- Proximity state, battery state and external displays are read by handlers at the time of the call: parameters of the events. Reading a D-Bus call's sender and process id is not part of this model.
- std::sort: the sorted table is a function, an insertion by x; the flag arrays of the machine are single fields.
- Sessions.Hub: the daemon keeps its sessions as values, not as references to machine objects, so aliasing between them is not captured; each machine's handlers are proved on objects in `StateMachine`. A client event that makes several handler calls is several events here.
- Clients.System: one session. That a client without a process id speaks for all sessions is part of `Sessions`, where requests are not counted.
- Daemons.Daemon.HandleSessionRemoved: the session that stands for nobody is never removed; the program does not guard against it.
- The action queue with its mutex and condition variable: actions run one at a time, in any order.
- PowerTheorems.ProximityFollowsReasons: speaks of one machine's own calls; the sensor that all machines share is modelled in `Sessions` and `SharedSensor`.
- PowerTheorems.SuspendBlockedExactly: speaks of one machine's own calls; the block that all machines share is modelled in `Sessions` and `SharedBlock`.
- SharedSensor.SensorAgreesUnlessDisturbed: the targets of a client event are listed without duplicates, which is how `SessionsForPid` lists them.
- Autosuspend: the suspend thread, and the calls that enable and disable it, are steps over a value rather than methods, because they interleave; calls of enable and disable come one at a time. Suspending by force, which bypasses the semaphore, and the wakeup callback are not modelled.
- Autobrightness.AndroidAutobrightnessAlgorithm.RunCallback: pending callbacks are told apart by the sequence number they were scheduled with, which is unique.
- Backlight.BacklightBrightnessControl.TransitionToBrightnessValue: the pauses between writes are not modelled, and the backlight reports exactly what was last written.
- UPower, Ofono, logind, the wakeup services and device configuration: mostly calls into libraries, with simpler properties.
