# Verification of the notification, decoding and playback logic

A Dafny model of the parts of this repository that are driven by callbacks, and proofs about every run
of them. `dafny verify dfyconfig.toml` checks the whole project.

## What is modelled

**The notification manager with its policies** (`lib/nsv-notification.c`, `lib/nsv-policy.c`, and the five
category files). A manager has a current notification, a queue, idle callbacks that start and finish
notifications, and one owner slot per policy class. Permissions are asked for asynchronously, except for the
System class, whose replies arrive inside the request.

- `Categories`, `Implementations`: the registered table, and play, stop and the callbacks of each category
  on its private record, checked against a table of what each mode of play holds.
- `Lifecycle`: the history of one notification and the automaton of legal histories.
- `Manager`: the handlers as functions on one state. `ManagerInvariant`, `ManagerSteps`,
  `ManagerReplies`, `ManagerCallbacks`: one invariant, kept by every handler. `ManagerRuns`,
  `ManagerTheorems`, `ManagerQueue`, `ManagerOrder`, `ManagerStops`: events, runs, and the theorems.
- `ManagerInputs`: what the events of a run say about each notification, its order, sound file, volume and
  permission, and that its record says the same.
- `ManagerServing`, `ManagerStranding`: who can serve the queue, and exactly which steps leave it without
  anybody. `ManagerProgress`: a queue is served exactly when some continuation without a new start begins
  somebody. `ManagerWedge`, `ManagerWitnesses`: exactly which managers never begin anybody again, and three runs
  that lead there. `ManagerServedRuns`, `ManagerTurns`: callers for whom none of this happens.
- `NotificationObjects`, `NotificationManager`: the same handlers as methods on objects that are updated in
  place, each proved to do what its function does. `Dispatch` is one turn of the main loop: it takes objects
  that stand for a reachable state to objects that stand for a reachable state, so every theorem about
  reachable states is a theorem about the objects; `Promises` and `PlaysAsTold` conclude some of them on the
  fields.

**The decoder** (`src/`). `DecoderTask` has the task with its three racing ends (byte limit, end of stream,
error) and the wrap-around of its byte counter; `DecoderService` has the queue, the running task and the exit
timer; `DecoderObjects` has both as objects, with the loop that pops tasks until one starts, and concludes on
the objects what the theorems say about runs.

**The playback object** (`lib/nsv-playback.c`). `PlaybackStream` has the copy loop of the write callback.
`Playback` has the timers as sources of the main loop, found by id, and the stream and file it opens and
closes; `PlaybackTheorems` proves what holds after every timed run, `PlaybackAnswers` what has to happen in
it: attempts, errors, answers to every round. `PlaybackClash` and `PlaybackExact` treat what repeat together with
a maximum breaks, and which stops are final; `PlaybackObjects` is the object, which keeps its history and so what
the theorems promise.

**The profile cache** (`lib/nsv-profile.c`). `Profile` has the table scan and what it amounts to;
`ProfileObjects` has the object with the nested loops, and what its caches are after any deliveries.

## What the environment promises

The theorems about the manager are about runs in which (`ManagerRuns.Enabled`)

- a reply answers a pending request, and each request is answered at most once;
- a PLAY command that upgrades (a ringtone that was not granted, while there is a current notification) meets
  one that is being played; all other commands come at any time;
- callbacks come from something that is held: no timer, playback or idle callback is delivered for a
  notification that is gone (the code does not cancel its idle finishes);
- an error comes while there is a fallback file, or after it was tried.

Two of these are exact: `UpgradeNeedsPlaying` and `ErrorNeedsFallback` show that without the promise the
handler breaks the invariant or goes on with a freed notification, in every state in which the promise fails.

What is said about continuations (`Occurs`) also assumes that the playback of a ringtone or a clock alarm, which
repeats, does not succeed, as `RegisteredPlaybacks` shows.

For the decoder, only the current task is called back. For the playback, play is called once, the context
becomes ready once, a stream reports only while it exists, and timers fire on time.

## Where the code does not do what one would expect

- The queue is not always served. `Served` says that somebody is due to start, or a started notification can
  still be answered or finished, with an end that serves the queue: a reply or an idle finish is pending, it
  holds a timer or a playback that ends, it is current and playing, or a PLAY command would give it such a
  playback. That is the right notion: without a new start somebody can begin exactly then
  (`ServedCanBegin`). `ExactlyTheseStrand` says that exactly four kinds of step lose it: a notification without
  a policy (a silent message) ends, which does not start the next one (`SilentMessageStrandsNext`); a start is
  queued behind a refused notification; a STOP command takes from one that is not current what would have
  ended it; and one that is refused takes the current pointer from one that nothing else ends.
- A notification whose class already has an owner when it begins is refused (`ExactlyTheseRefuse`): neither
  played nor finished, it stays initialized, and a later finish only sets a flag.
- A manager can be stuck for good. `ExactlyTheseAreWedged`: no continuation, whatever is started in it, begins
  anybody who has not begun, if and only if nobody is due, the current notification was refused, and nobody
  serves or, behind a refused ringtone, nobody can be queued. `ThreeAlarmsWedge`, `StopCommandWedges` and
  `TwoCallsWedge` give runs that lead there; in the last, every later notification is rejected.
- Callers can avoid all this: newcomers that ask for permission, started only while nobody waits, or only while
  no notification of their class is left, are never refused; whenever somebody waits, something is pending that
  serves the queue, and once nothing is pending the queue is empty (`CarefulCallersAreServed`).
- A notification that is playing but not current is not reached by a stop with its id
  (`StopByIdMissesPlaying`). Where callers wait until nobody waits, this cannot happen (`PatientStopsReach`).
- A playback that repeats and has a maximum may run two timers (`OneTimerExactlyWithoutTheClash`), lose one of
  them in a cleanup (`ExactlyTheseLoseTimers`) and start rounds too early
  (`RoundsAreSpacedExactlyWithoutTheClash`). None of the registered categories asks for that
  (`RegisteredPlaybacks`).
- `nsv_playback_stop` while a play waits for the context does not cancel that play: it opens its stream and
  announces itself after the stop. `ExactlyTheseStop` says exactly which stops are final, for every run and
  configuration; without the clash above these are all others (`StopBeforeReadyGoesOn`).
- The cache needs distinct keys: with a shared key a scan stops at the first row that already has the value
  (`DeliveryNeedsDistinctKeys`).
- The byte counter of a task can wrap past its limit; `ProbeIsExactUnlessItWraps` says when for one buffer,
  and `BoundIsExact` for which buffer sizes it never does.
- The system sound levels are 50 and 80 when the cache is made but 40 and 70 when a change is delivered, so
  delivering the level the cache was made with signals a change exactly when it is at least 1
  (`SameLevelSignals`).
- The clock's tone callback clears the id of its volume timer, not that of its tone timer
  (`FiredTimerIsForgotten`).

## Model

| member | source | states |
|---|---|---|
| Implementations.PlayTakesExactlyItsMode | lib/message-events.c:85-132 | from rest, play of any category takes exactly the resources of its mode (playback, tone, timer, vibration), the clock from volume step 0, and fails, taking nothing, only for System and Critical |
| Implementations.StopReleasesItsMode | lib/alarm-clock.c:57-100 | stop undoes what play took, in every category and mode; only the critical timer, and the vibration of an ungranted message, stay |
| Implementations.StopAfterTimer | lib/alarm-calendar.c:70-82 | after a tone or finish timer fired, stop still leaves nothing |
| Implementations.StopAfterLastStep | lib/alarm-clock.c:120-171 | the clock's last volume step asks for the finish, and the stop after it leaves nothing |
| Implementations.CallbacksKeepTheMode | lib/alarm-clock.c:173-185 | a started signal and a volume step before the last keep the resources those of the mode; with the started signal vibration comes on |
| Implementations.FiredTimerIsForgotten | lib/alarm-clock.c:108-118 | a timer callback forgets the timer that fired in every category but the clock, which forgets its volume timer |
| Lifecycle.LegalCounts | lib/nsv-notification.c:132-188 | in a legal history: started, asked, stopped by policy, shut down and destroyed at most once, played at most three times |
| Lifecycle.PlayAndStopAlternate | lib/nsv-notification.c:344-376 | every stop directly follows a successful play, with the play_granted of that play, and every successful play is directly followed by its stop, so shutdown comes only when silent |
| Lifecycle.CancelWins | lib/nsv-notification.c:435-452 | after a finish that overtook the play reply come only that reply, one stop request, shutdown and destruction, in this order |
| Lifecycle.RefusedNeverPlays | lib/nsv-policy.c:255-256 | a notification refused because its class has an owner is never played, stopped or destroyed |
| ManagerInvariant.InitialInv | lib/nsv-notification.c:27-71 | the manager as it is made satisfies the invariant |
| ManagerSteps.FinishKeeps | lib/nsv-notification.c:190-229 | finish of any started notification keeps the invariant and either changes nothing or makes its pending work smaller, and no other's |
| ManagerSteps.BeginKeeps | lib/nsv-notification.c:520-557 | start_notification, with a refused, pending or immediate permission, keeps the invariant and makes it current |
| ManagerSteps.TryNextKeeps | lib/nsv-notification.c:571-591 | play after the permission keeps the invariant, whether it succeeds or fails |
| ManagerReplies.StartKeeps | lib/nsv-notification.c:593-660 | an accepted start keeps the invariant, and the id it returns names a live notification despite replies that arrive inside finish |
| ManagerReplies.IdleStartKeeps | lib/nsv-notification.c:559-569 | an idle start keeps the invariant |
| ManagerReplies.PlayReplyKeeps | lib/nsv-notification.c:435-452 | a play reply, granted or not, keeps the invariant |
| ManagerReplies.LateReplyKeeps | lib/nsv-notification.c:446-449 | the play reply of a cancelled notification keeps the invariant |
| ManagerReplies.StopReplyKeeps | lib/nsv-notification.c:454-477 | a stop reply keeps the invariant while it destroys one notification and serves the queue |
| ManagerReplies.CommandStopKeeps | lib/nsv-notification.c:486-498 | a STOP command keeps the invariant |
| ManagerCallbacks.UpgradeKeeps | lib/nsv-notification.c:499-517 | a PLAY command that upgrades keeps the invariant |
| ManagerCallbacks.ErrorKeeps | lib/nsv-notification.c:344-376 | an error, before or after the fallback, keeps the invariant |
| ManagerCallbacks.TimerKeeps | lib/message-events.c:42-62 | a tone or finish timer keeps the invariant |
| ManagerCallbacks.VolumeTimerKeeps | lib/alarm-clock.c:120-171 | a volume timer keeps the invariant |
| ManagerCallbacks.IdleFinishKeeps | lib/nsv-notification.c:336-342 | an idle finish keeps the invariant |
| ManagerCallbacks.UpgradeNeedsPlaying | lib/nsv-notification.c:499-517 | an upgrading PLAY command keeps the invariant if and only if the owner is being played |
| ManagerCallbacks.ErrorNeedsFallback | lib/nsv-notification.c:347-375 | an error keeps the invariant if and only if there is a fallback file or it was tried already |
| ManagerRuns.StepKeepsInv | lib/nsv-notification.c:190-660 | every event of every interleaving keeps the invariant |
| ManagerRuns.StepWorks | lib/nsv-notification.c:190-591 | every event but a start and a state hint either changes nothing or makes some notification's pending work smaller and nobody's larger |
| ManagerRuns.StartedTakesEffect | lib/ringtone.c:46-54 | after a started signal the playback counts as announced, vibration is on exactly if it was asked for and the category vibrates, and exactly the clock has armed its volume timer |
| ManagerServing.FinishersTakeEffect | lib/nsv-notification.c:190-229 | after its idle finish, its timer, its success (not of a clock), its error after the fallback, its fourth volume step, or a stop while it is current, a notification is stopped or gone, or marked if it still waits for its play reply or was refused |
| ManagerServing.VolumeStepsAreFour | lib/alarm-clock.c:120-171 | each of the first three volume steps counts one further, arms the next and leaves the clock playing |
| ManagerTheorems.MutualExclusion | lib/nsv-policy.c:248-280 | in every reachable state at most one notification of Ringtone, of Alarm and of Event is between its play request and its stop reply, and it owns the slot |
| ManagerTheorems.OwnersAreInFlight | lib/nsv-policy.c:281-291 | commands are routed only to a live notification of that class which is between its request and its stop reply |
| ManagerQueue.SlotsAreKept | lib/nsv-policy.c:118-131 | an owned slot is emptied by the stop reply of its owner and by nothing else, and never handed over, although finalize does not check whose it is |
| ManagerTheorems.OwnershipPartition | lib/nsv-notification.c:559-660 | in every reachable state each accepted notification is exactly once queued, due to start, running or destroyed; current, requests and slots name running ones; ids leave the queue in order |
| ManagerTheorems.EveryHistoryIsLegal | lib/nsv-notification.c:190-591 | every history of every run is legal; a notification is destroyed once exactly when it is gone |
| ManagerTheorems.OvertakingStopWins | lib/nsv-notification.c:198-228 | in every run a finish before the play reply means no play ever, and then at most the late reply, one stop request, shutdown and destruction, in this order; for a refused notification, nothing but further finishes |
| ManagerTheorems.CancelledIsDestroyed | lib/nsv-notification.c:198-228 | in every run a cancelled notification that was not refused is gone once no reply and no idle finish of it is pending |
| ManagerTheorems.SettledManager | lib/nsv-notification.c:190-591 | with no reply and no idle callback pending, whoever is left waits in the queue, was refused, or was told to play and not to stop |
| ManagerTheorems.PlayingAgrees | lib/nsv-notification.c:479-518 | the playing flag agrees with the resources held, exactly also with vibration, and with the history, in every reachable state |
| ManagerTheorems.PlaysAlone | lib/nsv-policy.c:248-280 | in every reachable state no two notifications of one asynchronous class that asked for permission are playing |
| ManagerTheorems.KindsPlayAlone | lib/nsv-policy.c:248-280 | so no two ringtones, no two of clock and calendar, and no two messages that asked are ever playing together |
| ManagerInputs.EverybodyPlaysWhatWasOrdered | lib/nsv-notification.c:344-376 | after every run a record has the order and the sound file it was started with, or the fallback file exactly after an error, and its volume, or 0 exactly for a granted calendar alarm with its sound off |
| ManagerInputs.EverybodyPlaysAsPermitted | lib/nsv-policy.c:248-297 | after every run whoever was told to play has the permission that the events gave: System and Critical the last hint before they began, the others their reply, a ringtone from its upgrade on yes, and who need not ask yes |
| ManagerInputs.StepFollows | lib/nsv-notification.c:344-591 | what one event decides about permission and fallback of any notification, and that nothing else of its order, file, volume and permission changes |
| ManagerInputs.HintIsLast | lib/nsv-policy.c:292-297 | the hint of the System class is the last one delivered, false before any |
| ManagerTheorems.StepSettles | lib/nsv-notification.c:190-591 | a step without new input changes nothing or lowers the measure |
| ManagerTheorems.Settles | lib/nsv-notification.c:190-591 | without new input, the steps that still do something are bounded by the measure, so the manager settles |
| ManagerTheorems.StepIsReachable | lib/nsv-notification.c:190-660 | one turn of the main loop leads from reachable states to reachable states |
| ManagerStranding.ExactlyTheseStrand | lib/nsv-notification.c:190-557 | a served queue stops being served if and only if, while nobody is due and nobody else serves, a notification without a policy ends, a start is queued behind a refused current one, a STOP command silences one that is not current and has neither an idle finish nor an upgrade to come, or the last one due is refused and becomes current |
| ManagerProgress.ServedCanBegin | lib/nsv-notification.c:190-591 | some continuation without a new start begins somebody who waits if and only if somebody is due, or somebody waits and somebody serves |
| ManagerStranding.ExactlyTheseRefuse | lib/nsv-policy.c:255-256 | in any state, a step refuses somebody who was not refused before if and only if it begins a notification whose class has an owner |
| ManagerServing.RefusedIsTurned | lib/nsv-policy.c:248-257 | a started notification is without a request before its play exactly when its history says that it was refused |
| ManagerServedRuns.NoStranding | lib/nsv-notification.c:559-569 | in a run whose newcomers all ask for permission and in which nobody is refused, whenever somebody waits somebody is due, or a started one has a pending reply or idle finish |
| ManagerServedRuns.QuietIsEmpty | lib/nsv-notification.c:559-591 | where that holds and nobody is refused, a manager with nothing pending has an empty queue, and whoever is left was told to play and not to stop |
| ManagerServedRuns.FreeStartsAreNotRefused | lib/nsv-policy.c:248-257 | a caller that starts a notification only while no live one is of its class never has one refused |
| ManagerTurns.PatientStartsAreNotRefused | lib/nsv-notification.c:646-655 | a caller that starts a notification only while nobody waits never has one refused; at most one is started and at most one waits |
| ManagerTurns.CarefulCallersAreServed | lib/nsv-notification.c:559-660 | from the beginning, for asking callers of either kind, at every point of every run: whenever somebody waits something is pending that serves the queue, nobody is refused, and once nothing is pending nobody waits |
| ManagerTurns.PatientStopsReach | lib/nsv-notification.c:390-415 | for callers that start only while nobody waits, every started notification is current, so a stop by its id finishes it |
| ManagerWedge.WedgedStaysWedged | lib/nsv-notification.c:198-205 | nothing that occurs, starts included, unwedges a manager or begins anybody on it |
| ManagerWedge.WedgedForever | lib/nsv-notification.c:190-660 | over every continuation the same refused notification stays current and nobody starts |
| ManagerWedge.ExactlyTheseAreWedged | lib/nsv-notification.c:190-660 | no continuation begins anybody who has not begun, however much is started, if and only if nobody is due, the current one was refused, and nobody serves or it is a ringtone with nobody queued behind it |
| ManagerWedge.RefusedRingtoneRejectsAll | lib/nsv-notification.c:602-624 | behind a refused ringtone with an empty queue no start of any continuation gets an id |
| ManagerWitnesses.ThreeAlarmsWedge | lib/nsv-policy.c:248-257 | three alarms in a row lead from the start to a wedged manager, although all ask for permission; a call after them waits for good |
| ManagerWitnesses.StopCommandWedges | lib/nsv-notification.c:486-498 | while the third alarm is refused and the second still plays, a STOP command wedges the manager; a call after it waits for good |
| ManagerWitnesses.TwoCallsWedge | lib/nsv-notification.c:602-660 | two calls during an alarm wedge the manager while the first still rings: every later start is rejected |
| ManagerWitnesses.StopByIdMissesPlaying | lib/nsv-notification.c:390-415 | a reachable state in which a stop by the id of a playing notification changes nothing |
| ManagerServedRuns.SilentMessageStrandsNext | lib/nsv-notification.c:539-554 | from every manager with nobody current, waiting, due or serving, a silent message followed by anything that displaces it strands the second |
| ManagerOrder.IdsIncrease | lib/nsv-notification.c:630-635 | ids handed out in a run are strictly increasing, so never reused |
| ManagerOrder.RegisteredRanks | lib/ringtone.c:128-138 | who displaces whom in the registered table of priorities and flags |
| ManagerOrder.AcceptedExactly | lib/nsv-notification.c:593-660 | a start is accepted exactly if its notification was initialized and nobody is current or somebody it displaces, by category; otherwise -1 and no change |
| ManagerOrder.RingtoneCannotBeDisplaced | lib/nsv-notification.c:602-624 | while a ringtone is current any sequence of starts is refused and changes nothing |
| ManagerOrder.OnlyDisplacersAreAccepted | lib/nsv-notification.c:602-660 | in any run of starts an id is handed out if and only if some newcomer displaces the category that was current; otherwise nothing at all changes |
| ManagerOrder.OnlyDisplacersDisturb | lib/nsv-notification.c:646-660 | whatever changes about the current notification in a run of starts, a displacer among them is behind it |
| ManagerStops.StopByIdTakesOne | lib/nsv-notification.c:390-415 | a stop by id finishes the current one, or removes just the queued one, or does nothing |
| ManagerStops.FinishBySenderTakesFirst | lib/nsv-notification.c:231-262 | when the current one is another's, exactly the first queued one of the sender is removed |
| ManagerStops.SenderGoneEndsItsCall | lib/nsv-notification.c:231-262 | when a sender leaves, a current ringtone of its own is stopped as by its id, otherwise its first queued ringtone is, otherwise nothing happens; no other category and no other sender is concerned |
| ManagerStops.StopConcerns | lib/nsv-notification.c:390-415 | a stop by id leaves every other notification as it is, except that the head of the queue may become due |
| ManagerStops.FinishByCategoryFilters | lib/nsv-notification.c:264-291 | when the current one is of another category, the queue becomes its stable filter and exactly the queued ones of the category are destroyed |
| ManagerStops.ReadIsStop | lib/nsv-notification.c:264-276 | reading the category of the current notification stops it as by its id |
| NotificationObjects.NsvNotification.Play | lib/nsv-notification.c:580-590 | dispatches on the category to a play that takes the resources of the mode, on the fields themselves |
| NotificationObjects.NsvNotification.RingtonePlay | lib/ringtone.c:61-98 | the assignments to the fields amount to the ringtone's play of PlayTakesExactlyItsMode; nothing but the named fields changes |
| NotificationObjects.NsvNotification.ClockPlay | lib/alarm-clock.c:187-225 | the same for the clock, which also resets its volume step |
| NotificationObjects.NsvNotification.CalendarPlay | lib/alarm-calendar.c:84-124 | the same for the calendar, which also overwrites the volume with 0 when its sound is off |
| NotificationObjects.NsvNotification.EventPlay | lib/message-events.c:85-132 | the same for messages, in their silent, tone and playback modes |
| NotificationObjects.NsvNotification.SystemPlay | lib/system-events.c:54-84 | the same for system events, with the failure that leaves every field alone |
| NotificationObjects.NsvNotification.CriticalPlay | lib/system-events.c:131-169 | the same for critical events, which fail only without sound |
| NotificationObjects.NsvNotification.RingtoneStop | lib/ringtone.c:100-126 | the assignments to the fields amount to the ringtone's stop of StopReleasesItsMode |
| NotificationObjects.NsvNotification.ClockStop | lib/alarm-clock.c:57-100 | the same for the clock, whose volume timer goes in both modes |
| NotificationObjects.NsvNotification.CalendarStop | lib/alarm-calendar.c:126-160 | the same for the calendar |
| NotificationObjects.NsvNotification.EventStop | lib/message-events.c:134-166 | the same for messages, whose timer goes in both modes |
| NotificationObjects.NsvNotification.CriticalStop | lib/system-events.c:171-194 | the same for critical events, whose timer stays |
| NotificationObjects.NsvNotification.OnTimer | lib/alarm-clock.c:108-118 | which id and tone each category's timer callback clears, the clock clearing the id of its other timer |
| NotificationObjects.NsvNotification.OnVolumeTimer | lib/alarm-clock.c:120-171 | a volume step on the fields, and whether the finish follows |
| NotificationManagers.NotificationManager.Start | lib/nsv-notification.c:593-660 | the objects after a start, and the id returned, are those of the model |
| NotificationManagers.NotificationManager.StartNotification | lib/nsv-notification.c:520-557 | the objects after start_notification are those of the model |
| NotificationManagers.NotificationManager.TryNext | lib/nsv-notification.c:571-591 | the objects after the permission are those of the model |
| NotificationManagers.NotificationManager.StartNext | lib/nsv-notification.c:559-569 | the head of the queue, if any, gets an idle start |
| NotificationManagers.NotificationManager.Finish | lib/nsv-notification.c:190-229 | the objects after a finish are those of the model, with a permission answered inside it |
| NotificationManagers.NotificationManager.PlayPermission | lib/nsv-policy.c:248-280 | the slot, the request or the immediate answer are those of the model |
| NotificationManagers.NotificationManager.StopPermission | lib/nsv-policy.c:207-232 | the slot, the request or the immediate destruction are those of the model |
| NotificationManagers.NotificationManager.OnPlayReply | lib/nsv-policy.c:234-246 | a play reply on the objects |
| NotificationManagers.NotificationManager.OnStopReply | lib/nsv-policy.c:192-205 | a stop reply on the objects |
| NotificationManagers.NotificationManager.OnCommand | lib/nsv-notification.c:479-518 | a command reaches the owner's object and no other |
| NotificationManagers.NotificationManager.Error | lib/nsv-notification.c:344-376 | an error on the objects, and whether the code goes on with a freed notification |
| NotificationManagers.NotificationManager.Stop | lib/nsv-notification.c:390-415 | the walk along the queue finds the one notification with that id |
| NotificationManagers.NotificationManager.FinishBySender | lib/nsv-notification.c:231-262 | the walk along the queue stops at the first of the sender |
| NotificationManagers.NotificationManager.FinishByCategory | lib/nsv-notification.c:264-291 | the walk along the queue removes and finishes all of the category |
| NotificationManagers.NotificationManager.Dispatch | lib/nsv-notification.c:436-660 | one turn of the main loop keeps the objects in step with a reachable state of the model, and with the run that led there |
| NotificationManagers.NotificationManager.Promises | lib/nsv-notification.c:190-660 | on the objects: current, queue and slots name objects, whoever plays holds what its mode takes and nobody else anything that sounds or fires, and no two of one class play that asked |
| NotificationManagers.NotificationManager.PlaysAsTold | lib/nsv-notification.c:344-660 | on the objects: each is what was started under its id, with its file or its fallback file, its volume, and the permission that the events gave |
| DecoderTask.SuccessComesFirst | src/nsv-decoder-task.c:215-332 | over every sequence of events, success is reported at most once, only as the first report, never after an error; a started task has reported nothing |
| DecoderTask.IdleIsAccountedFor | src/nsv-decoder-task.c:315-331 | the idle source that EOS removes is always pending, and a completed task that has not reported has its report pending |
| DecoderTask.ProbeIsExactUnlessItWraps | src/nsv-decoder-task.c:245-249 | one buffer is compared exactly if and only if it does not take the sum past 2^32 and below the limit |
| DecoderTask.BoundIsExact | src/nsv-decoder-task.c:231-256 | completion goes by the exact sum in every run with buffers up to a bound if and only if the bound is at most 2^32 minus the limit |
| DecoderTask.CompletedAtTheLimit | src/nsv-decoder-task.c:231-256 | with bounded buffers, a task is completed exactly when the exact sum has reached the limit or the stream ended |
| DecoderTask.ScheduledAtTheLimit | src/nsv-decoder-task.c:231-256 | the idle success is scheduled exactly once, at the buffer that reaches the limit, if the stream has not ended before; otherwise never |
| DecoderTask.Overshoot | src/nsv-decoder-task.c:245-253 | only one buffer reaches the limit, and the sum exceeds it by less than that buffer |
| DecoderTask.CompletedAfterTheSound | src/nsv-decoder-task.c:231-256 | a task is completed exactly when its bytes reach the cut-off in milliseconds of 48 kHz, 16 bit, mono sound, or the stream ended before it reported |
| DecoderTask.CompletedWithoutCutOff | src/nsv-decoder-task.c:507-516 | without a cut-off exactly when the stream ended |
| DecoderTask.ScheduledAfterTheSound | src/nsv-decoder-task.c:245-253 | the idle success is scheduled exactly once, at the buffer that completes that length of sound, which is exceeded by less than that buffer; never if the stream ended before |
| DecoderTask.SilentExactlyUntilEnded | src/nsv-decoder-task.c:215-332 | a task has reported nothing exactly while no bus error, end of its stream, or idle callback after its length of sound has come |
| DecoderTask.TheFirstEndDecides | src/nsv-decoder-task.c:215-332 | the first of those events decides: a bus error is a failure, the others are successes |
| DecoderTask.ErrorsAreFailures | src/nsv-decoder-task.c:283-302 | as many failures are reported as bus errors came |
| DecoderService.EveryRequestIsReportedInOrder | src/nsv-decoder-service.c:166-276 | after every run the requests are the reported ones, then the running one, then the queue; each report is the one signal of its task or the failure to start it; the timer is armed exactly when nothing is under way |
| DecoderService.ExitLosesNothing | src/nsv-decoder-service.c:103-108 | when the exit timer can fire every accepted request has been reported |
| DecoderService.ReportsAreFinal | src/nsv-decoder-service.c:166-201 | later events only add reports |
| DecoderService.StartNextAccounts | src/nsv-decoder-service.c:203-250 | a run of tasks that fail to start is reported in order, up to the first that starts |
| DecoderService.ReportsAreDeserved | src/nsv-decoder-service.c:134-201 | each report of a begun task comes with the last event it heard and is what that event deserves: an error, the end of its stream, or the idle callback after a minute of sound; no earlier event deserved one |
| DecoderService.CurrentIsCompletedAfterAMinute | src/nsv-decoder-task.c:245-256 | the running task is completed exactly when a minute of its sound, 5760000 bytes, has been produced |
| DecoderObjects.NsvDecoderTask.OnBuffer | src/nsv-decoder-task.c:231-256 | the probe in place, with guint wrap-around |
| DecoderObjects.NsvDecoderTask.OnIdle | src/nsv-decoder-task.c:215-229 | the idle callback in place |
| DecoderObjects.NsvDecoderTask.OnEos | src/nsv-decoder-task.c:307-332 | EOS and SEGMENT_DONE in place |
| DecoderObjects.NsvDecoderTask.Start | src/nsv-decoder-task.c:505-529 | a task that starts is in the state from which the runs begin |
| DecoderObjects.NsvDecoderService.StartNextTask | src/nsv-decoder-service.c:203-250 | the loop pops and reports tasks until one starts, and arms the timer when none does |
| DecoderObjects.NsvDecoderService.Decode | src/nsv-decoder-service.c:252-276 | an accepted request disarms the timer and joins the queue |
| DecoderObjects.NsvDecoderService.OnSignal | src/nsv-decoder-service.c:166-201 | a report of the current task frees its place for the next |
| DecoderObjects.NsvDecoderService.Dispatch | src/nsv-decoder-service.c:166-276 | one turn of the main loop keeps the service on a run of the model, its history longer by the event |
| DecoderObjects.NsvDecoderService.Promises | src/nsv-decoder-service.c:103-276 | on the object, after every run: requests are the reported ones in order, each truthfully, then what is under way; the exit timer is set only when all were reported |
| DecoderObjects.NsvDecoderService.ReportsAreDeserved | src/nsv-decoder-service.c:134-201 | the same on the object |
| DecoderObjects.NsvDecoderService.CurrentTaskIsSilent | src/nsv-decoder-task.c:215-332 | on the object, after every run: the current task has reported nothing, if it is completed its report is pending, and it is completed exactly after a minute of sound |
| PlaybackStream.AcceptedIsAPrefix | lib/nsv-playback.c:529-577 | over all callbacks and short reads the bytes accepted are a prefix of the file, all of it on a clean end; one drain, and no write after it |
| PlaybackStream.FeedIsFaithful | lib/nsv-playback.c:545-567 | one callback writes no more than asked, and exactly that much while the copying goes on |
| PlaybackStream.NothingIsOwed | lib/nsv-playback.c:529-577 | while the copying goes on every callback got exactly what it asked for |
| PlaybackStream.CleanCopiesEnd | lib/nsv-playback.c:571-577 | asking for more than the file has ends a clean copy, with the whole file accepted |
| PlaybackStream.StreamWriter.OnWrite | lib/nsv-playback.c:529-577 | the loop over the buffer does what the recursive account of one callback says, terminates, and keeps the writer on a run |
| PlaybackStream.StreamWriter.TakesAPrefix | lib/nsv-playback.c:529-577 | on the object, after any callbacks: the stream has taken a prefix of the file, all of it after a clean end, all that was asked for before, and one drain |
| PlaybackTheorems.LifecycleHolds | lib/nsv-playback.c:425-717 | after every run: at most one stream and one file are open; started at most once over all rounds and before any success; no success when repeating, at most one otherwise; at most one timer unless repeat and maximum are combined |
| PlaybackAnswers.EveryRoundIsAnswered | lib/nsv-playback.c:425-527 | after every run, a drained stream that was not stopped has its success, exactly one, or if repeating the timer of its next round, due within a second, unless its check timer is still to fire; a connected stream was announced exactly once |
| PlaybackAnswers.TimersSucceed | lib/nsv-playback.c:451-495 | the check timer and the maximum of a single shot each bring its one success there and then, the maximum with everything closed |
| PlaybackAnswers.DrainDecides | lib/nsv-playback.c:497-527 | a drain within 50 ms of the minimum or later ends the round at once, by a success or a timer of a second; an earlier one arms a check due at the minimum |
| PlaybackAnswers.DeadlinesAreKept | lib/nsv-playback.c:684-692 | while a single shot with a maximum has its stream open, the timer of the maximum runs and is due that long after the connection; a check timer is due at the minimum |
| PlaybackAnswers.AttemptsAreCounted | lib/nsv-playback.c:579-792 | after every run: one connected stream per attempt that connected, one error, emitted or pending, per attempt that failed or stream that failed, one stopped signal per stop; an attempt is a play and a context that meet, or a repeat timer |
| PlaybackAnswers.AttemptLeaves | lib/nsv-playback.c:579-704 | what each outcome of an attempt leaves open |
| PlaybackAnswers.StopsClose | lib/nsv-playback.c:465-480 | a stop, and a stream that fails, close the stream and the file there and then, and without the clash every timer |
| PlaybackAnswers.StoppedDrainIsSilent | lib/nsv-playback.c:512-513 | a stream that drains after a stop brings no signal and no timer |
| PlaybackAnswers.CopiedDrains | lib/nsv-playback.c:571-577 | when everything is copied the drain may come, and nothing else has changed |
| PlaybackTheorems.CleanupLeavesNothing | lib/nsv-playback.c:89-138 | a cleanup at any time leaves no stream and no file, and no timer unless repeat and maximum are combined |
| PlaybackTheorems.SuccessIsOnTime | lib/nsv-playback.c:483-527 | in every configuration a success comes no sooner than the smaller of min - 50 ms and max after its stream was connected, and no later than max or, if that is longer, a millisecond after min |
| PlaybackTheorems.RoundsAreSpaced | lib/nsv-playback.c:425-449 | rounds of a playback without the clash begin at least min - 50 + 1000 ms apart, and never less than 1000 |
| PlaybackExact.RoundsAreSpacedExactlyWithoutTheClash | lib/nsv-playback.c:425-463 | rounds are so spaced in every run if and only if repeat and a maximum are not combined, or there is no file |
| PlaybackExact.ExactlyTheseLoseTimers | lib/nsv-playback.c:89-138 | a cleanup finds every timer in every run if and only if there is no file, repeat and a maximum are not combined, or the minimum exceeds the maximum by more than 1050 ms |
| PlaybackExact.OneTimerExactlyWithoutTheClash | lib/nsv-playback.c:425-527 | no run has two timers if and only if repeat and a maximum are not combined, or there is no file |
| PlaybackClash.ExactlyTheseStop | lib/nsv-playback.c:706-807 | after a stop nothing is opened or announced, in any continuation without another play, if and only if there is no file, or no play waits for the context and the cleanup found every timer |
| PlaybackClash.StopBeforeReadyGoesOn | lib/nsv-playback.c:794-807 | without the clash, a stop is final if and only if the context was ready or no play was waiting for it |
| PlaybackClash.OnlyRepeatsSurvive | lib/nsv-playback.c:89-138 | in every run and configuration, what a cleanup leaves running is only repeat timers, and none without the clash |
| PlaybackTheorems.RegisteredPlaybacks | lib/ringtone.c:75-82 | with the settings of the five implementations: at most one timer, started at most once, no success for ringtones and clocks, whose rounds are at least 3950 ms apart |
| PlaybackTheorems.RegisteredSuccesses | lib/alarm-calendar.c:99-108 | with those settings a success comes at least 2950 ms after its stream was connected, for system events 950 ms, and for the calendar at most 10000 ms |
| PlaybackObjects.NsvPlayback.Cleanup | lib/nsv-playback.c:89-138 | the cleanup in place |
| PlaybackObjects.NsvPlayback.PlayReal | lib/nsv-playback.c:579-704 | the attempt to open file and stream, with each way it can fail |
| PlaybackObjects.NsvPlayback.OnDrained | lib/nsv-playback.c:497-527 | the drain callback in place, with truncated milliseconds |
| PlaybackObjects.NsvPlayback.OnTimer | lib/nsv-playback.c:425-495 | each timer callback in place, its source gone afterwards |
| PlaybackObjects.NsvPlayback.Play | lib/nsv-playback.c:775-792 | play now, or when the context is ready |
| PlaybackObjects.NsvPlayback.Stop | lib/nsv-playback.c:794-807 | stop releases everything and says so |
| PlaybackObjects.NsvPlayback.Dispatch | lib/nsv-playback.c:425-807 | one event keeps the object on a run, its history longer by the event |
| PlaybackObjects.NsvPlayback.Promises | lib/nsv-playback.c:425-807 | on the object, after every run: one stream and file at most, the counts and the order of the signals, single timers without the clash, successes on time |
| PlaybackObjects.NsvPlayback.Answers | lib/nsv-playback.c:425-807 | on the object, after every run: every round is answered, every failure is an error, every stop a signal, every connection announced |
| PlaybackObjects.NsvPlayback.Finalize | lib/nsv-playback.c:140-186 | finalizing leaves no stream and no file, and no timer without the clash |
| Profile.ScansWriteOnce | lib/nsv-profile.c:245-268 | with distinct keys any number of scans is one write with at most one signal |
| Profile.DistinctKeysDeliver | lib/nsv-profile.c:222-268 | with distinct keys a delivery reaches every row of its key, whatever is cached |
| Profile.DeliveryNeedsDistinctKeys | lib/nsv-profile.c:222-268 | with every row cached, every delivery reaches every row of its key if and only if no key is shared |
| Profile.SharedKeyLosesUpdate | lib/nsv-profile.c:262-263 | for every two rows with one key there is a full cache and a value whose delivery changes nothing and misses the second row |
| Profile.CacheIsLastWrite | lib/nsv-profile.c:270-309 | after any deliveries the cache has the value delivered last, and the signals are exactly the real changes, each with the value before it |
| Profile.LevelSignalsAreChanges | lib/nsv-profile.c:280-297 | over any deliveries, each level signal differs from the one before it, the first from the initial level, and the last is the cached level |
| Profile.SameLevelSignals | lib/nsv-profile.c:461-473 | delivering the level that the cache was made with signals a change if and only if it is at least 1 |
| Profile.LastLevelDecides | lib/nsv-profile.c:280-297 | over any deliveries the cached level is 0, 40 or 70 by the level delivered last, and 0, 50 or 80 while none was |
| ProfileObjects.TablesShareNoKey | lib/nsv-profile.c:62-140 | the two tables have distinct ids and, with distinct platform keys, distinct keys |
| ProfileObjects.NsvProfile.EmitToneChanged | lib/nsv-profile.c:245-268 | one scan of the tone table in place |
| ProfileObjects.NsvProfile.EmitVolumeChanged | lib/nsv-profile.c:222-243 | one scan of the volume table in place, a missing volume counting as 0 |
| ProfileObjects.NsvProfile.OnToneKey | lib/nsv-profile.c:411-429 | the tone callback scans once per row, and keeps the cache that of a run of deliveries |
| ProfileObjects.NsvProfile.OnVolumeKey | lib/nsv-profile.c:391-409 | the volume callback scans once per row, and keeps the cache that of a run of deliveries |
| ProfileObjects.NsvProfile.OnLevel | lib/nsv-profile.c:280-297 | the sound level and its signals stay those of the levels delivered so far |
| ProfileObjects.NsvProfile.OnValue | lib/nsv-profile.c:270-309 | which values are taken from which profile; the silent one delivers no tones and volumes |
| ProfileObjects.NsvProfile.TonesAreLastWrites | lib/nsv-profile.c:245-309 | on the object, with distinct keys: each tone is the one delivered last for its key, and its signals are exactly the real changes |
| ProfileObjects.NsvProfile.VolumesAreLastWrites | lib/nsv-profile.c:222-309 | the same for the volumes |
| ProfileObjects.NsvProfile.CategoriesAreLastWrites | lib/nsv-profile.c:62-140 | on the object, category by category: the tone and the volume are the ones delivered last for its own platform key |
| ProfileObjects.NsvProfile.LevelsAreChanges | lib/nsv-profile.c:280-297 | on the object: level signals are changes, the last is the cached level, and the first delivery of the initial level signals if and only if it is at least 1 |

## Left out

- Shutdown of the manager and of the library: it discards the manager while stop replies may be outstanding.
- D-Bus, the bus filter and its match rules, PulseAudio, GStreamer, libsndfile, X11, GConf and libprofile: only
  their replies, events and results are modelled. The vibration and tone services are seen as on or off for
  one notification, although they are global.
- Plugin, utility, system proxy, Pulse context and decoder client files, the choice of the sound file, and
  property plumbing: lookups and single decisions.
- Notifications are named by the id they get; the C code holds pointers. The heap objects are kept in a map
  from ids, and the `gint` range of ids is not modelled.
- The write to a freed record at `lib/nsv-notification.c:475`, the walk from a freed list link at
  `lib/nsv-notification.c:280-290`, and the old tone string signalled after its replacement at
  `lib/nsv-profile.c:265-266` are modelled as intended: no write, the next link, the old value.
- A sender that is NULL matches no sender; the code would hand it to a string comparison.
- A tone that was never cached is compared by the code as a NULL string; `Cached` asks that it is there.
- The volumes and times of the clock's ramp: only its timer and its four steps are modelled.
- Which of several policy classes may play at once: the playback manager decides that.
- `nsv_decoder_task_stop` and the removal of the target file after an error; the fade; the setup of the
  pipeline, which is one outcome, whether it starts.
- Signed overflow of 96 times the cut-off time: `Limit` wraps it as the guint it is stored in.
- The streaming thread: probe, bus watch and idle callback are atomic steps.
- The playback without a context, where stop does nothing, and errors during its construction.
- The `handle` and `sndfile` of a sound that is not decoded count as one file.
- The keys of the platform's profile are parameters; keys_nokia.h is not part of this repository.
- PlaybackTheorems.RoundsAreSpaced: asks that repeat and a maximum are not combined; `RoundsAreSpacedExactlyWithoutTheClash` shows that this is the exact condition for playbacks with a file.
- PlaybackTheorems.CleanupLeavesNothing: claims nothing about timers when repeat and a maximum are combined; `ExactlyTheseLoseTimers` has the exact condition.
- DecoderTask.CompletedAtTheLimit: asks that no buffer is larger than 2^32 minus the limit, because the counter wraps; `BoundIsExact` shows that no larger bound will do.
- DecoderTask.ScheduledAtTheLimit: asks the same.
