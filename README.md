# Alarm PWA: scheduler, controller, notification guards and form, in Dafny

This project models the core of a browser alarm-clock application. It has four parts:

- **The service worker's alarm scheduler** (`src/workers/pwa.service-worker.js`). It keeps the map `scheduledAlarms` from alarm id to `{timeoutId, alarm, scheduledTime}` and the time of the last message. The handlers that change them are:
  - schedule, which supersedes any earlier entry and then arms or skips;
  - cancel;
  - refresh, which disarms every entry and re-arms it;
  - a timer firing;
  - the 25-second self-check;
  - the `message` listener.
- **The page controller** (`src/App.tsx`). It owns the alarm list, the alarm being edited and the two readiness flags. It also decides which requests to send to the worker.
- **The message-building guards** (`src/utils/notifications.ts`). Each is an ordered chain of checks that ends in at most one `postMessage`.
- **The alarm form** (`src/components/AlarmForm.tsx`). It holds the time-of-day rollover rule of `handleSubmit` and the zero-padded option generator.

How the model represents the browser:

- Time is an explicit integer `now` in milliseconds. Wall-clock components follow ECMAScript's time-value rules (section 21.4.1 of ECMA-262) with a fixed 86 400 000 ms day and a zero time-zone offset (`clock.dfy`).
- The platform's timers are a table from handle to the pending callback. `setTimeout` adds a handle, `clearTimeout` removes one, and a timer firing is the explicit event `Fire(handle)`. The callback holds the snapshot of the alarm it closed over.
- The map's insertion order is kept as a duplicate-free sequence of keys, because it fixes the order of the self-check's notifications.
- `showNotification` appends a `(tag, body)` pair to a log.
- The browser facts read by the page (the `Notification` and `serviceWorker` globals, the permission, the ready registration) are passed in as a value. A posted message is returned rather than sent.

The scheduler is written twice:

- as functions on a `State` value (`ScheduleIn`, `CancelIn`, `RefreshIn`, `FireIn`, `Sweep`, `SelfCheckIn`, `HandleIn`);
- as the class `AlarmScheduler`, whose fields are those of the source. Its methods run the source's loops and are proved to produce exactly the state the functions describe.

The properties are proved about the functions:

- the invariants every handler keeps (`WellFormed`: one entry per id, keyed by its own alarm, with distinct handles; `AllArmed`: every entry has its own pending timer);
- what each handler does to the set of armed alarms and to the notification log.

## Model

| member | source | states |
|---|---|---|
| ServiceWorker.NotificationFor | src/workers/pwa.service-worker.js:187-191 | the notification of an alarm has tag `alarm.id` and body `alarm.name`; `FireShows` and `DueNotificationsExact` state it for each handler that shows one |
| ServiceWorker.ScheduleIn | src/workers/pwa.service-worker.js:123-160 | `scheduleAlarmNotification` on the state value; `ScheduleStores`, `ScheduleKeepsValid`, `ScheduleTwice`, `ScheduleLastWins` and `CancelAfterSchedule` state what it does |
| ServiceWorker.CancelIn | src/workers/pwa.service-worker.js:163-173 | `cancelAlarmNotification` on the state value; `CancelRemoves`, `CancelKeepsValid` and `CancelKeepsTidy` state what it does |
| ServiceWorker.RefreshIn | src/workers/pwa.service-worker.js:94-120 | `refreshAlarmTimeouts` on the state value: the clear-and-collect loop, then one schedule per collected alarm; `RefreshKeeps`, `RefreshRearms`, `RefreshKeepsValid` and `RefreshIdempotent` state what it does |
| ServiceWorker.FireIn | src/workers/pwa.service-worker.js:146-150 | a pending callback running; `FireShows`, `FireArmed` and `FireKeepsValid` state what it does |
| ServiceWorker.SweepOne | src/workers/pwa.service-worker.js:229-236 | one iteration of the missed-alarm loop: a due entry is shown and deleted and its timer left pending; `SweepLeavesOrphan` states the consequence |
| ServiceWorker.Sweep | src/workers/pwa.service-worker.js:229-236 | the missed-alarm loop over the map's keys in order; `SweepShowsDue`, `SweepLeavesRest` and `SweepKeepsValid` state what it does |
| ServiceWorker.SelfCheckIn | src/workers/pwa.service-worker.js:213-237 | the interval body: idle refresh, then the missed-alarm loop; `BusySelfCheck`, `IdleSelfCheck`, `SelfCheckLeavesNothingDue` and `SelfCheckKeepsValid` state what it does |
| ServiceWorker.SelfCheckSweepFirstIn | src/workers/pwa.service-worker.js:213-237 | the interval body with the missed-alarm loop first; `SweepFirstShowsDue`, `SweepFirstView` and `SweepFirstKeepsValid` state what it does |
| ServiceWorker.HandleIn | src/workers/pwa.service-worker.js:6-48 | the `message` listener on the state value; `HandleFacts` states what each message type does |
| ServiceWorker.Rescheduled | src/workers/pwa.service-worker.js:123-157 | after scheduling `a` at `now`, `a.id` is armed iff `a.time - now >= 1000`, and then holds exactly `a`; the entries of other ids are unchanged |
| ServiceWorker.Refreshed | src/workers/pwa.service-worker.js:94-120 | after a refresh the ids are a subset of the previous ones; an entry survives iff it is at least 1000 ms ahead, and it keeps its alarm |
| ServiceWorker.Pending | src/workers/pwa.service-worker.js:229-236 | the entries left by the missed-alarm loop are exactly those whose time is later than `now`, unchanged |
| ServiceWorker.ScheduleStores | src/workers/pwa.service-worker.js:123-157 | the map after scheduling is `Rescheduled` of the old one; an earlier entry for the id is replaced; a stored entry has the next handle, the alarm snapshot and `scheduledTime = alarm.time >= now + 1000`; other ids are untouched |
| ServiceWorker.ScheduleKeepsValid | src/workers/pwa.service-worker.js:125-157 | scheduling keeps the state well formed and every entry armed; the new entry is armed; the timer of the superseded entry is cleared |
| ServiceWorker.ScheduleTwice | src/workers/pwa.service-worker.js:125-157 | scheduling the same alarm twice at the same instant leaves the same armed alarms as scheduling it once |
| ServiceWorker.ScheduleLastWins | src/workers/pwa.service-worker.js:125-157 | of two schedules for one id, only the second determines that id's entry, so an armed id rescheduled into the past ends up unarmed |
| ServiceWorker.CancelRemoves | src/workers/pwa.service-worker.js:163-173 | cancel removes the id's entry and clears exactly its timer; for an absent id it changes nothing; cancelling twice equals cancelling once; other entries are untouched |
| ServiceWorker.CancelKeepsValid | src/workers/pwa.service-worker.js:163-173 | cancelling keeps the state well formed and the remaining entries armed |
| ServiceWorker.CancelAfterSchedule | src/workers/pwa.service-worker.js:123-173 | scheduling an alarm and then cancelling its id leaves the same map, timers and order as cancelling alone |
| ServiceWorker.RefreshKeeps | src/workers/pwa.service-worker.js:94-120 | a refresh leaves an empty map unchanged; otherwise the armed alarms become `Refreshed` of the old ones; nothing is shown and the activity time is untouched |
| ServiceWorker.RefreshRearms | src/workers/pwa.service-worker.js:106-117 | a refresh of a non-empty map clears every old timer and re-arms the survivors under fresh handles, keeping the map's order among them |
| ServiceWorker.RefreshKeepsValid | src/workers/pwa.service-worker.js:94-120 | after a refresh the state is well formed and every entry armed |
| ServiceWorker.RefreshIdempotent | src/workers/pwa.service-worker.js:94-120 | a second refresh at the same instant arms exactly what the first left armed |
| ServiceWorker.FireShows | src/workers/pwa.service-worker.js:146-150 | a pending timer shows the notification with tag `alarm.id` and body `alarm.name` of its snapshot, then deletes that id's entry; an unknown handle changes nothing |
| ServiceWorker.FireArmed | src/workers/pwa.service-worker.js:146-150 | when an armed entry's timer fires, its own notification is appended and its entry is gone |
| ServiceWorker.FireKeepsValid | src/workers/pwa.service-worker.js:146-150 | a timer firing keeps the state well formed and the other entries armed |
| ServiceWorker.SweepShowsDue | src/workers/pwa.service-worker.js:229-236 | the missed-alarm loop leaves `Pending` of the map and appends one notification per entry with `scheduledTime <= now`, in map order |
| ServiceWorker.SweepLeavesRest | src/workers/pwa.service-worker.js:229-236 | the entries left by the loop are unchanged and later than `now`; timers, handles and activity time are untouched |
| ServiceWorker.SweepKeepsValid | src/workers/pwa.service-worker.js:229-236 | the loop keeps the state well formed and the remaining entries armed |
| ServiceWorker.DueNotificationsExact | src/workers/pwa.service-worker.js:229-236 | the loop's notifications are exactly those of the due entries, each tag once |
| ServiceWorker.NothingDueNothingShown | src/workers/pwa.service-worker.js:229-236 | when no entry is due the loop shows nothing |
| ServiceWorker.BusySelfCheck | src/workers/pwa.service-worker.js:213-237 | within 30000 ms of the last message, the self-check keeps the activity time, shows every due entry once and keeps exactly the later ones |
| ServiceWorker.IdleSelfCheck | src/workers/pwa.service-worker.js:221-236 | after more than 30000 ms without a message, the self-check resets the activity time to `now`, ends with `Refreshed` of the map and shows nothing |
| ServiceWorker.SelfCheckLeavesNothingDue | src/workers/pwa.service-worker.js:213-237 | after the self-check no entry has `scheduledTime <= now` |
| ServiceWorker.SelfCheckKeepsValid | src/workers/pwa.service-worker.js:213-237 | the self-check keeps the state well formed and every entry armed |
| ServiceWorker.OverdueAlarmLostAfterIdle | src/workers/pwa.service-worker.js:222-236 | for a valid state with one armed entry due at 10000, last message at 0, the missed-alarm loop alone would show it, yet the self-check at 50000 leaves the map empty and shows nothing |
| ServiceWorker.OverdueAlarmShownSweepFirst | src/workers/pwa.service-worker.js:222-236 | on the same state, the sweep-first self-check at 50000 shows exactly that alarm's notification |
| ServiceWorker.NearlyDueLostEitherWay | src/workers/pwa.service-worker.js:213-237 | for a valid state with one armed entry due at 50500, last message at 0, both the self-check and the sweep-first self-check at 50000 end with no entry, no pending timer and no notification |
| ServiceWorker.SweepLeavesOrphan | src/workers/pwa.service-worker.js:229-236 | in a valid state, a due entry swept by the loop is shown and deleted, but its handle stays pending, belongs to no entry, and running it appends the same notification again |
| ServiceWorker.StaleTimerShowsTwice | src/workers/pwa.service-worker.js:229-236 | the entry due at 10000, checked at 20000 with the page still active, is shown by the self-check and shown again when its timer runs |
| ServiceWorker.CancelKeepsTidy | src/workers/pwa.service-worker.js:163-173 | when every pending timer belongs to an entry, cancelling keeps it so, because the cancelled entry's timer is cleared with it |
| ServiceWorker.SweptAlarmNotRefired | src/workers/pwa.service-worker.js:229-236 | a missed-alarm loop that also clears each shown entry's timer keeps the state valid and every timer owned, shows the same notifications and leaves the same map as the loop as written; every timer still pending holds an alarm that is in the map and not yet due |
| ServiceWorker.SweepFirstShowsDue | src/workers/pwa.service-worker.js:213-237 | with the missed-alarm loop run before the idle refresh, every due entry is shown once, idle or not |
| ServiceWorker.SweepFirstView | src/workers/pwa.service-worker.js:213-237 | the sweep-first self-check ends with the same armed alarms and activity time as the source's self-check |
| ServiceWorker.SweepFirstKeepsValid | src/workers/pwa.service-worker.js:213-237 | the sweep-first self-check keeps the state well formed and every entry armed |
| ServiceWorker.HandleFacts | src/workers/pwa.service-worker.js:6-48 | every message sets the activity time to `now`; `SCHEDULE_ALARM` schedules, `CANCEL_ALARM` cancels, `KEEP_ALIVE_PING` refreshes and replies with `now` when it has a source; other types change nothing else; nothing is shown and the invariants hold |
| ServiceWorker.AlarmScheduler.constructor | src/workers/pwa.service-worker.js:4-4 | the worker starts with an empty map, activity time `now` and a valid state |
| ServiceWorker.AlarmScheduler.Schedule | src/workers/pwa.service-worker.js:123-160 | the fields after the method are `ScheduleIn` of the fields before it |
| ServiceWorker.AlarmScheduler.Cancel | src/workers/pwa.service-worker.js:163-173 | the fields after the method are `CancelIn` of the fields before it |
| ServiceWorker.AlarmScheduler.Refresh | src/workers/pwa.service-worker.js:94-120 | the two loops, collect-and-clear and then reschedule, produce `RefreshIn` of the fields before them |
| ServiceWorker.AlarmScheduler.Fire | src/workers/pwa.service-worker.js:146-150 | running a timer callback produces `FireIn` of the fields |
| ServiceWorker.AlarmScheduler.SweepMissed | src/workers/pwa.service-worker.js:229-236 | the loop that deletes while it iterates produces `Sweep` of the fields before it |
| ServiceWorker.AlarmScheduler.SweepMissedClearing | src/workers/pwa.service-worker.js:229-236 | the missed-alarm loop with `clearTimeout` on each shown entry's handle produces `SweepClearing` of the fields before it |
| ServiceWorker.AlarmScheduler.SelfCheck | src/workers/pwa.service-worker.js:213-237 | the interval body produces `SelfCheckIn` of the fields and keeps them well formed |
| ServiceWorker.AlarmScheduler.SelfCheckSweepFirst | src/workers/pwa.service-worker.js:213-237 | the interval body with the two phases swapped produces `SelfCheckSweepFirstIn` of the fields and keeps them well formed |
| ServiceWorker.AlarmScheduler.HandleMessage | src/workers/pwa.service-worker.js:6-48 | the listener produces `HandleIn` of the fields and its pong reply, keeping them well formed |
| Notifications.Supported | src/utils/notifications.ts:4-8 | notifications are supported iff both the `Notification` and the `serviceWorker` globals exist; `GetPermissionStatus` and `RequestPermission` state it in their contracts |
| Notifications.GetPermissionStatus | src/utils/notifications.ts:29-34 | "unsupported" exactly when the `Notification` or `serviceWorker` global is missing, otherwise the platform's permission |
| Notifications.RequestPermission | src/utils/notifications.ts:11-26 | true exactly when both globals exist and the request resolves to "granted"; false when unsupported, refused or rejected |
| Notifications.GetRegistration | src/utils/notifications.ts:37-53 | no registration without the `serviceWorker` global, otherwise what `ready` settles to |
| Notifications.PayloadOf | src/utils/notifications.ts:84-88 | the payload carries the alarm's id, name and time, and has no `active` field |
| Notifications.ScheduleAlarmNotification | src/utils/notifications.ts:56-102 | an inactive alarm gives false and no message; otherwise reading the permission throws without the `Notification` global; it gives true iff permission is granted and a registration with an active worker exists, and it posts exactly one `SCHEDULE_ALARM` with the payload iff it gives true |
| Notifications.PermissionCheckedBeforeRegistration | src/utils/notifications.ts:66-81 | without granted permission the result is false whatever the registration facts are |
| Notifications.CancelAlarmNotification | src/utils/notifications.ts:105-130 | true iff a registration with an active worker exists, and then exactly one `CANCEL_ALARM {alarmId}` is posted; otherwise nothing is posted |
| Notifications.CancelIgnoresPermission | src/utils/notifications.ts:105-130 | cancelling does not depend on permission or on the `Notification` global |
| Notifications.ScheduleAcceptedThenCancelAccepted | src/utils/notifications.ts:56-130 | a platform that accepts a schedule also accepts the cancellation of that id |
| Notifications.Active | src/utils/notifications.ts:138-138 | the filtered list holds exactly the active alarms of the list |
| Notifications.ActiveAppend | src/utils/notifications.ts:138-138 | the filter keeps list order, so it distributes over concatenation |
| Notifications.ScheduleAll | src/utils/notifications.ts:133-147 | posts one `SCHEDULE_ALARM` per active alarm in list order when the platform accepts schedules, and nothing otherwise; the promise rejects iff the `Notification` global is missing and some alarm is active |
| Notifications.ScheduleAllOnlyActive | src/utils/notifications.ts:133-147 | every message posted is the payload of an active alarm of the list |
| App.WithId | src/App.tsx:124-127 | the new alarm is the draft with the given id |
| App.Replaced | src/App.tsx:149-151 | same length; every alarm with the updated id becomes the updated record and every other alarm is unchanged |
| App.Flipped | src/App.tsx:186-186 | the toggled copy has the same id, name and time and the opposite `active` |
| App.ToggleRequests | src/App.tsx:189-197 | no request is made unless notifications are enabled and the worker is ready, and at most one per alarm; `ToggleRequestsExact` states which one |
| App.Toggled | src/App.tsx:184-202 | same length; alarms with the id have `active` flipped and nothing else changed, and every other alarm is unchanged |
| App.Removed | src/App.tsx:178-178 | the result holds exactly the alarms of the list whose id differs |
| App.AddRequests | src/App.tsx:132-141 | a schedule request for the new alarm is made iff notifications are enabled, the worker is ready and the alarm is active |
| App.ChangeRequests | src/App.tsx:154-162 | with both flags, an active alarm is scheduled and an inactive one cancelled; with either flag false nothing is sent |
| App.ToggleRequestsExact | src/App.tsx:184-202 | with both flags, toggling sends one request per matching alarm in order: a cancel for an alarm that was active, a schedule of the flipped alarm for one that was not |
| App.ReplacedIdempotent | src/App.tsx:148-151 | applying the same update twice equals applying it once |
| App.ReplacedKeepsIds | src/App.tsx:148-202 | update and toggle keep the list's ids and their order |
| App.ToggleTwice | src/App.tsx:181-206 | toggling the same id twice restores the list |
| App.RemovedAppend | src/App.tsx:178-178 | deleting keeps the order of the remaining alarms |
| App.RemovedAbsent | src/App.tsx:178-178 | deleting an id the list does not hold changes nothing |
| App.DeleteUndoesAdd | src/App.tsx:122-179 | deleting the id of an alarm just appended under a fresh id restores the earlier list |
| App.RingingAt | src/App.tsx:99-116 | an alarm rings at `now` iff it is active and its hour, minute and second equal those of `now` |
| App.ForegroundCheck | src/App.tsx:99-116 | the interval body finds exactly the ringing alarms, in list order, and raises an alert with each one's name only when notifications are disabled |
| App.RingWindow | src/App.tsx:99-106 | an alarm time with no milliseconds matches the clock during its first second and at no other instant of the day that follows |
| App.AlarmController.constructor | src/App.tsx:17-21 | the list is empty, nothing is being edited and both flags are false |
| App.AlarmController.ServiceWorkerInitialized | src/App.tsx:24-46 | the worker-initialisation effect sets only the ready flag |
| App.AlarmController.CheckPermissionOnMount | src/App.tsx:49-65 | notifications are enabled when already granted, disabled when denied, and otherwise set to the result of asking |
| App.AlarmController.AddAlarm | src/App.tsx:122-144 | appends exactly one alarm, the draft under the id `String(now)`, at the end; earlier alarms are unchanged; the outbox gains `AddRequests` |
| App.AlarmController.UpdateAlarm | src/App.tsx:146-168 | the list becomes `Replaced`, the outbox gains `ChangeRequests` for the updated alarm, and editing is cleared |
| App.AlarmController.DeleteAlarm | src/App.tsx:170-179 | the list becomes `Removed`; a cancel is sent iff both flags hold |
| App.AlarmController.ToggleAlarm | src/App.tsx:181-206 | the `map` loop makes the list `Toggled` and appends each matching alarm's request in list order |
| App.AlarmController.HandleRequestPermission | src/App.tsx:209-220 | notifications-enabled becomes the grant result; when granted and the worker is ready, the list is passed to `scheduleAll`, which schedules its active alarms; otherwise nothing is sent |
| App.AlarmController.Edit | src/App.tsx:335-335 | the edit button makes that alarm the one being edited |
| App.AlarmController.Tick | src/App.tsx:95-120 | one tick appends the alerts of `ForegroundCheck` and changes nothing else |
| Decimal.NatToString | src/components/AlarmForm.tsx:85-85 | the text of a natural number is a digit string with that value and no leading zero; one character below 10, two below 100 |
| Decimal.IntToString | src/App.tsx:126-126 | `Date.now().toString()`: a leading `-` exactly for negative numbers, followed by the decimal digits of the absolute value |
| Decimal.IntToStringInjective | src/App.tsx:124-127 | different clock readings give different `Date.now().toString()` identifiers |
| Decimal.PadStart2 | src/components/AlarmForm.tsx:85-85 | `padStart(2, "0")` yields at least two characters and keeps a digit string's value |
| Clock.SetHours | src/components/AlarmForm.tsx:48-48 | `setHours(h)` keeps the day, minutes, seconds and milliseconds and sets the hour to `h` |
| Clock.SetMinutes | src/components/AlarmForm.tsx:49-49 | `setMinutes(m)` keeps the day, hour, seconds and milliseconds and sets the minute to `m` |
| Clock.SetSeconds | src/components/AlarmForm.tsx:50-50 | `setSeconds(s)` keeps the day, hour, minute and milliseconds and sets the second to `s` |
| Clock.SetMilliseconds | src/components/AlarmForm.tsx:51-51 | `setMilliseconds(ms)` keeps the day, hour, minute and second and sets the milliseconds to `ms` |
| Clock.NextDay | src/components/AlarmForm.tsx:56-56 | `setDate(getDate() + 1)` moves to the following day at the same hour, minute, second and millisecond |
| AlarmForm.SubmitTime | src/components/AlarmForm.tsx:47-57 | the time has the chosen hours, minutes and seconds and 0 ms; it is today's or tomorrow's; it is never before `now` and less than a day after it; it is the earliest such instant |
| AlarmForm.EarliestOccurrence | src/components/AlarmForm.tsx:53-57 | no instant at or after `now` with the same time of day comes before the submitted time |
| AlarmForm.HandleSubmit | src/components/AlarmForm.tsx:43-79 | an edited alarm keeps `initialData.id`, a new one gets `String(now)`; name and active come from the form; the time is as `SubmitTime` states |
| AlarmForm.GenerateTimeOptions | src/components/AlarmForm.tsx:82-93 | exactly `max` options; option `i` is the decimal text of `i`, two characters long when `i < 100` and without padding otherwise; all values differ |

## Left out

- Real timers and clocks are not modelled. `setTimeout`, `setInterval`, `clearTimeout` and `Date.now` become the timer table, explicit events and an explicit `now` argument. Each handler reads the clock once. The 25-second interval period only decides when the self-check runs, so it is not part of the model.
- The worker's install and activate handlers, `skipWaiting`, `clients.claim` and precaching (`pwa.service-worker.js` lines 50-64) are not modelled. A `SKIP_WAITING` message only updates the activity time in the model.
- `notificationclick` window focusing (lines 67-88) is not modelled. Neither is the `showNotification` promise, its icon, vibration and action options, or its error logging.
- ServiceWorker.FireIn: records a notification even when the registration lacks `showNotification` (lines 180-183), because that support check is a platform fact.
- ServiceWorker.SweepOne: records a notification for each missed alarm even when the registration lacks `showNotification` (lines 180-183), for the same reason.
- The ISO 8601 text that carries an alarm time in a message is not modelled. Neither is its parsing by `new Date(...)`. Times travel as integers, so a malformed time (which makes the delay `NaN`) cannot occur.
- Asynchrony is not modelled: `await`, `postMessage` delivery and the `KEEP_ALIVE_PONG` reply channel. The reply is returned as a value. Requests from the controller are recorded in order in an outbox.
- React effect scheduling, StrictMode double invocation and the stale `alarms` closure in `deleteAlarm` are not modelled; the controller's methods run one after another on the current list.
- The effect that loads the list from storage and schedules it when the flags change (`App.tsx` lines 68-86) is not modelled. Neither is the effect that saves the list (lines 89-92). Both go through `src/utils/storage.ts`, which is not part of this model.
- The text of the in-page `alert` is recorded as the alarm's name; its fixed prefix is not modelled.
- Notifications.ScheduleAll: the platform facts are the same for every alarm of the loop; a registration that changes between awaits is not modelled.
- `navigator.serviceWorker.ready` never settling (the helpers would then never return) is not modelled. `ready` either resolves or rejects.
- AlarmForm.HandleSubmit: requires each select value to be one of the options the form offers (digits naming an hour, minute or second), so `parseInt` never yields `NaN`; the form state reset after submitting is not modelled.
- Local time zones and daylight-saving shifts are not modelled: the local offset is zero and every day has 86 400 000 ms.
- The service-worker registration helpers, `testNotification`, `src/components/AlarmList.tsx`, `src/main.tsx` and `vite.config.ts` are not part of this model.
- The comment above `refreshAlarmTimeouts` (line 93) says it re-checks and updates every alarm's timer, and the comment above the missed-alarm loop (line 228) says the loop catches alarms missed while the worker slept. The code's refresh shows nothing and drops every entry less than 1000 ms ahead, overdue ones included (`RefreshKeeps`); after an idle spell the self-check therefore shows nothing at all (`IdleSelfCheck`). The model follows the code.
- ServiceWorker.SelfCheckSweepFirstIn: the corrected order shows every entry already due, but an entry due less than 1000 ms after an idle self-check is still dropped by the refresh without being shown (`NearlyDueLostEitherWay`). A refresh that keeps such entries is not modelled.
- ServiceWorker.SweptAlarmNotRefired: assumes every pending timer is owned by an entry (`Tidy`) before the loop; that the other handlers keep this is proved for cancel only (`CancelKeepsTidy`).

## Findings

| source | as written | input that shows it | evidently intended | confidence | as-written member | corrected member |
|---|---|---|---|---|---|---|
| src/workers/pwa.service-worker.js:222-236 | when more than 30 s have passed since the last message, the self-check refreshes first; the refresh drops every entry less than 1000 ms ahead, so the missed-alarm loop that follows never sees an overdue entry, and that alarm vanishes without a notification | one armed entry `"1"` ("Wake", time 10000), last message at 0, self-check at 50000 | the missed-alarm loop exists for exactly this wake-up case: every entry already overdue when the self-check runs should be shown once and removed | not executed | ServiceWorker.OverdueAlarmLostAfterIdle | ServiceWorker.SweepFirstShowsDue |
| src/workers/pwa.service-worker.js:229-236 | the missed-alarm loop shows a due entry and deletes it from the map but does not call `clearTimeout` on its handle; when the platform later runs that callback, it shows the same alarm a second time | one armed entry `"1"` ("Wake", time 10000, handle 0), last message at 0, self-check at 20000, then the callback of handle 0 runs | each alarm is shown once: the loop should clear the timer of each entry it shows, as `cancelAlarmNotification` does | not executed | ServiceWorker.StaleTimerShowsTwice | ServiceWorker.SweptAlarmNotRefired |
