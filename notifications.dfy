/**
 * The page-side helpers that talk to the service worker: the support and
 * permission queries, and the guard chains that end in at most one
 * `postMessage` to the active worker.
 *
 * The browser is not modelled; the facts each guard reads are fields of a
 * `Platform` value passed in, and a posted message is returned instead of sent.
 */
module Notifications {
  import opened AlarmTypes
  import opened Wrappers

  /** `Notification.permission`. */
  datatype Permission = Granted | Denied | Default

  /** A service-worker registration, reduced to whether it has an active worker. */
  datatype Registration = Registration(hasActiveWorker: bool)

  /** What the guards read from the browser. */
  datatype Platform = Platform(
    hasNotificationApi: bool,      // `"Notification" in window`
    hasServiceWorkerApi: bool,     // `"serviceWorker" in navigator`
    permission: Permission,        // `Notification.permission`
    ready: Option<Registration>)   // `navigator.serviceWorker.ready`: resolved, or None when it rejects

  /** The value of `getNotificationPermissionStatus`. */
  datatype PermissionStatus = Unsupported | Status(permission: Permission)

  /** How `Notification.requestPermission()` settles. */
  datatype RequestAnswer = Answered(permission: Permission) | Failed

  /**
   * How one of the async helpers settles: with its boolean and the message it
   * posted, if any, or by throwing.
   */
  datatype Outcome = Returned(ok: bool, post: Option<WorkerMessage>) | Threw

  /** `checkNotificationSupport`. */
  predicate Supported(p: Platform) {
    p.hasNotificationApi && p.hasServiceWorkerApi
  }

  /** `getNotificationPermissionStatus`. */
  function GetPermissionStatus(p: Platform): (r: PermissionStatus)
    ensures r == Unsupported <==> !Supported(p)
    ensures r.Status? ==> r.permission == p.permission
  {
    if !Supported(p) then Unsupported else Status(p.permission)
  }

  /** `requestNotificationPermission`, given how the browser answers the request. */
  function RequestPermission(p: Platform, answer: RequestAnswer): (granted: bool)
    ensures granted <==> Supported(p) && answer == Answered(Granted)
  {
    if !Supported(p) then false
    else match answer
      case Failed => false
      case Answered(permission) => permission == Granted
  }

  /** `getServiceWorkerRegistration`: null without the API or when `ready` rejects. */
  function GetRegistration(p: Platform): (r: Option<Registration>)
    ensures !p.hasServiceWorkerApi ==> r == None
    ensures p.hasServiceWorkerApi ==> r == p.ready
  {
    if !p.hasServiceWorkerApi then None else p.ready
  }

  /** A registration with an active worker is obtained. */
  predicate HasActiveWorker(p: Platform) {
    GetRegistration(p).Some? && GetRegistration(p).value.hasActiveWorker
  }

  /** Every guard of `scheduleAlarmNotification` after the active flag passes. */
  predicate AcceptsSchedules(p: Platform) {
    p.hasNotificationApi && p.permission == Granted && HasActiveWorker(p)
  }

  /** The copy sent to the worker: identifier, name and time, without `active`. */
  function PayloadOf(a: Alarm): (r: AlarmPayload)
    ensures r.id == a.id && r.name == a.name && r.time == a.time
  {
    AlarmPayload(a.id, a.name, a.time)
  }

  /**
   * `scheduleAlarmNotification`. The guards run in source order: the active
   * flag, then `Notification.permission` (which throws when the `Notification`
   * global is missing), then the registration, then its active worker.
   */
  function ScheduleAlarmNotification(p: Platform, alarm: Alarm): (r: Outcome)
    ensures !alarm.active ==> r == Returned(false, None)
    ensures r == Threw <==> alarm.active && !p.hasNotificationApi
    ensures r.Returned? ==> (r.ok <==> r.post.Some?)
    ensures r.Returned? && r.ok <==> alarm.active && AcceptsSchedules(p)
    ensures r.Returned? && r.post.Some? ==> r.post.value == ScheduleAlarm(PayloadOf(alarm))
  {
    if !alarm.active then Returned(false, None)
    else if !p.hasNotificationApi then Threw
    else if p.permission != Granted then Returned(false, None)
    else match GetRegistration(p)
      case None => Returned(false, None)
      case Some(registration) =>
        if !registration.hasActiveWorker then Returned(false, None)
        else Returned(true, Some(ScheduleAlarm(PayloadOf(alarm))))
  }

  /** `cancelAlarmNotification`: registration checks only, no permission check. */
  function CancelAlarmNotification(p: Platform, alarmId: string): (r: Outcome)
    ensures r.Returned?
    ensures r.ok <==> HasActiveWorker(p)
    ensures r.ok <==> r.post == Some(CancelAlarm(alarmId))
    ensures !r.ok ==> r.post == None
  {
    match GetRegistration(p)
      case None => Returned(false, None)
      case Some(registration) =>
        if !registration.hasActiveWorker then Returned(false, None)
        else Returned(true, Some(CancelAlarm(alarmId)))
  }

  /**
   * Permission is checked before the registration: a platform that has not
   * granted permission refuses to schedule whatever its service-worker facts are.
   */
  lemma PermissionCheckedBeforeRegistration(p: Platform, q: Platform, alarm: Alarm)
    requires alarm.active && p.hasNotificationApi && q.hasNotificationApi
    requires p.permission == q.permission != Granted
    ensures ScheduleAlarmNotification(p, alarm) == ScheduleAlarmNotification(q, alarm) == Returned(false, None)
  {
  }

  /** Cancelling depends on the service-worker facts alone, never on permission or support. */
  lemma CancelIgnoresPermission(p: Platform, q: Platform, alarmId: string)
    requires p.hasServiceWorkerApi == q.hasServiceWorkerApi && p.ready == q.ready
    ensures CancelAlarmNotification(p, alarmId) == CancelAlarmNotification(q, alarmId)
  {
  }

  /** A platform that accepts schedules also accepts cancellations. */
  lemma ScheduleAcceptedThenCancelAccepted(p: Platform, alarm: Alarm)
    requires ScheduleAlarmNotification(p, alarm).Returned? && ScheduleAlarmNotification(p, alarm).ok
    ensures CancelAlarmNotification(p, alarm.id) == Returned(true, Some(CancelAlarm(alarm.id)))
  {
  }

  /** `alarms.filter((alarm) => alarm.active)`. */
  function Active(alarms: seq<Alarm>): (r: seq<Alarm>)
    ensures |r| <= |alarms|
    ensures forall a :: a in r <==> a in alarms && a.active
  {
    if alarms == [] then []
    else (if alarms[0].active then [alarms[0]] else []) + Active(alarms[1..])
  }

  /** Filtering keeps list order: it distributes over concatenation. */
  lemma {:induction false} ActiveAppend(xs: seq<Alarm>, ys: seq<Alarm>)
    ensures Active(xs + ys) == Active(xs) + Active(ys)
  {
    if xs != [] {
      assert (xs + ys)[0] == xs[0] && (xs + ys)[1..] == xs[1..] + ys;
      ActiveAppend(xs[1..], ys);
    } else {
      assert xs + ys == ys;
    }
  }

  /** The `SCHEDULE_ALARM` messages for `alarms`, in order. */
  function ScheduleMessages(alarms: seq<Alarm>): (r: seq<WorkerMessage>)
    ensures |r| == |alarms|
    ensures forall i :: 0 <= i < |alarms| ==> r[i] == ScheduleAlarm(PayloadOf(alarms[i]))
  {
    seq(|alarms|, i requires 0 <= i < |alarms| => ScheduleAlarm(PayloadOf(alarms[i])))
  }

  /**
   * `scheduleAllAlarmNotifications`: one `scheduleAlarmNotification` per active
   * alarm, in list order, awaiting each; a thrown call ends the loop.
   * `threw` says that the returned promise rejects.
   */
  method ScheduleAll(p: Platform, alarms: seq<Alarm>) returns (posted: seq<WorkerMessage>, threw: bool)
    ensures threw <==> !p.hasNotificationApi && Active(alarms) != []
    ensures posted == if AcceptsSchedules(p) then ScheduleMessages(Active(alarms)) else []
  {
    var activeAlarms := Active(alarms);
    posted, threw := [], false;
    var i := 0;
    while i < |activeAlarms| && !threw
      invariant 0 <= i <= |activeAlarms|
      invariant threw ==> !p.hasNotificationApi && i == 0 < |activeAlarms|
      invariant !threw && !p.hasNotificationApi ==> i == 0
      invariant posted == if AcceptsSchedules(p) then ScheduleMessages(activeAlarms[..i]) else []
      decreases |activeAlarms| - i, if threw then 0 else 1
    {
      var alarm := activeAlarms[i];
      ActiveAreActive(alarms, i);
      var result := ScheduleAlarmNotification(p, alarm);
      ScheduleOutcome(p, alarm);
      if result.Threw? {
        threw := true;
      } else {
        ScheduleMessagesSnoc(activeAlarms, i);
        if result.post.Some? {
          posted := posted + [result.post.value];
        }
        i := i + 1;
      }
    }
    if !threw {
      assert activeAlarms[..i] == activeAlarms;
    }
  }

  /** The outcome for an active alarm depends on the platform alone. */
  lemma ScheduleOutcome(p: Platform, alarm: Alarm)
    requires alarm.active
    ensures ScheduleAlarmNotification(p, alarm)
         == if !p.hasNotificationApi then Threw
            else if AcceptsSchedules(p) then Returned(true, Some(ScheduleAlarm(PayloadOf(alarm))))
            else Returned(false, None)
  {
  }

  lemma ActiveAreActive(alarms: seq<Alarm>, i: int)
    requires 0 <= i < |Active(alarms)|
    ensures Active(alarms)[i].active
  {
    assert Active(alarms)[i] in Active(alarms);
  }

  lemma ScheduleMessagesSnoc(alarms: seq<Alarm>, i: int)
    requires 0 <= i < |alarms|
    ensures ScheduleMessages(alarms[..i + 1]) == ScheduleMessages(alarms[..i]) + [ScheduleAlarm(PayloadOf(alarms[i]))]
  {
  }

  /** Every message `scheduleAllAlarmNotifications` can post is for an active alarm of the list. */
  lemma ScheduleAllOnlyActive(alarms: seq<Alarm>, m: WorkerMessage)
    requires m in ScheduleMessages(Active(alarms))
    ensures exists a :: a in alarms && a.active && m == ScheduleAlarm(PayloadOf(a))
  {
    var msgs := ScheduleMessages(Active(alarms));
    var i :| 0 <= i < |msgs| && msgs[i] == m;
    assert Active(alarms)[i] in Active(alarms);
  }
}
