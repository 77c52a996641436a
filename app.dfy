/**
 * The page's controller: the alarm list, the alarm being edited, the two
 * readiness flags, and the requests it makes to the notification helpers
 * when the list changes.
 *
 * React state setters become field assignments and each helper call becomes a
 * `Request` appended to an outbox; the helpers' own guards are in module
 * `Notifications`.
 */
module App {
  import opened AlarmTypes
  import opened Wrappers
  import opened Clock
  import Decimal
  import Notifications

  /** A call into the notification helpers. */
  datatype Request =
    | Schedule(alarm: Alarm)                 // scheduleAlarmNotification(alarm)
    | Cancel(alarmId: string)                // cancelAlarmNotification(alarmId)
    | ScheduleEvery(alarms: seq<Alarm>)      // scheduleAllAlarmNotifications(alarms)

  /** `{ ...alarm, id }` for a draft without an identifier. */
  function WithId(d: AlarmDraft, id: string): (a: Alarm)
    ensures a.id == id && a.name == d.name && a.time == d.time && a.active == d.active
  {
    Alarm(id, d.name, d.time, d.active)
  }

  /** The identifiers of a list, in order. */
  function Ids(alarms: seq<Alarm>): (r: seq<string>)
    ensures |r| == |alarms|
    ensures forall i :: 0 <= i < |alarms| ==> r[i] == alarms[i].id
  {
    seq(|alarms|, i requires 0 <= i < |alarms| => alarms[i].id)
  }

  /** `prevAlarms.map((alarm) => alarm.id === updated.id ? updated : alarm)`. */
  function Replaced(alarms: seq<Alarm>, updated: Alarm): (r: seq<Alarm>)
    ensures |r| == |alarms|
    ensures forall i :: 0 <= i < |alarms| && alarms[i].id == updated.id ==> r[i] == updated
    ensures forall i :: 0 <= i < |alarms| && alarms[i].id != updated.id ==> r[i] == alarms[i]
  {
    seq(|alarms|, i requires 0 <= i < |alarms| => if alarms[i].id == updated.id then updated else alarms[i])
  }

  /** `{ ...alarm, active: !alarm.active }`. */
  function Flipped(a: Alarm): (r: Alarm)
    ensures r.id == a.id && r.name == a.name && r.time == a.time && r.active == !a.active
  {
    a.(active := !a.active)
  }

  /** The list `toggleAlarm` stores: only alarms with the identifier change, and only in `active`. */
  function Toggled(alarms: seq<Alarm>, id: string): (r: seq<Alarm>)
    ensures |r| == |alarms|
    ensures forall i :: 0 <= i < |alarms| && alarms[i].id == id ==> r[i] == Flipped(alarms[i])
    ensures forall i :: 0 <= i < |alarms| && alarms[i].id != id ==> r[i] == alarms[i]
  {
    seq(|alarms|, i requires 0 <= i < |alarms| => if alarms[i].id == id then Flipped(alarms[i]) else alarms[i])
  }

  /** `alarms.filter((alarm) => alarm.id !== id)`. */
  function Removed(alarms: seq<Alarm>, id: string): (r: seq<Alarm>)
    ensures |r| <= |alarms|
    ensures forall a :: a in r <==> a in alarms && a.id != id
  {
    if alarms == [] then []
    else (if alarms[0].id != id then [alarms[0]] else []) + Removed(alarms[1..], id)
  }

  /** The request `addAlarm` makes for the new alarm, if any. */
  function AddRequests(enabled: bool, ready: bool, a: Alarm): (r: seq<Request>)
    ensures r == [Schedule(a)] || r == []
    ensures r != [] <==> enabled && ready && a.active
  {
    if enabled && ready && a.active then [Schedule(a)] else []
  }

  /**
   * The request `updateAlarm` and `toggleAlarm` make for a changed alarm:
   * with both flags, schedule it when it is now active and cancel it otherwise.
   */
  function ChangeRequests(enabled: bool, ready: bool, a: Alarm, id: string): (r: seq<Request>)
    ensures !(enabled && ready) ==> r == []
    ensures enabled && ready && a.active ==> r == [Schedule(a)]
    ensures enabled && ready && !a.active ==> r == [Cancel(id)]
  {
    if enabled && ready then (if a.active then [Schedule(a)] else [Cancel(id)]) else []
  }

  /** The requests `toggleAlarm` makes, one per alarm with the identifier, in list order. */
  function ToggleRequests(alarms: seq<Alarm>, id: string, enabled: bool, ready: bool): (r: seq<Request>)
    ensures !(enabled && ready) ==> r == []
    ensures |r| <= |alarms|
  {
    if alarms == [] then []
    else
      var last := alarms[|alarms| - 1];
      ToggleRequests(alarms[..|alarms| - 1], id, enabled, ready)
      + (if last.id == id then ChangeRequests(enabled, ready, Flipped(last), id) else [])
  }

  /** Hour, minute and second of the day agree, as the foreground check compares them. */
  predicate SameClockSecond(t: int, u: int) {
    HoursOf(t) == HoursOf(u) && MinutesOf(t) == MinutesOf(u) && SecondsOf(t) == SecondsOf(u)
  }

  /** The alarms that ring in the page at instant `now`. */
  function RingingAt(alarms: seq<Alarm>, now: int): (r: seq<Alarm>)
    ensures |r| <= |alarms|
    ensures forall a :: a in r <==> a in alarms && a.active && SameClockSecond(now, a.time)
  {
    if alarms == [] then []
    else
      var last := alarms[|alarms| - 1];
      RingingAt(alarms[..|alarms| - 1], now)
      + (if last.active && SameClockSecond(now, last.time) then [last] else [])
  }

  function Names(alarms: seq<Alarm>): (r: seq<string>)
    ensures |r| == |alarms|
    ensures forall i :: 0 <= i < |alarms| ==> r[i] == alarms[i].name
  {
    seq(|alarms|, i requires 0 <= i < |alarms| => alarms[i].name)
  }

  /**
   * The body of the once-per-second interval: the alarms that ring now, and the
   * names shown with `alert`, which happens only while notifications are disabled.
   */
  method ForegroundCheck(alarms: seq<Alarm>, notificationsEnabled: bool, now: int)
    returns (rang: seq<Alarm>, alerts: seq<string>)
    ensures rang == RingingAt(alarms, now)
    ensures alerts == if notificationsEnabled then [] else Names(rang)
  {
    rang, alerts := [], [];
    var i := 0;
    while i < |alarms|
      invariant 0 <= i <= |alarms|
      invariant rang == RingingAt(alarms[..i], now)
      invariant alerts == if notificationsEnabled then [] else Names(rang)
    {
      var alarm := alarms[i];
      assert alarms[..i + 1][..i] == alarms[..i];
      if alarm.active && SameClockSecond(now, alarm.time) {
        NamesSnoc(rang, alarm);
        rang := rang + [alarm];
        if !notificationsEnabled {
          alerts := alerts + [alarm.name];
        }
      }
      i := i + 1;
    }
    assert alarms[..i] == alarms;
  }

  lemma NamesSnoc(alarms: seq<Alarm>, a: Alarm)
    ensures Names(alarms + [a]) == Names(alarms) + [a.name]
  {
  }

  /**
   * An alarm whose time has no milliseconds rings in the page during the
   * first second of its time and at no other instant of the following day.
   */
  lemma RingWindow(t: int, now: int)
    requires MillisOf(t) == 0 && t <= now < t + Day
    ensures SameClockSecond(now, t) <==> now < t + Second
  {
    Recompose(t);
    var dn, h, m, s := DayOf(t), HoursOf(t), MinutesOf(t), SecondsOf(t);
    if now < t + Second {
      assert now == dn * Day + MakeTime(h, m, s, now - t);
      Decompose(dn, h, m, s, now - t);
    }
    if SameClockSecond(now, t) {
      Recompose(now);
      var u := now - MillisOf(now);
      assert u == DayOf(now) * Day + MakeTime(h, m, s, 0);
      Decompose(DayOf(now), h, m, s, 0);
      if u < t {
        SameTimeOfDayWithinDay(u, t);
      } else {
        SameTimeOfDayWithinDay(t, u);
      }
    }
  }

  /** Updating twice with the same record is updating once. */
  lemma ReplacedIdempotent(alarms: seq<Alarm>, updated: Alarm)
    ensures Replaced(Replaced(alarms, updated), updated) == Replaced(alarms, updated)
  {
  }

  /** Updating or toggling never changes which identifiers the list holds, nor their order. */
  lemma ReplacedKeepsIds(alarms: seq<Alarm>, updated: Alarm, id: string)
    ensures Ids(Replaced(alarms, updated)) == Ids(alarms)
    ensures Ids(Toggled(alarms, id)) == Ids(alarms)
  {
  }

  /** Toggling twice restores the list. */
  lemma ToggleTwice(alarms: seq<Alarm>, id: string)
    ensures Toggled(Toggled(alarms, id), id) == alarms
  {
    var r := Toggled(Toggled(alarms, id), id);
    forall i | 0 <= i < |alarms| ensures r[i] == alarms[i] {
      if alarms[i].id == id {
        assert Flipped(Flipped(alarms[i])) == alarms[i];
      }
    }
  }

  /** Removing keeps the list order: it distributes over concatenation. */
  lemma {:induction false} RemovedAppend(xs: seq<Alarm>, ys: seq<Alarm>, id: string)
    ensures Removed(xs + ys, id) == Removed(xs, id) + Removed(ys, id)
  {
    if xs != [] {
      assert (xs + ys)[0] == xs[0] && (xs + ys)[1..] == xs[1..] + ys;
      RemovedAppend(xs[1..], ys, id);
    } else {
      assert xs + ys == ys;
    }
  }

  /** Removing an identifier the list does not hold changes nothing. */
  lemma {:induction false} RemovedAbsent(alarms: seq<Alarm>, id: string)
    requires forall i :: 0 <= i < |alarms| ==> alarms[i].id != id
    ensures Removed(alarms, id) == alarms
  {
    if alarms != [] {
      RemovedAbsent(alarms[1..], id);
      assert [alarms[0]] + alarms[1..] == alarms;
    }
  }

  /** A newly added alarm is removed again by deleting its identifier, if it was fresh. */
  lemma DeleteUndoesAdd(alarms: seq<Alarm>, a: Alarm)
    requires forall i :: 0 <= i < |alarms| ==> alarms[i].id != a.id
    ensures Removed(alarms + [a], a.id) == alarms
  {
    RemovedAppend(alarms, [a], a.id);
    RemovedAbsent(alarms, a.id);
    assert Removed([a], a.id) == [] + Removed([], a.id);
  }

  /** Toggling with both flags asks to schedule each alarm it activates and to cancel each it deactivates. */
  lemma {:induction false} ToggleRequestsExact(alarms: seq<Alarm>, id: string)
    ensures |ToggleRequests(alarms, id, true, true)| == |Matching(alarms, id)|
    ensures forall i :: 0 <= i < |Matching(alarms, id)| ==>
      ToggleRequests(alarms, id, true, true)[i]
        == if Matching(alarms, id)[i].active then Cancel(id) else Schedule(Flipped(Matching(alarms, id)[i]))
  {
    if alarms != [] {
      ToggleRequestsExact(alarms[..|alarms| - 1], id);
    }
  }

  /** The alarms with identifier `id`, in list order. */
  function Matching(alarms: seq<Alarm>, id: string): (r: seq<Alarm>)
    ensures forall a :: a in r <==> a in alarms && a.id == id
  {
    if alarms == [] then []
    else
      var last := alarms[|alarms| - 1];
      Matching(alarms[..|alarms| - 1], id) + (if last.id == id then [last] else [])
  }

  lemma ToggledSnoc(alarms: seq<Alarm>, i: int, id: string)
    requires 0 <= i < |alarms|
    ensures Toggled(alarms[..i + 1], id)
      == Toggled(alarms[..i], id) + [if alarms[i].id == id then Flipped(alarms[i]) else alarms[i]]
  {
  }

  lemma ToggleRequestsSnoc(alarms: seq<Alarm>, i: int, id: string, enabled: bool, ready: bool)
    requires 0 <= i < |alarms|
    ensures ToggleRequests(alarms[..i + 1], id, enabled, ready)
      == ToggleRequests(alarms[..i], id, enabled, ready)
         + (if alarms[i].id == id then ChangeRequests(enabled, ready, Flipped(alarms[i]), id) else [])
  {
    assert alarms[..i + 1][..i] == alarms[..i];
  }

  /** The page component's state. */
  class AlarmController {
    var alarms: seq<Alarm>
    var editing: Option<Alarm>
    var notificationsEnabled: bool
    var serviceWorkerReady: bool
    var outbox: seq<Request>
    var alerts: seq<string>

    /** The initial `useState` values. */
    constructor()
      ensures alarms == [] && editing == None
      ensures !notificationsEnabled && !serviceWorkerReady
      ensures outbox == [] && alerts == []
    {
      alarms := [];
      editing := None;
      notificationsEnabled := false;
      serviceWorkerReady := false;
      outbox := [];
      alerts := [];
    }

    /** Both flags that gate every request. */
    predicate Connected()
      reads this
    {
      notificationsEnabled && serviceWorkerReady
    }

    /** The service-worker initialisation effect settles with `registered`. */
    method ServiceWorkerInitialized(registered: bool)
      modifies this
      ensures serviceWorkerReady == registered
      ensures alarms == old(alarms) && editing == old(editing) && notificationsEnabled == old(notificationsEnabled)
      ensures outbox == old(outbox) && alerts == old(alerts)
    {
      serviceWorkerReady := registered;
    }

    /**
     * The permission effect run on mount: enabled when already granted, and
     * otherwise, unless denied, the result of asking.
     */
    method CheckPermissionOnMount(p: Notifications.Platform, answer: Notifications.RequestAnswer)
      modifies this
      ensures var status := Notifications.GetPermissionStatus(p);
        notificationsEnabled ==
          if status == Notifications.Status(Notifications.Granted) then true
          else if status == Notifications.Status(Notifications.Denied) then false
          else Notifications.RequestPermission(p, answer)
      ensures alarms == old(alarms) && editing == old(editing) && serviceWorkerReady == old(serviceWorkerReady)
      ensures outbox == old(outbox) && alerts == old(alerts)
    {
      var status := Notifications.GetPermissionStatus(p);
      notificationsEnabled := status == Notifications.Status(Notifications.Granted);
      if status != Notifications.Status(Notifications.Granted) && status != Notifications.Status(Notifications.Denied) {
        var granted := Notifications.RequestPermission(p, answer);
        notificationsEnabled := granted;
      }
    }

    /** `setEditing(alarm)` from the list's edit button. */
    method Edit(a: Alarm)
      modifies this
      ensures editing == Some(a)
      ensures alarms == old(alarms) && notificationsEnabled == old(notificationsEnabled)
      ensures serviceWorkerReady == old(serviceWorkerReady) && outbox == old(outbox) && alerts == old(alerts)
    {
      editing := Some(a);
    }

    /** `addAlarm`: append the draft under the identifier `String(Date.now())`. */
    method AddAlarm(draft: AlarmDraft, now: int)
      modifies this
      ensures alarms == old(alarms) + [WithId(draft, Decimal.IntToString(now))]
      ensures outbox == old(outbox) + AddRequests(notificationsEnabled, serviceWorkerReady, WithId(draft, Decimal.IntToString(now)))
      ensures editing == old(editing) && notificationsEnabled == old(notificationsEnabled)
      ensures serviceWorkerReady == old(serviceWorkerReady) && alerts == old(alerts)
    {
      var newAlarm := WithId(draft, Decimal.IntToString(now));
      alarms := alarms + [newAlarm];
      if notificationsEnabled && serviceWorkerReady && newAlarm.active {
        outbox := outbox + [Schedule(newAlarm)];
      }
    }

    /** `updateAlarm`: replace by identifier, reschedule or cancel, and leave edit mode. */
    method UpdateAlarm(updated: Alarm)
      modifies this
      ensures alarms == Replaced(old(alarms), updated)
      ensures outbox == old(outbox) + ChangeRequests(notificationsEnabled, serviceWorkerReady, updated, updated.id)
      ensures editing == None
      ensures notificationsEnabled == old(notificationsEnabled) && serviceWorkerReady == old(serviceWorkerReady)
      ensures alerts == old(alerts)
    {
      alarms := Replaced(alarms, updated);
      if notificationsEnabled && serviceWorkerReady {
        if updated.active {
          outbox := outbox + [Schedule(updated)];
        } else {
          outbox := outbox + [Cancel(updated.id)];
        }
      }
      editing := None;
    }

    /** `deleteAlarm`: cancel first when both flags hold, then drop every alarm with the identifier. */
    method DeleteAlarm(id: string)
      modifies this
      ensures alarms == Removed(old(alarms), id)
      ensures outbox == old(outbox) + (if Connected() then [Cancel(id)] else [])
      ensures editing == old(editing) && notificationsEnabled == old(notificationsEnabled)
      ensures serviceWorkerReady == old(serviceWorkerReady) && alerts == old(alerts)
    {
      if notificationsEnabled && serviceWorkerReady {
        outbox := outbox + [Cancel(id)];
      }
      alarms := Removed(alarms, id);
    }

    /**
     * `toggleAlarm`: the `map` over the list flips each alarm with the
     * identifier and makes that alarm's request as it goes.
     */
    method ToggleAlarm(id: string)
      modifies this
      ensures alarms == Toggled(old(alarms), id)
      ensures outbox == old(outbox) + ToggleRequests(old(alarms), id, notificationsEnabled, serviceWorkerReady)
      ensures editing == old(editing) && notificationsEnabled == old(notificationsEnabled)
      ensures serviceWorkerReady == old(serviceWorkerReady) && alerts == old(alerts)
    {
      var prev := alarms;
      var enabled, ready := notificationsEnabled, serviceWorkerReady;
      var updatedAlarms: seq<Alarm> := [];
      var sent: seq<Request> := [];
      var i := 0;
      while i < |prev|
        invariant 0 <= i <= |prev|
        invariant updatedAlarms == Toggled(prev[..i], id)
        invariant sent == ToggleRequests(prev[..i], id, enabled, ready)
        modifies {}
      {
        var alarm := prev[i];
        ToggledSnoc(prev, i, id);
        ToggleRequestsSnoc(prev, i, id, enabled, ready);
        if alarm.id == id {
          var updatedAlarm := Flipped(alarm);
          if enabled && ready {
            if updatedAlarm.active {
              sent := sent + [Schedule(updatedAlarm)];
            } else {
              sent := sent + [Cancel(id)];
            }
          }
          updatedAlarms := updatedAlarms + [updatedAlarm];
        } else {
          updatedAlarms := updatedAlarms + [alarm];
        }
        i := i + 1;
      }
      assert prev[..i] == prev;
      outbox := outbox + sent;
      alarms := updatedAlarms;
    }

    /**
     * `handleRequestPermission`: store the grant, and schedule every alarm of
     * the list when granted and the worker is ready.
     */
    method HandleRequestPermission(p: Notifications.Platform, answer: Notifications.RequestAnswer)
      returns (granted: bool)
      modifies this
      ensures granted == Notifications.RequestPermission(p, answer)
      ensures notificationsEnabled == granted
      ensures outbox == old(outbox) + (if granted && serviceWorkerReady then [ScheduleEvery(alarms)] else [])
      ensures alarms == old(alarms) && editing == old(editing)
      ensures serviceWorkerReady == old(serviceWorkerReady) && alerts == old(alerts)
    {
      granted := Notifications.RequestPermission(p, answer);
      notificationsEnabled := granted;
      if granted && serviceWorkerReady {
        outbox := outbox + [ScheduleEvery(alarms)];
      }
    }

    /** One tick of the 1-second interval: alerts shown for the alarms ringing now. */
    method Tick(now: int)
      modifies this
      ensures alerts == old(alerts) + (if notificationsEnabled then [] else Names(RingingAt(alarms, now)))
      ensures alarms == old(alarms) && editing == old(editing) && outbox == old(outbox)
      ensures notificationsEnabled == old(notificationsEnabled) && serviceWorkerReady == old(serviceWorkerReady)
    {
      var rang, shown := ForegroundCheck(alarms, notificationsEnabled, now);
      alerts := alerts + shown;
    }
  }
}
