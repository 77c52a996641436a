/**
 * The alarm scheduler of the service worker: the `scheduledAlarms` map, the
 * time of the last message, and the handlers that change them (schedule,
 * cancel, refresh, a timer firing, the periodic self-check and the message
 * listener).
 *
 * Time is an explicit argument `now` in milliseconds. The platform's timers
 * are modelled as a table from handle to the pending callback; `setTimeout`
 * adds a handle, `clearTimeout` removes it, and `Fire` is the platform running
 * a pending callback. Notifications are the log of `showNotification` calls.
 */
module ServiceWorker {
  import opened AlarmTypes
  import opened Seqs
  import opened Wrappers

  /** An alarm due in less than this many milliseconds is not armed. */
  const MinDelay: int := 1000
  /** Idle time after which the self-check refreshes all timers. */
  const IdleRefreshAfter: int := 30000

  /** The value the map holds for an alarm id. */
  datatype Entry = Entry(timeoutId: nat, alarm: AlarmPayload, scheduledTime: int)

  /** A callback the platform still holds: the alarm it closes over and when it is due. */
  datatype PendingTimer = PendingTimer(alarm: AlarmPayload, due: int)

  /** A `showNotification` request: tag `alarm.id`, body `alarm.name`. */
  datatype Notification = Notification(tag: string, body: string)

  function NotificationFor(a: AlarmPayload): Notification {
    Notification(a.id, a.name)
  }

  // ---------------------------------------------------------------------
  // The armed alarms as a value: alarm id -> the snapshot stored for it.
  // ---------------------------------------------------------------------

  type View = map<string, AlarmPayload>

  ghost predicate KeyedById(v: View) {
    forall id :: id in v ==> v[id].id == id
  }

  /**
   * The armed set after scheduling `a` at `now`: any earlier entry for
   * `a.id` is gone, and `a` is armed only when it is at least `MinDelay` ahead.
   */
  function Rescheduled(v: View, a: AlarmPayload, now: int): (r: View)
    ensures a.id in r <==> a.time - now >= MinDelay
    ensures a.id in r ==> r[a.id] == a && r[a.id].time >= now + MinDelay
    ensures forall id :: id != a.id ==> (id in r <==> id in v)
    ensures forall id :: id in r && id != a.id ==> r[id] == v[id]
  {
    if a.time - now < MinDelay then v - {a.id} else v[a.id := a]
  }

  /**
   * The armed set after a refresh at `now`: every entry is scheduled again,
   * so those less than `MinDelay` ahead (including past ones) are dropped.
   */
  function Refreshed(v: View, now: int): (r: View)
    ensures r.Keys <= v.Keys
    ensures forall id :: id in v ==> (id in r <==> v[id].time - now >= MinDelay)
    ensures forall id :: id in r ==> r[id] == v[id] && r[id].time > now
  {
    map id | id in v && v[id].time - now >= MinDelay :: v[id]
  }

  /** The ids whose alarm time has been reached. */
  function DueIds(v: View, now: int): set<string> {
    set id | id in v && v[id].time <= now
  }

  /** The entries whose alarm time has not been reached. */
  function Pending(v: View, now: int): (r: View)
    ensures r.Keys == v.Keys - DueIds(v, now)
    ensures forall id :: id in r ==> r[id] == v[id]
  {
    map id | id in v && v[id].time > now :: v[id]
  }

  /** One notification per id of `ids`, in order. */
  function Notes(ids: seq<string>, v: View): (r: seq<Notification>)
    requires forall id :: id in ids ==> id in v
  {
    seq(|ids|, i requires 0 <= i < |ids| => NotificationFor(v[ids[i]]))
  }

  /** The notifications of the missed-alarm sweep: the due ids in map order. */
  function DueNotifications(order: seq<string>, v: View, now: int): (r: seq<Notification>)
  {
    RestrictMembers(order, DueIds(v, now));
    Notes(Restrict(order, DueIds(v, now)), v)
  }

  // ---------------------------------------------------------------------
  // The worker's state as a value, and each handler as a function on it.
  // ---------------------------------------------------------------------

  type Entries = map<string, Entry>
  type Timers = map<nat, PendingTimer>

  /**
   * Everything the handlers read or write: the map (`scheduled`, iterated in
   * `order`), the platform's pending callbacks, the next handle, the time of the
   * last message and the notifications shown so far.
   */
  datatype State = State(
    scheduled: Entries,
    order: seq<string>,
    timers: Timers,
    nextTimeoutId: nat,
    lastActivityTime: int,
    shown: seq<Notification>)

  function Initial(now: int): State {
    State(map[], [], map[], 0, now, [])
  }

  /** `scheduledAlarms.delete(id)`: the key leaves the map and its iteration order. */
  function Delete(st: State, id: string): State {
    st.(scheduled := st.scheduled - {id}, order := Restrict(st.order, st.scheduled.Keys - {id}))
  }

  /** `cancelAlarmNotification(id)` (lines 163-173). */
  function CancelIn(st: State, id: string): State {
    if id in st.scheduled then
      Delete(st.(timers := st.timers - {st.scheduled[id].timeoutId}), id)
    else
      st
  }

  /** `scheduleAlarmNotification(a)` at `now` (lines 123-160). */
  function ScheduleIn(st: State, a: AlarmPayload, now: int): State {
    var c := if a.id in st.scheduled then CancelIn(st, a.id) else st;
    var delay := a.time - now;
    if delay < MinDelay then
      c
    else
      c.(timers := c.timers[c.nextTimeoutId := PendingTimer(a, now + delay)],
         nextTimeoutId := c.nextTimeoutId + 1,
         scheduled := c.scheduled[a.id := Entry(c.nextTimeoutId, a, a.time)],
         order := c.order + [a.id])
  }

  /** The first loop of the refresh: clear the timer of every entry of `ids`. */
  function ClearTimers(t: Timers, s: Entries, ids: seq<string>): Timers
    decreases |ids|
  {
    if ids == [] then t
    else ClearTimers(if ids[0] in s then t - {s[ids[0]].timeoutId} else t, s, ids[1..])
  }

  /** The alarms the first loop of the refresh collects, in map order. */
  function AlarmsOf(s: Entries, ids: seq<string>): seq<AlarmPayload>
    decreases |ids|
  {
    if ids == [] then []
    else (if ids[0] in s then [s[ids[0]].alarm] else []) + AlarmsOf(s, ids[1..])
  }

  /** The second loop of the refresh: schedule each alarm in turn. */
  function ScheduleEach(st: State, alarms: seq<AlarmPayload>, now: int): State
    decreases |alarms|
  {
    if alarms == [] then st
    else ScheduleEach(ScheduleIn(st, alarms[0], now), alarms[1..], now)
  }

  /** `refreshAlarmTimeouts()` at `now` (lines 94-120). */
  function RefreshIn(st: State, now: int): State {
    if |st.scheduled| == 0 then
      st
    else
      var cleared := st.(timers := ClearTimers(st.timers, st.scheduled, st.order));
      ScheduleEach(cleared, AlarmsOf(st.scheduled, st.order), now)
  }

  /**
   * The platform runs the callback of handle `h` (lines 146-150): it shows the
   * alarm it closed over and deletes whatever entry has that alarm's id.
   */
  function FireIn(st: State, h: nat): State {
    if h !in st.timers then
      st
    else
      var a := st.timers[h].alarm;
      Delete(st.(timers := st.timers - {h}, shown := st.shown + [NotificationFor(a)]), a.id)
  }

  /**
   * The missed-alarm loop of the self-check (lines 229-236) over the keys
   * `ids`: a key whose time has come is shown and deleted; its timer is left
   * with the platform.
   */
  function SweepFrom(st: State, ids: seq<string>, now: int): State
    decreases |ids|
  {
    if ids == [] then st
    else SweepFrom(SweepOne(st, ids[0], now), ids[1..], now)
  }

  /** One iteration of the missed-alarm loop, for the key `id`. */
  function SweepOne(st: State, id: string, now: int): State {
    if id in st.scheduled && st.scheduled[id].scheduledTime <= now then
      Delete(st.(shown := st.shown + [NotificationFor(st.scheduled[id].alarm)]), id)
    else
      st
  }

  function Sweep(st: State, now: int): State {
    SweepFrom(st, st.order, now)
  }

  /** The self-check interval body (lines 213-237): refresh when idle, then sweep. */
  function SelfCheckIn(st: State, now: int): State {
    var checked :=
      if now - st.lastActivityTime > IdleRefreshAfter then RefreshIn(st.(lastActivityTime := now), now)
      else st;
    Sweep(checked, now)
  }

  /** The self-check with the missed-alarm sweep run before the idle refresh. */
  function SelfCheckSweepFirstIn(st: State, now: int): State {
    var swept := Sweep(st, now);
    if now - swept.lastActivityTime > IdleRefreshAfter then RefreshIn(swept.(lastActivityTime := now), now)
    else swept
  }

  /**
   * The `message` listener (lines 6-48). The result pairs the new state with
   * the `KEEP_ALIVE_PONG` timestamp sent back, if any.
   */
  function HandleIn(st: State, msg: WorkerMessage, now: int, hasSource: bool): (State, Option<int>) {
    var touched := st.(lastActivityTime := now);
    match msg
    case ScheduleAlarm(a) => (ScheduleIn(touched, a, now), None)
    case CancelAlarm(id) => (CancelIn(touched, id), None)
    case KeepAlivePing => (RefreshIn(touched, now), if hasSource then Some(now) else None)
    case SkipWaiting => (touched, None)
    case Unrecognized => (touched, None)
  }

  // ---------------------------------------------------------------------
  // Well-formedness of the state.
  // ---------------------------------------------------------------------

  /**
   * The map iterates `order` (each key once); every entry is keyed by its
   * alarm's id, has `scheduledTime == alarm.time` and a handle of its own; all
   * handles were issued before `nextTimeoutId`.
   */
  ghost predicate WellFormed(st: State) {
    && NoDup(st.order)
    && (forall id :: id in st.order <==> id in st.scheduled)
    && (forall id :: id in st.scheduled ==>
          var e := st.scheduled[id];
          e.alarm.id == id && e.scheduledTime == e.alarm.time && e.timeoutId < st.nextTimeoutId)
    && (forall x, y :: x in st.scheduled && y in st.scheduled && x != y ==>
          st.scheduled[x].timeoutId != st.scheduled[y].timeoutId)
    && (forall k :: k in st.timers ==> k < st.nextTimeoutId)
  }

  /** Every key the map iterates has an entry (a consequence of `WellFormed`). */
  ghost predicate KeysListed(st: State) {
    forall id :: id in st.order ==> id in st.scheduled
  }

  /** The entry for `id` still has its own callback pending. */
  ghost predicate Armed(st: State, id: string)
    requires id in st.scheduled
  {
    var e := st.scheduled[id];
    e.timeoutId in st.timers && st.timers[e.timeoutId] == PendingTimer(e.alarm, e.scheduledTime)
  }

  ghost predicate AllArmed(st: State) {
    forall id :: id in st.scheduled ==> Armed(st, id)
  }

  /** Well formed, and every entry will be shown by its own timer. */
  ghost predicate Valid(st: State) {
    WellFormed(st) && AllArmed(st)
  }

  function ViewOf(s: Entries): View {
    map id | id in s :: s[id].alarm
  }

  /** Deleting a key keeps the state well formed and the other entries armed. */
  lemma DeleteStep(st: State, id: string)
    requires WellFormed(st)
    ensures WellFormed(Delete(st, id))
    ensures forall x :: x in st.scheduled && x != id && Armed(st, x) ==> Armed(Delete(st, id), x)
  {
    RestrictNoDup(st.order, st.scheduled.Keys - {id});
    RestrictMembers(st.order, st.scheduled.Keys - {id});
  }

  /** Arming a fresh key with the next handle keeps the state well formed. */
  lemma ArmStep(st: State, a: AlarmPayload, due: int)
    requires WellFormed(st) && a.id !in st.scheduled && due == a.time
    ensures var n := st.nextTimeoutId;
      var r := st.(timers := st.timers[n := PendingTimer(a, due)], nextTimeoutId := n + 1,
                   scheduled := st.scheduled[a.id := Entry(n, a, a.time)], order := st.order + [a.id]);
      && WellFormed(r)
      && Armed(r, a.id)
      && (forall x :: x in st.scheduled && Armed(st, x) ==> Armed(r, x))
  {
    var n := st.nextTimeoutId;
    var r := st.(timers := st.timers[n := PendingTimer(a, due)], nextTimeoutId := n + 1,
                 scheduled := st.scheduled[a.id := Entry(n, a, a.time)], order := st.order + [a.id]);
    assert a.id !in st.order;
    forall x | x in st.scheduled && Armed(st, x) ensures Armed(r, x) {
      assert st.scheduled[x].timeoutId < n;
    }
  }

  /** Cancelling keeps the state well formed and the other entries armed. */
  lemma CancelStep(st: State, id: string)
    requires WellFormed(st)
    ensures WellFormed(CancelIn(st, id))
    ensures forall x :: x in st.scheduled && x != id && Armed(st, x) ==> Armed(CancelIn(st, id), x)
  {
    if id in st.scheduled {
      var c := st.(timers := st.timers - {st.scheduled[id].timeoutId});
      forall x | x in st.scheduled && x != id && Armed(st, x) ensures Armed(c, x) {
        assert st.scheduled[x].timeoutId != st.scheduled[id].timeoutId;
      }
      DeleteStep(c, id);
    }
  }

  // ---------------------------------------------------------------------
  // Refresh: every entry is scheduled again at `now`.
  // ---------------------------------------------------------------------

  /** The ids a refresh at `now` keeps: those at least `MinDelay` ahead. */
  ghost function Kept(s: Entries, now: int): set<string> {
    set id | id in s && s[id].alarm.time - now >= MinDelay
  }

  lemma {:induction false} AlarmsOfListed(s: Entries, ids: seq<string>)
    requires forall id :: id in ids ==> id in s
    ensures |AlarmsOf(s, ids)| == |ids|
    ensures forall k :: 0 <= k < |ids| ==> AlarmsOf(s, ids)[k] == s[ids[k]].alarm
    decreases |ids|
  {
    if ids != [] {
      var tail := ids[1..];
      assert forall id :: id in tail ==> id in ids;
      AlarmsOfListed(s, tail);
      forall k | 1 <= k < |ids| ensures AlarmsOf(s, ids)[k] == s[ids[k]].alarm {
        assert ids[k] == tail[k - 1];
      }
    }
  }

  lemma {:induction false} ClearTimersClears(t: Timers, s: Entries, ids: seq<string>)
    requires forall id :: id in ids ==> id in s
    ensures ClearTimers(t, s, ids).Keys <= t.Keys
    ensures forall k :: k in ClearTimers(t, s, ids) ==> ClearTimers(t, s, ids)[k] == t[k]
    ensures forall id :: id in ids ==> s[id].timeoutId !in ClearTimers(t, s, ids)
    decreases |ids|
  {
    if ids != [] {
      var tail := ids[1..];
      assert forall id :: id in tail ==> id in ids;
      ClearTimersClears(t - {s[ids[0]].timeoutId}, s, tail);
      assert forall id :: id in ids ==> id == ids[0] || id in tail;
    }
  }

  /** Scheduling `a` touches no entry of another id. */
  lemma ScheduleLeavesOthers(st: State, a: AlarmPayload, now: int)
    ensures var r := ScheduleIn(st, a, now);
      forall id :: id != a.id ==>
        (id in r.scheduled <==> id in st.scheduled) && (id in r.scheduled ==> r.scheduled[id] == st.scheduled[id])
  {
  }

  /** Scheduling `a` (present or not) keeps the other armed entries armed and arms `a` if stored. */
  lemma ScheduleKeepsArmed(c: State, a: AlarmPayload, now: int)
    requires WellFormed(c)
    ensures var r := ScheduleIn(c, a, now);
      && (forall id :: id in c.scheduled && id in r.scheduled && id != a.id && Armed(c, id) ==> Armed(r, id))
      && (a.id in r.scheduled ==> Armed(r, a.id) && r.scheduled[a.id] == Entry(r.nextTimeoutId - 1, a, a.time))
  {
    var c1 := if a.id in c.scheduled then CancelIn(c, a.id) else c;
    if a.id in c.scheduled {
      CancelStep(c, a.id);
    }
    assert WellFormed(c1) && a.id !in c1.scheduled;
    var r := ScheduleIn(c, a, now);
    if a.time - now >= MinDelay {
      ArmStep(c1, a, a.time);
      var n := c1.nextTimeoutId;
      assert r == c1.(timers := c1.timers[n := PendingTimer(a, a.time)], nextTimeoutId := n + 1,
                      scheduled := c1.scheduled[a.id := Entry(n, a, a.time)], order := c1.order + [a.id]);
    } else {
      assert r == c1;
    }
  }

  /**
   * The state after the first `j` alarms of a refresh of `st` are scheduled
   * again: the map iterates the unprocessed keys, then the kept processed
   * ones; unprocessed entries are as before, kept ones have fresh live timers,
   * and no timer of the old entries is pending.
   */
  ghost predicate RefreshInv(c: State, st: State, j: int, now: int) {
    && WellFormed(st)
    && 0 <= j <= |st.order|
    && RefreshState(c, st)
    && RefreshOrder(c, st, j, now)
    && RefreshUnprocessed(c, st, j)
    && RefreshProcessed(c, st, j)
  }

  /** Well formed, same log and activity time, fresh handles only, old timers cleared. */
  ghost predicate RefreshState(c: State, st: State) {
    && WellFormed(c)
    && c.nextTimeoutId >= st.nextTimeoutId
    && c.lastActivityTime == st.lastActivityTime && c.shown == st.shown
    && (forall id :: id in st.scheduled ==> st.scheduled[id].timeoutId !in c.timers)
  }

  ghost predicate RefreshOrder(c: State, st: State, j: int, now: int)
    requires 0 <= j <= |st.order|
  {
    c.order == st.order[j..] + Restrict(st.order[..j], Kept(st.scheduled, now))
  }

  ghost predicate RefreshUnprocessed(c: State, st: State, j: int)
    requires 0 <= j <= |st.order|
  {
    forall id :: id in st.order[j..] ==> id in st.scheduled && id in c.scheduled && c.scheduled[id] == st.scheduled[id]
  }

  ghost predicate RefreshProcessed(c: State, st: State, j: int)
    requires 0 <= j <= |st.order|
  {
    forall id :: id in c.scheduled && id in st.order[..j] ==>
      id in st.scheduled && c.scheduled[id].alarm == st.scheduled[id].alarm
      && c.scheduled[id].timeoutId >= st.nextTimeoutId && Armed(c, id)
  }

  lemma RefreshStart(st: State, now: int)
    requires WellFormed(st)
    ensures RefreshInv(st.(timers := ClearTimers(st.timers, st.scheduled, st.order)), st, 0, now)
  {
    var o := st.order;
    ClearTimersClears(st.timers, st.scheduled, o);
    assert o[0..] == o && o[..0] == [];
  }

  lemma RefreshStep(c: State, st: State, j: int, a: AlarmPayload, now: int)
    requires RefreshInv(c, st, j, now) && j < |st.order|
    requires a == st.scheduled[st.order[j]].alarm
    ensures RefreshInv(ScheduleIn(c, a, now), st, j + 1, now)
  {
    assert st.order[j] in st.order[j..];
    RefreshStepState(c, st, j, a, now);
    RefreshStepOrdered(c, st, j, a, now);
    RefreshStepUnprocessed(c, st, j, a, now);
    RefreshStepProcessed(c, st, j, a, now);
  }

  lemma RefreshStepState(c: State, st: State, j: int, a: AlarmPayload, now: int)
    requires RefreshInv(c, st, j, now) && j < |st.order|
    requires a == st.scheduled[st.order[j]].alarm
    ensures RefreshState(ScheduleIn(c, a, now), st)
  {
    assert st.order[j] in st.order[j..];
    ScheduleKeepsWellFormed(c, a, now);
  }

  lemma RefreshStepOrdered(c: State, st: State, j: int, a: AlarmPayload, now: int)
    requires RefreshInv(c, st, j, now) && j < |st.order|
    requires a == st.scheduled[st.order[j]].alarm
    ensures RefreshOrder(ScheduleIn(c, a, now), st, j + 1, now)
  {
    assert st.order[j] in st.order[j..];
    ScheduleKeepsWellFormed(c, a, now);
    RefreshStepOrder(c, st, j, now);
  }

  /** Scheduling a key that is present keeps the state well formed and revives no cleared timer. */
  lemma ScheduleKeepsWellFormed(c: State, a: AlarmPayload, now: int)
    requires WellFormed(c) && a.id in c.scheduled
    ensures var r := ScheduleIn(c, a, now);
      && WellFormed(r) && r.nextTimeoutId >= c.nextTimeoutId
      && r.lastActivityTime == c.lastActivityTime && r.shown == c.shown
      && (forall k :: k in r.timers && k < c.nextTimeoutId ==> k in c.timers)
      && r.order == Restrict(c.order, c.scheduled.Keys - {a.id}) + (if a.time - now >= MinDelay then [a.id] else [])
  {
    CancelStep(c, a.id);
    if a.time - now >= MinDelay {
      ArmStep(CancelIn(c, a.id), a, a.time);
    }
  }

  lemma RefreshStepUnprocessed(c: State, st: State, j: int, a: AlarmPayload, now: int)
    requires NoDup(st.order) && 0 <= j < |st.order|
    requires RefreshUnprocessed(c, st, j) && a.id == st.order[j]
    ensures RefreshUnprocessed(ScheduleIn(c, a, now), st, j + 1)
  {
    var o := st.order;
    ScheduleLeavesOthers(c, a, now);
    forall id | id in o[j + 1..] ensures id in o[j..] && id != a.id {
      var k :| j + 1 <= k < |o| && o[k] == id;
      assert o[j..][k - j] == id;
    }
  }

  lemma RefreshStepProcessed(c: State, st: State, j: int, a: AlarmPayload, now: int)
    requires WellFormed(c) && 0 <= j < |st.order| && c.nextTimeoutId >= st.nextTimeoutId
    requires RefreshUnprocessed(c, st, j) && RefreshProcessed(c, st, j)
    requires a.id == st.order[j] && a == st.scheduled[a.id].alarm
    ensures RefreshProcessed(ScheduleIn(c, a, now), st, j + 1)
  {
    var o, x := st.order, st.order[j];
    ScheduleKeepsArmed(c, a, now);
    ScheduleLeavesOthers(c, a, now);
    var r := ScheduleIn(c, a, now);
    forall id | id in r.scheduled && id in o[..j + 1]
      ensures id in st.scheduled && r.scheduled[id].alarm == st.scheduled[id].alarm
      ensures r.scheduled[id].timeoutId >= st.nextTimeoutId && Armed(r, id)
    {
      if id == x {
        assert x in o[j..];
        assert r.nextTimeoutId == c.nextTimeoutId + 1;
      } else {
        var k :| 0 <= k < j + 1 && o[k] == id;
        assert o[..j][k] == id;
      }
    }
  }

  lemma RefreshStepOrder(c: State, st: State, j: int, now: int)
    requires RefreshInv(c, st, j, now) && j < |st.order|
    ensures Restrict(c.order, c.scheduled.Keys - {st.order[j]}) + (if st.order[j] in Kept(st.scheduled, now) then [st.order[j]] else [])
         == st.order[j + 1..] + Restrict(st.order[..j + 1], Kept(st.scheduled, now))
  {
    var o := st.order;
    var all := set y | y in o;
    RestrictMembers(o[..j], Kept(st.scheduled, now));
    forall y | y in c.order ensures y in all {
      assert y in o[j..] || y in o[..j];
    }
    RestrictSameOn(c.order, c.scheduled.Keys - {o[j]}, all - {o[j]});
    ReinsertStep(o, j, Kept(st.scheduled, now), all);
  }

  lemma {:induction false} RefreshLoop(c: State, st: State, j: int, alarms: seq<AlarmPayload>, now: int)
    requires RefreshInv(c, st, j, now)
    requires |alarms| == |st.order|
    requires forall k :: 0 <= k < |alarms| ==> alarms[k] == st.scheduled[st.order[k]].alarm
    ensures RefreshInv(ScheduleEach(c, alarms[j..], now), st, |st.order|, now)
    decreases |st.order| - j
  {
    if j == |st.order| {
      assert alarms[j..] == [];
    } else {
      assert alarms[j..][0] == alarms[j] && alarms[j..][1..] == alarms[j + 1..];
      RefreshStep(c, st, j, alarms[j], now);
      RefreshLoop(ScheduleIn(c, alarms[j], now), st, j + 1, alarms, now);
    }
  }

  /** A completed refresh: exactly the kept ids remain, in their old order, all freshly armed. */
  lemma RefreshEnd(r: State, st: State, now: int)
    requires RefreshInv(r, st, |st.order|, now)
    ensures r.scheduled.Keys == Kept(st.scheduled, now)
    ensures r.order == Restrict(st.order, Kept(st.scheduled, now))
    ensures forall id :: id in r.scheduled ==>
      r.scheduled[id].alarm == st.scheduled[id].alarm && r.scheduled[id].timeoutId >= st.nextTimeoutId
    ensures AllArmed(r)
  {
    var o := st.order;
    assert o[|o|..] == [] && o[..|o|] == o;
    assert r.order == Restrict(o, Kept(st.scheduled, now));
    RestrictMembers(o, Kept(st.scheduled, now));
  }

  /** A refresh leaves every remaining entry armed, whatever timers were live before. */
  lemma RefreshKeepsValid(st: State, now: int)
    requires WellFormed(st)
    ensures Valid(RefreshIn(st, now))
  {
    if |st.scheduled| != 0 {
      RefreshRuns(st, now);
      RefreshEnd(RefreshIn(st, now), st, now);
    }
  }

  /**
   * A refresh keeps exactly the entries at least `MinDelay` ahead of `now`,
   * with their alarms; the others vanish without a notification. An empty map
   * is left as it is.
   */
  lemma RefreshKeeps(st: State, now: int)
    requires WellFormed(st)
    ensures var r := RefreshIn(st, now);
      && ViewOf(r.scheduled) == Refreshed(ViewOf(st.scheduled), now)
      && r.lastActivityTime == st.lastActivityTime && r.shown == st.shown
      && (|st.scheduled| == 0 ==> r == st)
  {
    if |st.scheduled| != 0 {
      var r := RefreshIn(st, now);
      RefreshRuns(st, now);
      RefreshEnd(r, st, now);
      RefreshView(r, st, now);
    }
  }

  /** A second refresh at the same instant arms exactly what the first left armed. */
  lemma RefreshIdempotent(st: State, now: int)
    requires WellFormed(st)
    ensures ViewOf(RefreshIn(RefreshIn(st, now), now).scheduled) == ViewOf(RefreshIn(st, now).scheduled)
  {
    RefreshKeepsValid(st, now);
    RefreshKeeps(st, now);
    RefreshKeeps(RefreshIn(st, now), now);
  }

  /**
   * A refresh clears the timer of every old entry and puts each kept entry on
   * a new timer; the map iterates the kept ids in their old order.
   */
  lemma RefreshRearms(st: State, now: int)
    requires WellFormed(st) && |st.scheduled| != 0
    ensures var r := RefreshIn(st, now);
      && r.order == Restrict(st.order, r.scheduled.Keys)
      && (forall id :: id in r.scheduled ==> r.scheduled[id].timeoutId >= st.nextTimeoutId)
      && (forall id :: id in st.scheduled ==> st.scheduled[id].timeoutId !in r.timers)
  {
    RefreshRuns(st, now);
    RefreshEnd(RefreshIn(st, now), st, now);
  }

  lemma RefreshRuns(st: State, now: int)
    requires WellFormed(st) && |st.scheduled| != 0
    ensures RefreshInv(RefreshIn(st, now), st, |st.order|, now)
  {
    var cleared := st.(timers := ClearTimers(st.timers, st.scheduled, st.order));
    var alarms := AlarmsOf(st.scheduled, st.order);
    AlarmsOfListed(st.scheduled, st.order);
    RefreshStart(st, now);
    RefreshLoop(cleared, st, 0, alarms, now);
    assert alarms[0..] == alarms;
  }

  lemma RefreshView(r: State, st: State, now: int)
    requires WellFormed(st)
    requires r.scheduled.Keys == Kept(st.scheduled, now)
    requires forall id :: id in r.scheduled ==> r.scheduled[id].alarm == st.scheduled[id].alarm
    ensures ViewOf(r.scheduled) == Refreshed(ViewOf(st.scheduled), now)
  {
  }

  // ---------------------------------------------------------------------
  // The missed-alarm sweep.
  // ---------------------------------------------------------------------

  lemma NotesSnoc(ids: seq<string>, x: string, v: View)
    requires forall id :: id in ids ==> id in v
    requires x in v
    ensures Notes(ids + [x], v) == Notes(ids, v) + [NotificationFor(v[x])]
  {
    var l, r := Notes(ids + [x], v), Notes(ids, v) + [NotificationFor(v[x])];
    assert |l| == |r|;
    forall k | 0 <= k < |l| ensures l[k] == r[k] {
      if k < |ids| {
        assert (ids + [x])[k] == ids[k];
      }
    }
  }

  /**
   * The state after the sweep of `st` has visited its first `i` keys: the
   * entries left are the unvisited ones and the visited ones not yet due,
   * untouched and in their old order; the due visited ones have been shown.
   */
  ghost predicate SweepInv(c: State, st: State, i: int, now: int) {
    && WellFormed(st)
    && 0 <= i <= |st.order|
    && SweepState(c, st)
    && SweepKeys(c, st, i, now)
    && SweepShown(c, st, i, now)
  }

  ghost predicate SweepState(c: State, st: State) {
    && WellFormed(c)
    && c.timers == st.timers && c.nextTimeoutId == st.nextTimeoutId
    && c.lastActivityTime == st.lastActivityTime
    && c.order == Restrict(st.order, c.scheduled.Keys)
    && (forall id :: id in c.scheduled ==> id in st.scheduled && c.scheduled[id] == st.scheduled[id])
  }

  /** The keys visited so far are gone exactly when they were due; the others are all still there. */
  ghost predicate SweepKeys(c: State, st: State, i: int, now: int)
    requires 0 <= i <= |st.order|
  {
    KeysAfter(c.scheduled, st.scheduled, st.order[..i], now)
  }

  ghost predicate KeysAfter(cs: Entries, ss: Entries, visited: seq<string>, now: int) {
    forall id :: id in ss ==> (id in cs <==> id !in visited || ss[id].scheduledTime > now)
  }

  ghost predicate SweepShown(c: State, st: State, i: int, now: int)
    requires 0 <= i <= |st.order|
  {
    var v := ViewOf(st.scheduled);
    RestrictMembers(st.order[..i], DueIds(v, now));
    c.shown == st.shown + Notes(Restrict(st.order[..i], DueIds(v, now)), v)
  }

  lemma SweepStart(st: State, now: int)
    requires WellFormed(st)
    ensures SweepInv(st, st, 0, now)
  {
    var o := st.order;
    RestrictAll(o, st.scheduled.Keys);
    assert o[..0] == [];
    assert Notes([], ViewOf(st.scheduled)) == [];
  }

  lemma SweepStep(c: State, st: State, i: int, now: int)
    requires SweepInv(c, st, i, now) && i < |st.order|
    ensures SweepInv(SweepOne(c, st.order[i], now), st, i + 1, now)
  {
    var o, x := st.order, st.order[i];
    NotYetVisited(o, i);
    assert x in c.scheduled;
    SweepStepState(c, st, x, now);
    SweepStepKeysOf(c, st, i, now);
    SweepStepShown(c, st, i, now);
  }

  lemma SweepStepKeysOf(c: State, st: State, i: int, now: int)
    requires 0 <= i < |st.order|
    requires KeysAfter(c.scheduled, st.scheduled, st.order[..i], now)
    requires st.order[i] in c.scheduled && st.order[i] in st.scheduled
    requires c.scheduled[st.order[i]] == st.scheduled[st.order[i]]
    ensures SweepKeys(SweepOne(c, st.order[i], now), st, i + 1, now)
  {
    var x := st.order[i];
    assert SweepOne(c, x, now).scheduled
        == if c.scheduled[x].scheduledTime <= now then c.scheduled - {x} else c.scheduled;
    SweepStepKeys(c.scheduled, st.scheduled, st.order, i, now);
  }

  /** Deleting the key being visited keeps every later key of a duplicate-free list. */
  lemma LaterStillListed(keys: seq<string>, i: int, s: Entries)
    requires NoDup(keys) && 0 <= i < |keys|
    requires forall k :: i <= k < |keys| ==> keys[k] in s
    ensures forall k :: i + 1 <= k < |keys| ==> keys[k] in s - {keys[i]}
  {
  }

  lemma NotYetVisited(o: seq<string>, i: int)
    requires NoDup(o) && 0 <= i < |o|
    ensures o[i] !in o[..i]
  {
    forall k | 0 <= k < i ensures o[..i][k] != o[i] {
      assert o[..i][k] == o[k];
    }
  }

  lemma SweepStepState(c: State, st: State, x: string, now: int)
    requires SweepState(c, st) && x in c.scheduled
    ensures SweepState(SweepOne(c, x, now), st)
  {
    if c.scheduled[x].scheduledTime <= now {
      var shown := c.(shown := c.shown + [NotificationFor(c.scheduled[x].alarm)]);
      DeleteStep(shown, x);
      RestrictRestrict(st.order, c.scheduled.Keys, c.scheduled.Keys - {x});
      assert c.scheduled.Keys * (c.scheduled.Keys - {x}) == c.scheduled.Keys - {x};
    }
  }

  lemma SweepStepKeys(cs: Entries, ss: Entries, o: seq<string>, i: int, now: int)
    requires 0 <= i < |o|
    requires KeysAfter(cs, ss, o[..i], now)
    requires o[i] in cs && o[i] in ss && cs[o[i]] == ss[o[i]]
    ensures KeysAfter(if cs[o[i]].scheduledTime <= now then cs - {o[i]} else cs, ss, o[..i + 1], now)
  {
    assert o[..i + 1] == o[..i] + [o[i]];
  }

  lemma SweepStepShown(c: State, st: State, i: int, now: int)
    requires 0 <= i < |st.order|
    requires forall id :: id in st.order ==> id in st.scheduled
    requires forall id :: id in st.scheduled ==> st.scheduled[id].scheduledTime == st.scheduled[id].alarm.time
    requires SweepShown(c, st, i, now)
    requires st.order[i] in c.scheduled && c.scheduled[st.order[i]] == st.scheduled[st.order[i]]
    ensures SweepShown(SweepOne(c, st.order[i], now), st, i + 1, now)
  {
    var o, x, v := st.order, st.order[i], ViewOf(st.scheduled);
    var due := DueIds(v, now);
    RestrictSnocSlice(o, i, due);
    var done := Restrict(o[..i], due);
    RestrictMembers(o[..i], due);
    if c.scheduled[x].scheduledTime <= now {
      assert x in due;
      NotesSnoc(done, x, v);
    } else {
      assert x !in due;
    }
  }

  lemma {:induction false} SweepLoop(c: State, st: State, i: int, now: int)
    requires SweepInv(c, st, i, now)
    ensures SweepInv(SweepFrom(c, st.order[i..], now), st, |st.order|, now)
    decreases |st.order| - i
  {
    var o := st.order;
    if i == |o| {
      assert o[i..] == [];
    } else {
      assert o[i..][0] == o[i] && o[i..][1..] == o[i + 1..];
      assert SweepFrom(c, o[i..], now) == SweepFrom(SweepOne(c, o[i], now), o[i + 1..], now);
      SweepStep(c, st, i, now);
      SweepLoop(SweepOne(c, o[i], now), st, i + 1, now);
    }
  }

  /** The sweep changes neither the timers nor the activity time. */
  lemma {:induction false} SweepKeepsClock(st: State, ids: seq<string>, now: int)
    ensures var r := SweepFrom(st, ids, now);
      r.timers == st.timers && r.nextTimeoutId == st.nextTimeoutId && r.lastActivityTime == st.lastActivityTime
    decreases |ids|
  {
    if ids != [] {
      SweepKeepsClock(SweepOne(st, ids[0], now), ids[1..], now);
    }
  }

  lemma SweepRuns(st: State, now: int)
    requires WellFormed(st)
    ensures SweepInv(Sweep(st, now), st, |st.order|, now)
  {
    SweepStart(st, now);
    SweepLoop(st, st, 0, now);
    assert st.order[0..] == st.order;
  }

  /** The sweep keeps the state well formed and the remaining entries armed. */
  lemma SweepKeepsValid(st: State, now: int)
    requires WellFormed(st)
    ensures WellFormed(Sweep(st, now))
    ensures AllArmed(st) ==> AllArmed(Sweep(st, now))
  {
    SweepRuns(st, now);
    SweepEnd(Sweep(st, now), st, now);
  }

  /**
   * The sweep shows and deletes exactly the entries whose time has been
   * reached, in map order.
   */
  lemma SweepShowsDue(st: State, now: int)
    requires WellFormed(st)
    ensures var r := Sweep(st, now);
      && ViewOf(r.scheduled) == Pending(ViewOf(st.scheduled), now)
      && r.shown == st.shown + DueNotifications(st.order, ViewOf(st.scheduled), now)
  {
    SweepRuns(st, now);
    SweepEnd(Sweep(st, now), st, now);
  }

  /**
   * After the sweep no entry is due; the remaining entries, their order, the
   * timers and the activity time are as before.
   */
  lemma SweepLeavesRest(st: State, now: int)
    requires WellFormed(st)
    ensures var r := Sweep(st, now);
      && (forall id :: id in r.scheduled ==>
            id in st.scheduled && r.scheduled[id] == st.scheduled[id] && r.scheduled[id].scheduledTime > now)
      && r.order == Restrict(st.order, r.scheduled.Keys)
      && r.timers == st.timers && r.nextTimeoutId == st.nextTimeoutId
      && r.lastActivityTime == st.lastActivityTime
  {
    SweepRuns(st, now);
    SweepEnd(Sweep(st, now), st, now);
  }

  lemma SweepEnd(r: State, st: State, now: int)
    requires SweepInv(r, st, |st.order|, now)
    ensures ViewOf(r.scheduled) == Pending(ViewOf(st.scheduled), now)
    ensures r.shown == st.shown + DueNotifications(st.order, ViewOf(st.scheduled), now)
    ensures forall id :: id in r.scheduled ==> r.scheduled[id].scheduledTime > now
    ensures AllArmed(st) ==> AllArmed(r)
  {
    var o := st.order;
    assert o[..|o|] == o;
    assert forall id :: id in st.scheduled ==> id in o;
    SweepEndLater(r.scheduled, st.scheduled, now);
    SweepEndView(r.scheduled, st.scheduled, now);
    SweepEndArmed(r, st);
  }

  /** With every key visited, an entry is left exactly when it is not due. */
  lemma SweepEndLater(rs: Entries, ss: Entries, now: int)
    requires forall id :: id in rs ==> id in ss && rs[id] == ss[id]
    requires forall id :: id in ss ==> (id in rs <==> ss[id].scheduledTime > now)
    ensures forall id :: id in rs ==> rs[id].scheduledTime > now
  {
  }

  lemma SweepEndView(rs: Entries, ss: Entries, now: int)
    requires forall id :: id in ss ==> ss[id].scheduledTime == ss[id].alarm.time
    requires forall id :: id in rs ==> id in ss && rs[id] == ss[id]
    requires forall id :: id in ss ==> (id in rs <==> ss[id].scheduledTime > now)
    ensures ViewOf(rs) == Pending(ViewOf(ss), now)
  {
  }

  lemma SweepEndArmed(r: State, st: State)
    requires r.timers == st.timers
    requires forall id :: id in r.scheduled ==> id in st.scheduled && r.scheduled[id] == st.scheduled[id]
    ensures AllArmed(st) ==> AllArmed(r)
  {
  }

  // ---------------------------------------------------------------------
  // Properties of the handlers.
  // ---------------------------------------------------------------------

  /** Cancelling keeps the state well formed and every other entry armed. */
  lemma CancelKeepsValid(st: State, id: string)
    requires WellFormed(st)
    ensures WellFormed(CancelIn(st, id))
    ensures AllArmed(st) ==> AllArmed(CancelIn(st, id))
  {
    CancelStep(st, id);
  }

  /**
   * Cancelling removes the entry for `id` and clears its timer; an absent id
   * changes nothing, other entries are untouched, and cancelling twice is
   * cancelling once.
   */
  lemma CancelRemoves(st: State, id: string)
    ensures var r := CancelIn(st, id);
      && ViewOf(r.scheduled) == ViewOf(st.scheduled) - {id}
      && (forall x :: x in r.scheduled ==> x in st.scheduled && r.scheduled[x] == st.scheduled[x])
      && (id in st.scheduled ==> r.timers == st.timers - {st.scheduled[id].timeoutId})
      && (id !in st.scheduled ==> r == st)
      && CancelIn(r, id) == r
      && r.lastActivityTime == st.lastActivityTime && r.shown == st.shown
  {
  }

  /**
   * Scheduling keeps the state well formed and the other entries armed; a
   * stored alarm is armed, and the timer of the entry it replaces is cleared.
   */
  lemma ScheduleKeepsValid(st: State, a: AlarmPayload, now: int)
    requires WellFormed(st)
    ensures var r := ScheduleIn(st, a, now);
      && WellFormed(r)
      && (AllArmed(st) ==> AllArmed(r))
      && (a.id in r.scheduled ==> Armed(r, a.id))
      && (a.id in st.scheduled ==> st.scheduled[a.id].timeoutId !in r.timers)
  {
    ScheduleKeepsArmed(st, a, now);
    if a.id in st.scheduled {
      ScheduleKeepsWellFormed(st, a, now);
    } else if a.time - now >= MinDelay {
      ArmStep(st, a, a.time);
    }
  }

  /**
   * Scheduling `a` stores it, under a new handle and with `scheduledTime`
   * equal to its time, exactly when it is at least `MinDelay` ahead; any
   * earlier entry for `a.id` is gone either way, and entries of other ids are
   * untouched.
   */
  lemma ScheduleStores(st: State, a: AlarmPayload, now: int)
    ensures var r := ScheduleIn(st, a, now);
      && ViewOf(r.scheduled) == Rescheduled(ViewOf(st.scheduled), a, now)
      && (a.id in r.scheduled <==> a.time - now >= MinDelay)
      && (a.id in r.scheduled ==>
            r.scheduled[a.id] == Entry(st.nextTimeoutId, a, a.time) && r.scheduled[a.id].scheduledTime >= now + MinDelay)
      && (forall id :: id != a.id ==>
            (id in r.scheduled <==> id in st.scheduled) && (id in r.scheduled ==> r.scheduled[id] == st.scheduled[id]))
      && r.lastActivityTime == st.lastActivityTime && r.shown == st.shown
  {
    ScheduleLeavesOthers(st, a, now);
  }

  /** Scheduling the same alarm twice at the same instant is scheduling it once. */
  lemma ScheduleTwice(st: State, a: AlarmPayload, now: int)
    ensures var once := ScheduleIn(st, a, now);
      ViewOf(ScheduleIn(once, a, now).scheduled) == ViewOf(once.scheduled)
  {
    var once := ScheduleIn(st, a, now);
    ScheduleStores(st, a, now);
    ScheduleStores(once, a, now);
  }

  /** Of two schedules of the same id, the later one decides what is stored. */
  lemma ScheduleLastWins(st: State, a: AlarmPayload, b: AlarmPayload, now: int, later: int)
    requires a.id == b.id
    ensures ViewOf(ScheduleIn(ScheduleIn(st, a, now), b, later).scheduled)
         == Rescheduled(ViewOf(st.scheduled), b, later)
  {
    ScheduleStores(st, a, now);
    ScheduleStores(ScheduleIn(st, a, now), b, later);
    RescheduledTwice(ViewOf(st.scheduled), a, b, now, later);
  }

  lemma RescheduledTwice(v: View, a: AlarmPayload, b: AlarmPayload, now: int, later: int)
    requires a.id == b.id
    ensures Rescheduled(Rescheduled(v, a, now), b, later) == Rescheduled(v, b, later)
  {
  }

  /** Scheduling and then cancelling an id leaves the map as cancelling alone would. */
  lemma CancelAfterSchedule(st: State, a: AlarmPayload, now: int)
    requires WellFormed(st)
    ensures var r, c := CancelIn(ScheduleIn(st, a, now), a.id), CancelIn(st, a.id);
      r.scheduled == c.scheduled && r.timers == c.timers && r.order == c.order
  {
    var c := CancelIn(st, a.id);
    CancelFrees(st, a.id);
    if a.time - now >= MinDelay {
      UnarmFresh(c, a);
    }
  }

  /** After a cancel the key is free, the next handle is unused and every listed key has an entry. */
  lemma CancelFrees(st: State, id: string)
    requires WellFormed(st)
    ensures var c := CancelIn(st, id);
      && id !in c.scheduled && id !in c.order && c.nextTimeoutId !in c.timers
      && (forall x :: x in c.order ==> x in c.scheduled)
  {
    if id in st.scheduled {
      RestrictMembers(st.order, st.scheduled.Keys - {id});
    }
  }

  /** Arming a fresh key and then cancelling it restores the map, its order and the timers. */
  lemma UnarmFresh(c: State, a: AlarmPayload)
    requires a.id !in c.scheduled && a.id !in c.order && c.nextTimeoutId !in c.timers
    requires forall id :: id in c.order ==> id in c.scheduled
    ensures var n := c.nextTimeoutId;
      var armed := c.(timers := c.timers[n := PendingTimer(a, a.time)], nextTimeoutId := n + 1,
                      scheduled := c.scheduled[a.id := Entry(n, a, a.time)], order := c.order + [a.id]);
      var r := CancelIn(armed, a.id);
      r.scheduled == c.scheduled && r.timers == c.timers && r.order == c.order
  {
    var k, n := c.scheduled.Keys, c.nextTimeoutId;
    var e := Entry(n, a, a.time);
    assert c.scheduled[a.id := e].Keys - {a.id} == k;
    RestrictSnocAway(c.order, a.id, k);
    UpdateRemove(c.scheduled, a.id, e);
    UpdateRemove(c.timers, n, PendingTimer(a, a.time));
  }

  /** A timer firing keeps the state well formed and every other entry armed. */
  lemma FireKeepsValid(st: State, h: nat)
    requires WellFormed(st)
    ensures WellFormed(FireIn(st, h))
    ensures AllArmed(st) ==> AllArmed(FireIn(st, h))
  {
    if h in st.timers {
      var a := st.timers[h].alarm;
      var c := st.(timers := st.timers - {h}, shown := st.shown + [NotificationFor(a)]);
      DeleteStep(c, a.id);
      forall id | id in st.scheduled && id != a.id && Armed(st, id) ensures Armed(c, id) {
        assert st.scheduled[id].timeoutId != h;
      }
    }
  }

  /**
   * A pending callback shows the alarm it holds, with tag `alarm.id` and body
   * `alarm.name`, and deletes that id's entry; other entries are untouched. A
   * handle with no pending callback changes nothing.
   */
  lemma FireShows(st: State, h: nat)
    ensures var r := FireIn(st, h);
      && (h !in st.timers ==> r == st)
      && (h in st.timers ==>
            var a := st.timers[h].alarm;
            && r.shown == st.shown + [Notification(a.id, a.name)]
            && a.id !in r.scheduled && h !in r.timers
            && (forall id :: id in r.scheduled ==> id in st.scheduled && r.scheduled[id] == st.scheduled[id]))
  {
  }

  /** The timer of an armed entry shows that entry's alarm and deletes the entry. */
  lemma FireArmed(st: State, id: string)
    requires id in st.scheduled && Armed(st, id)
    ensures var r := FireIn(st, st.scheduled[id].timeoutId);
      r.shown == st.shown + [NotificationFor(st.scheduled[id].alarm)]
      && (st.scheduled[id].alarm.id == id ==> id !in r.scheduled)
  {
  }

  /**
   * The sweep's notifications are exactly those of the due alarms, each once:
   * their tags are distinct.
   */
  lemma DueNotificationsExact(order: seq<string>, v: View, now: int)
    requires NoDup(order) && KeyedById(v)
    requires forall id :: id in order <==> id in v
    ensures var r := DueNotifications(order, v, now);
      && (forall n :: n in r <==> exists id :: id in v && v[id].time <= now && n == NotificationFor(v[id]))
      && (forall i, j :: 0 <= i < j < |r| ==> r[i].tag != r[j].tag)
  {
    var due := DueIds(v, now);
    var ids := Restrict(order, due);
    RestrictNoDup(order, due);
    RestrictMembers(order, due);
    var r := Notes(ids, v);
    forall n | n in r ensures exists id :: id in v && v[id].time <= now && n == NotificationFor(v[id]) {
      var k :| 0 <= k < |r| && r[k] == n;
      assert ids[k] in due;
    }
    forall id | id in v && v[id].time <= now ensures NotificationFor(v[id]) in r {
      assert id in ids;
      var k :| 0 <= k < |ids| && ids[k] == id;
      assert r[k] == NotificationFor(v[id]);
    }
    forall i, j | 0 <= i < j < |r| ensures r[i].tag != r[j].tag {
      assert r[i].tag == ids[i] && r[j].tag == ids[j];
    }
  }

  lemma NothingDueNothingShown(order: seq<string>, v: View, now: int)
    requires forall id :: id in v ==> v[id].time > now
    ensures DueNotifications(order, v, now) == []
  {
    assert DueIds(v, now) == {};
    RestrictEmpty(order);
  }

  /** The self-check keeps the state well formed and every remaining entry armed. */
  lemma SelfCheckKeepsValid(st: State, now: int)
    requires WellFormed(st)
    ensures WellFormed(SelfCheckIn(st, now))
    ensures AllArmed(st) ==> AllArmed(SelfCheckIn(st, now))
  {
    if now - st.lastActivityTime > IdleRefreshAfter {
      var touched := st.(lastActivityTime := now);
      RefreshKeepsValid(touched, now);
      SweepKeepsValid(RefreshIn(touched, now), now);
    } else {
      SweepKeepsValid(st, now);
    }
  }

  /** After the self-check no entry is due. */
  lemma SelfCheckLeavesNothingDue(st: State, now: int)
    requires WellFormed(st)
    ensures forall id :: id in SelfCheckIn(st, now).scheduled ==> SelfCheckIn(st, now).scheduled[id].scheduledTime > now
  {
    if now - st.lastActivityTime > IdleRefreshAfter {
      var touched := st.(lastActivityTime := now);
      RefreshKeepsValid(touched, now);
      SweepLeavesRest(RefreshIn(touched, now), now);
    } else {
      SweepLeavesRest(st, now);
    }
  }

  /**
   * The self-check as written, after more than `IdleRefreshAfter` of
   * silence: it resets `lastActivityTime` and re-arms the entries at least
   * `MinDelay` ahead, and shows nothing at all, not even for entries already
   * overdue, which it deletes.
   */
  lemma IdleSelfCheck(st: State, now: int)
    requires WellFormed(st) && now - st.lastActivityTime > IdleRefreshAfter
    ensures var r := SelfCheckIn(st, now);
      && r.lastActivityTime == now
      && ViewOf(r.scheduled) == Refreshed(ViewOf(st.scheduled), now)
      && r.shown == st.shown
  {
    var touched := st.(lastActivityTime := now);
    var refreshed := RefreshIn(touched, now);
    RefreshKeeps(touched, now);
    RefreshKeepsValid(touched, now);
    forall id | id in refreshed.scheduled ensures refreshed.scheduled[id].alarm.time > now {
      assert ViewOf(refreshed.scheduled)[id] == refreshed.scheduled[id].alarm;
    }
    SweepNothingDue(refreshed, now);
  }

  /** With every alarm in the future, the sweep shows nothing and keeps every entry. */
  lemma SweepNothingDue(st: State, now: int)
    requires WellFormed(st)
    requires forall id :: id in st.scheduled ==> st.scheduled[id].alarm.time > now
    ensures var r := Sweep(st, now);
      r.shown == st.shown && ViewOf(r.scheduled) == ViewOf(st.scheduled) && r.lastActivityTime == st.lastActivityTime
  {
    var v := ViewOf(st.scheduled);
    SweepShowsDue(st, now);
    SweepKeepsClock(st, st.order, now);
    NothingDueNothingShown(st.order, v, now);
    PendingAllLater(v, now);
  }

  lemma PendingAllLater(v: View, now: int)
    requires forall id :: id in v ==> v[id].time > now
    ensures Pending(v, now) == v
  {
  }

  /**
   * The self-check within `IdleRefreshAfter` of the last message: it shows
   * and deletes exactly the due entries and leaves `lastActivityTime` alone.
   */
  lemma BusySelfCheck(st: State, now: int)
    requires WellFormed(st) && now - st.lastActivityTime <= IdleRefreshAfter
    ensures var r, v := SelfCheckIn(st, now), ViewOf(st.scheduled);
      && r.lastActivityTime == st.lastActivityTime
      && ViewOf(r.scheduled) == Pending(v, now)
      && r.shown == st.shown + DueNotifications(st.order, v, now)
  {
    SweepShowsDue(st, now);
    SweepLeavesRest(st, now);
  }

  /** The self-check with the sweep first shows every due alarm, idle or not. */
  lemma SweepFirstShowsDue(st: State, now: int)
    requires WellFormed(st)
    ensures SelfCheckSweepFirstIn(st, now).shown == st.shown + DueNotifications(st.order, ViewOf(st.scheduled), now)
  {
    var swept := Sweep(st, now);
    SweepShowsDue(st, now);
    SweepKeepsClock(st, st.order, now);
    if now - st.lastActivityTime > IdleRefreshAfter {
      SweepKeepsValid(st, now);
      RefreshKeeps(swept.(lastActivityTime := now), now);
    }
  }

  /**
   * After the corrected self-check the map holds the entries not yet due;
   * when idle, only those at least `MinDelay` ahead, as the refresh alone
   * would leave.
   */
  lemma SweepFirstView(st: State, now: int)
    requires WellFormed(st)
    ensures var r, v := SelfCheckSweepFirstIn(st, now), ViewOf(st.scheduled);
      && (now - st.lastActivityTime > IdleRefreshAfter ==>
            r.lastActivityTime == now && ViewOf(r.scheduled) == Refreshed(v, now))
      && (now - st.lastActivityTime <= IdleRefreshAfter ==>
            r.lastActivityTime == st.lastActivityTime && ViewOf(r.scheduled) == Pending(v, now))
  {
    var v := ViewOf(st.scheduled);
    var swept := Sweep(st, now);
    SweepShowsDue(st, now);
    SweepKeepsClock(st, st.order, now);
    if now - st.lastActivityTime > IdleRefreshAfter {
      SweepKeepsValid(st, now);
      RefreshKeeps(swept.(lastActivityTime := now), now);
      RefreshedAfterPending(v, now);
    }
  }

  lemma RefreshedAfterPending(v: View, now: int)
    ensures Refreshed(Pending(v, now), now) == Refreshed(v, now)
  {
  }

  /** The corrected self-check keeps the state well formed and the remaining entries armed. */
  lemma SweepFirstKeepsValid(st: State, now: int)
    requires WellFormed(st)
    ensures WellFormed(SelfCheckSweepFirstIn(st, now))
    ensures AllArmed(st) ==> AllArmed(SelfCheckSweepFirstIn(st, now))
  {
    var swept := Sweep(st, now);
    SweepKeepsValid(st, now);
    SweepKeepsClock(st, st.order, now);
    if now - st.lastActivityTime > IdleRefreshAfter {
      RefreshKeepsValid(swept.(lastActivityTime := now), now);
    }
  }

  /**
   * A worker that last heard from the page at 0 and holds one armed alarm due
   * at 10000.
   */
  function OverdueExample(): State {
    var a := AlarmPayload("1", "Wake", 10000);
    State(map["1" := Entry(0, a, 10000)], ["1"], map[0 := PendingTimer(a, 10000)], 1, 0, [])
  }

  /** The example is valid, and at 50000 its one alarm is due. */
  lemma OverdueExampleDue()
    ensures Valid(OverdueExample())
    ensures DueNotifications(OverdueExample().order, ViewOf(OverdueExample().scheduled), 50000)
         == [Notification("1", "Wake")]
  {
    OverdueExampleValid();
    OverdueExampleNotes(50000);
  }

  lemma OverdueExampleValid()
    ensures Valid(OverdueExample())
  {
    var st := OverdueExample();
    assert st.scheduled.Keys == {"1"} && st.timers.Keys == {0};
    assert forall id :: id in st.order <==> id == "1";
  }

  lemma OverdueExampleNotes(now: int)
    requires now >= 10000
    ensures DueNotifications(OverdueExample().order, ViewOf(OverdueExample().scheduled), now)
         == [Notification("1", "Wake")]
  {
    var st := OverdueExample();
    var v := ViewOf(st.scheduled);
    assert v == map["1" := AlarmPayload("1", "Wake", 10000)];
    assert DueIds(v, now) == {"1"};
    assert Restrict(["1"], {"1"}) == ["1"] by {
      assert ["1"][..0] == [];
    }
  }

  /**
   * Waking 50 s later, the self-check as written deletes the overdue alarm
   * without showing it: the idle refresh drops it before the missed-alarm loop runs.
   */
  lemma OverdueAlarmLostAfterIdle()
    ensures Valid(OverdueExample())
    ensures DueNotifications(OverdueExample().order, ViewOf(OverdueExample().scheduled), 50000) != []
    ensures SelfCheckIn(OverdueExample(), 50000).shown == []
    ensures SelfCheckIn(OverdueExample(), 50000).scheduled == map[]
  {
    var st := OverdueExample();
    OverdueExampleDue();
    IdleSelfCheck(st, 50000);
    assert Refreshed(ViewOf(st.scheduled), 50000) == map[];
  }

  /** Sweeping first shows the overdue alarm of the same example. */
  lemma OverdueAlarmShownSweepFirst()
    ensures SelfCheckSweepFirstIn(OverdueExample(), 50000).shown == [Notification("1", "Wake")]
  {
    OverdueExampleDue();
    SweepFirstShowsDue(OverdueExample(), 50000);
  }

  /**
   * A worker idle since 0 whose one alarm is due at 50500, half a second
   * after a self-check at 50000.
   */
  function NearlyDueExample(): State {
    var a := AlarmPayload("1", "Wake", 50500);
    State(map["1" := Entry(0, a, 50500)], ["1"], map[0 := PendingTimer(a, 50500)], 1, 0, [])
  }

  /**
   * An alarm due less than `MinDelay` after an idle self-check is lost with
   * either order: the refresh drops it with its timer, and the sweep, before
   * or after, does not find it due yet.
   */
  lemma NearlyDueLostEitherWay()
    ensures Valid(NearlyDueExample())
    ensures var r := SelfCheckIn(NearlyDueExample(), 50000);
      r.shown == [] && r.scheduled == map[] && r.timers == map[]
    ensures var r := SelfCheckSweepFirstIn(NearlyDueExample(), 50000);
      r.shown == [] && r.scheduled == map[] && r.timers == map[]
  {
    var st, now := NearlyDueExample(), 50000;
    assert st.scheduled.Keys == {"1"} && st.timers.Keys == {0};
    assert forall id :: id in st.order <==> id == "1";
    var a := AlarmPayload("1", "Wake", 50500);
    var touched := st.(lastActivityTime := now);
    var cleared := touched.(timers := map[]);
    assert ClearTimers(touched.timers, touched.scheduled, touched.order) == map[];
    assert AlarmsOf(touched.scheduled, touched.order) == [a];
    RestrictEmpty(["1"]);
    assert st.scheduled.Keys - {"1"} == {};
    var dropped := CancelIn(cleared, "1");
    assert dropped.scheduled == map[] && dropped.order == [] && dropped.timers == map[] && dropped.shown == [];
    assert RefreshIn(touched, now) == dropped;
    assert SelfCheckIn(st, now) == dropped;
    assert Sweep(st, now) == st by {
      assert SweepOne(st, "1", now) == st;
      assert ["1"][1..] == [];
    }
  }

  // ---------------------------------------------------------------------
  // The timers of the alarms the sweep shows.
  // ---------------------------------------------------------------------

  /** The handles the map's entries hold. */
  function HandlesOf(s: Entries): set<nat> {
    set id | id in s :: s[id].timeoutId
  }

  /** Every pending callback belongs to an entry still in the map. */
  ghost predicate Tidy(st: State) {
    forall h :: h in st.timers ==> h in HandlesOf(st.scheduled)
  }

  /**
   * The sweep as written deletes a due entry but leaves its callback with the
   * platform: the handle belongs to no entry any more, and when it runs it
   * shows the alarm the sweep has already shown.
   */
  lemma SweepLeavesOrphan(st: State, id: string, now: int)
    requires Valid(st) && id in st.scheduled && st.scheduled[id].scheduledTime <= now
    ensures var r, e := Sweep(st, now), st.scheduled[id];
      && id !in r.scheduled
      && NotificationFor(e.alarm) in r.shown
      && e.timeoutId in r.timers && e.timeoutId !in HandlesOf(r.scheduled)
      && FireIn(r, e.timeoutId).shown == r.shown + [NotificationFor(e.alarm)]
  {
    var r, e := Sweep(st, now), st.scheduled[id];
    var v := ViewOf(st.scheduled);
    SweepLeavesRest(st, now);
    SweepShowsDue(st, now);
    DueNotificationsExact(st.order, v, now);
    assert v[id] == e.alarm && v[id].time <= now;
    forall x | x in r.scheduled ensures r.scheduled[x].timeoutId != e.timeoutId {
      assert x != id;
    }
  }

  /** Due at 10000, checked at 20000 while the page is still active. */
  lemma StaleTimerShowsTwice()
    ensures SelfCheckIn(OverdueExample(), 20000).shown == [Notification("1", "Wake")]
    ensures FireIn(SelfCheckIn(OverdueExample(), 20000), 0).shown
         == [Notification("1", "Wake"), Notification("1", "Wake")]
  {
    var st := OverdueExample();
    OverdueExampleValid();
    OverdueExampleNotes(20000);
    BusySelfCheck(st, 20000);
    SweepLeavesRest(st, 20000);
  }

  /**
   * One iteration of the missed-alarm loop that also clears the entry's
   * timer, as `cancelAlarmNotification` does.
   */
  function SweepClearingOne(st: State, id: string, now: int): State {
    if id in st.scheduled && st.scheduled[id].scheduledTime <= now then
      CancelIn(st.(shown := st.shown + [NotificationFor(st.scheduled[id].alarm)]), id)
    else
      st
  }

  function SweepClearingFrom(st: State, ids: seq<string>, now: int): State
    decreases |ids|
  {
    if ids == [] then st
    else SweepClearingFrom(SweepClearingOne(st, ids[0], now), ids[1..], now)
  }

  /** The missed-alarm loop with `clearTimeout` on each alarm it shows. */
  function SweepClearing(st: State, now: int): State {
    SweepClearingFrom(st, st.order, now)
  }

  /** The two states differ at most in their timers. */
  ghost predicate SameButTimers(c: State, d: State) {
    c.scheduled == d.scheduled && c.order == d.order && c.shown == d.shown
    && c.nextTimeoutId == d.nextTimeoutId && c.lastActivityTime == d.lastActivityTime
  }

  /** Clearing the timers changes nothing else the sweep does. */
  lemma {:induction false} ClearingFromAgrees(c: State, d: State, ids: seq<string>, now: int)
    requires SameButTimers(c, d)
    ensures SameButTimers(SweepClearingFrom(c, ids, now), SweepFrom(d, ids, now))
    decreases |ids|
  {
    if ids != [] {
      ClearingFromAgrees(SweepClearingOne(c, ids[0], now), SweepOne(d, ids[0], now), ids[1..], now);
    }
  }

  /** Cancelling removes the entry's handle with it, so every pending callback stays owned. */
  lemma CancelKeepsTidy(st: State, id: string)
    requires WellFormed(st) && Tidy(st)
    ensures Tidy(CancelIn(st, id))
  {
    if id in st.scheduled {
      var r := CancelIn(st, id);
      forall k | k in r.timers ensures k in HandlesOf(r.scheduled) {
        var x :| x in st.scheduled && st.scheduled[x].timeoutId == k;
        assert x != id;
        assert x in r.scheduled && r.scheduled[x] == st.scheduled[x];
      }
    }
  }

  /** A clearing step keeps the state valid and every pending callback owned. */
  lemma ClearingOneTidy(c: State, id: string, now: int)
    requires Valid(c) && Tidy(c)
    ensures Valid(SweepClearingOne(c, id, now)) && Tidy(SweepClearingOne(c, id, now))
  {
    if id in c.scheduled && c.scheduled[id].scheduledTime <= now {
      var s := c.(shown := c.shown + [NotificationFor(c.scheduled[id].alarm)]);
      assert WellFormed(s) && AllArmed(s) && Tidy(s);
      CancelKeepsValid(s, id);
      CancelKeepsTidy(s, id);
    }
  }

  lemma {:induction false} ClearingFromTidy(c: State, ids: seq<string>, now: int)
    requires Valid(c) && Tidy(c)
    ensures Valid(SweepClearingFrom(c, ids, now)) && Tidy(SweepClearingFrom(c, ids, now))
    decreases |ids|
  {
    if ids != [] {
      ClearingOneTidy(c, ids[0], now);
      ClearingFromTidy(SweepClearingOne(c, ids[0], now), ids[1..], now);
    }
  }

  /**
   * With each shown alarm's timer cleared, the sweep shows and removes the
   * same entries as before, and every callback still pending holds an alarm
   * that is in the map and not yet due: none shows a swept alarm again.
   */
  lemma SweptAlarmNotRefired(st: State, now: int)
    requires Valid(st) && Tidy(st)
    ensures var r := SweepClearing(st, now);
      && Valid(r) && Tidy(r)
      && r.shown == st.shown + DueNotifications(st.order, ViewOf(st.scheduled), now)
      && ViewOf(r.scheduled) == Pending(ViewOf(st.scheduled), now)
      && (forall h :: h in r.timers ==> r.timers[h].alarm.id in r.scheduled && r.timers[h].alarm.time > now)
  {
    var r := SweepClearing(st, now);
    ClearingFromAgrees(st, st, st.order, now);
    ClearingFromTidy(st, st.order, now);
    SweepShowsDue(st, now);
    SweepLeavesRest(st, now);
    forall h | h in r.timers ensures r.timers[h].alarm.id in r.scheduled && r.timers[h].alarm.time > now {
      var x :| x in r.scheduled && r.scheduled[x].timeoutId == h;
      assert Armed(r, x);
    }
  }

  /**
   * Every message records `now` as the last activity; `SCHEDULE_ALARM`
   * schedules, `CANCEL_ALARM` cancels, `KEEP_ALIVE_PING` refreshes and answers
   * the sender with `now`, and any other message changes nothing else.
   */
  lemma HandleFacts(st: State, msg: WorkerMessage, now: int, hasSource: bool)
    requires WellFormed(st)
    ensures var (r, pong) := HandleIn(st, msg, now, hasSource);
      var v := ViewOf(st.scheduled);
      && r.lastActivityTime == now
      && WellFormed(r)
      && (AllArmed(st) ==> AllArmed(r))
      && r.shown == st.shown
      && (msg.ScheduleAlarm? ==> ViewOf(r.scheduled) == Rescheduled(v, msg.alarm, now) && pong == None)
      && (msg.CancelAlarm? ==> ViewOf(r.scheduled) == v - {msg.alarmId} && pong == None)
      && (msg.KeepAlivePing? ==>
            ViewOf(r.scheduled) == Refreshed(v, now) && pong == (if hasSource then Some(now) else None))
      && ((msg.SkipWaiting? || msg.Unrecognized?) ==> r == st.(lastActivityTime := now) && pong == None)
  {
    var touched := st.(lastActivityTime := now);
    match msg
    case ScheduleAlarm(a) => ScheduleKeepsValid(touched, a, now); ScheduleStores(touched, a, now);
    case CancelAlarm(id) => CancelKeepsValid(touched, id); CancelRemoves(touched, id);
    case KeepAlivePing => RefreshKeepsValid(touched, now); RefreshKeeps(touched, now);
    case SkipWaiting =>
    case Unrecognized =>
  }

  // ---------------------------------------------------------------------
  // The worker's module-level state and its handlers.
  // ---------------------------------------------------------------------

  class AlarmScheduler {
    /** `scheduledAlarms`: alarm id -> timer handle, alarm snapshot and fire instant. */
    var scheduled: Entries
    /** The order in which the `Map` iterates: insertion order of the live keys. */
    var order: seq<string>
    /** Callbacks the platform still holds, by handle. */
    var timers: Timers
    /** The handle the next `setTimeout` returns. */
    var nextTimeoutId: nat
    /** `lastActivityTime`. */
    var lastActivityTime: int
    /** Every `showNotification` request so far. */
    var shown: seq<Notification>

    ghost function Snapshot(): State
      reads this
    {
      State(scheduled, order, timers, nextTimeoutId, lastActivityTime, shown)
    }

    /** The worker starts with no entries; `lastActivityTime` is the load time (line 4). */
    constructor (now: int)
      ensures Snapshot() == Initial(now)
      ensures Valid(Snapshot())
    {
      scheduled := map[];
      order := [];
      timers := map[];
      nextTimeoutId := 0;
      lastActivityTime := now;
      shown := [];
    }

    method Cancel(alarmId: string)
      modifies this
      ensures Snapshot() == CancelIn(old(Snapshot()), alarmId)
    {
      if alarmId in scheduled {
        var data := scheduled[alarmId];
        timers := timers - {data.timeoutId};
        scheduled := scheduled - {alarmId};
        order := Restrict(order, scheduled.Keys);
      }
    }

    method Schedule(alarm: AlarmPayload, now: int)
      modifies this
      ensures Snapshot() == ScheduleIn(old(Snapshot()), alarm, now)
    {
      if alarm.id in scheduled {
        Cancel(alarm.id);
      }
      var alarmTime := alarm.time;
      var delay := alarmTime - now;
      if delay < MinDelay {
        return;
      }
      var timeoutId := nextTimeoutId;
      timers := timers[timeoutId := PendingTimer(alarm, now + delay)];
      nextTimeoutId := nextTimeoutId + 1;
      scheduled := scheduled[alarm.id := Entry(timeoutId, alarm, alarmTime)];
      order := order + [alarm.id];
    }

    method Refresh(now: int)
      requires KeysListed(Snapshot())
      modifies this
      ensures Snapshot() == RefreshIn(old(Snapshot()), now)
    {
      if |scheduled| == 0 {
        return;
      }
      ghost var st0 := Snapshot();
      var keys := order;
      assert forall k :: 0 <= k < |keys| ==> keys[k] in scheduled;
      var alarmsToReschedule: seq<AlarmPayload> := [];
      var i := 0;
      while i < |keys|
        invariant 0 <= i <= |keys|
        invariant Snapshot() == st0.(timers := timers)
        invariant ClearTimers(timers, scheduled, keys[i..]) == ClearTimers(st0.timers, scheduled, keys)
        invariant alarmsToReschedule + AlarmsOf(scheduled, keys[i..]) == AlarmsOf(scheduled, keys)
      {
        var alarmId := keys[i];
        assert keys[i..][0] == alarmId && keys[i..][1..] == keys[i + 1..];
        var data := scheduled[alarmId];
        timers := timers - {data.timeoutId};
        Assoc(alarmsToReschedule, [data.alarm], AlarmsOf(scheduled, keys[i + 1..]));
        alarmsToReschedule := alarmsToReschedule + [data.alarm];
        i := i + 1;
      }
      assert keys[i..] == [];
      ghost var cleared := Snapshot();
      assert cleared == st0.(timers := ClearTimers(st0.timers, st0.scheduled, st0.order));
      assert alarmsToReschedule == AlarmsOf(st0.scheduled, st0.order);
      var j := 0;
      while j < |alarmsToReschedule|
        invariant 0 <= j <= |alarmsToReschedule|
        invariant ScheduleEach(Snapshot(), alarmsToReschedule[j..], now)
               == ScheduleEach(cleared, alarmsToReschedule, now)
      {
        var alarm := alarmsToReschedule[j];
        assert alarmsToReschedule[j..][0] == alarm && alarmsToReschedule[j..][1..] == alarmsToReschedule[j + 1..];
        Schedule(alarm, now);
        j := j + 1;
      }
      assert alarmsToReschedule[j..] == [];
    }

    method Fire(handle: nat)
      modifies this
      ensures Snapshot() == FireIn(old(Snapshot()), handle)
    {
      if handle !in timers {
        return;
      }
      var alarm := timers[handle].alarm;
      timers := timers - {handle};
      shown := shown + [NotificationFor(alarm)];
      scheduled := scheduled - {alarm.id};
      order := Restrict(order, scheduled.Keys);
    }

    method SweepMissed(now: int)
      requires KeysListed(Snapshot()) && NoDup(order)
      modifies this
      ensures Snapshot() == Sweep(old(Snapshot()), now)
    {
      ghost var st0 := Snapshot();
      var keys := order;
      assert forall k :: 0 <= k < |keys| ==> keys[k] in scheduled;
      var i := 0;
      while i < |keys|
        invariant 0 <= i <= |keys|
        invariant NoDup(keys)
        invariant forall k :: i <= k < |keys| ==> keys[k] in scheduled
        invariant SweepFrom(Snapshot(), keys[i..], now) == Sweep(st0, now)
      {
        var alarmId := keys[i];
        assert keys[i..][0] == alarmId && keys[i..][1..] == keys[i + 1..];
        LaterStillListed(keys, i, scheduled);
        ShowIfMissed(alarmId, now);
        i := i + 1;
      }
    }

    /** One pass of the missed-alarm loop: show and forget the entry if its time has come. */
    method ShowIfMissed(alarmId: string, now: int)
      requires alarmId in scheduled
      modifies this
      ensures Snapshot() == SweepOne(old(Snapshot()), alarmId, now)
    {
      var data := scheduled[alarmId];
      if data.scheduledTime <= now {
        shown := shown + [NotificationFor(data.alarm)];
        scheduled := scheduled - {alarmId};
        order := Restrict(order, scheduled.Keys);
      }
    }

    /** The missed-alarm loop with `clearTimeout` on the handle of each alarm it shows. */
    method SweepMissedClearing(now: int)
      requires KeysListed(Snapshot()) && NoDup(order)
      modifies this
      ensures Snapshot() == SweepClearing(old(Snapshot()), now)
    {
      ghost var st0 := Snapshot();
      var keys := order;
      assert forall k :: 0 <= k < |keys| ==> keys[k] in scheduled;
      var i := 0;
      while i < |keys|
        invariant 0 <= i <= |keys|
        invariant NoDup(keys)
        invariant forall k :: i <= k < |keys| ==> keys[k] in scheduled
        invariant SweepClearingFrom(Snapshot(), keys[i..], now) == SweepClearing(st0, now)
      {
        var alarmId := keys[i];
        assert keys[i..][0] == alarmId && keys[i..][1..] == keys[i + 1..];
        LaterStillListed(keys, i, scheduled);
        ClearIfMissed(alarmId, now);
        i := i + 1;
      }
    }

    /** One pass of the corrected loop: show the entry if its time has come, then cancel it. */
    method ClearIfMissed(alarmId: string, now: int)
      requires alarmId in scheduled
      modifies this
      ensures Snapshot() == SweepClearingOne(old(Snapshot()), alarmId, now)
    {
      var data := scheduled[alarmId];
      if data.scheduledTime <= now {
        shown := shown + [NotificationFor(data.alarm)];
        Cancel(alarmId);
      }
    }

    /** The 25-second self-check as written: refresh when idle, then the missed-alarm loop. */
    method SelfCheck(now: int)
      requires WellFormed(Snapshot())
      modifies this
      ensures Snapshot() == SelfCheckIn(old(Snapshot()), now)
      ensures WellFormed(Snapshot())
    {
      ghost var st0 := Snapshot();
      SelfCheckKeepsValid(st0, now);
      var timeSinceLastActivity := now - lastActivityTime;
      if timeSinceLastActivity > IdleRefreshAfter {
        lastActivityTime := now;
        Refresh(now);
        RefreshKeepsValid(st0.(lastActivityTime := now), now);
      }
      SweepMissed(now);
    }

    /** The self-check with the missed-alarm loop moved ahead of the idle refresh. */
    method SelfCheckSweepFirst(now: int)
      requires WellFormed(Snapshot())
      modifies this
      ensures Snapshot() == SelfCheckSweepFirstIn(old(Snapshot()), now)
      ensures WellFormed(Snapshot())
    {
      ghost var st0 := Snapshot();
      SweepFirstKeepsValid(st0, now);
      SweepMissed(now);
      SweepKeepsValid(st0, now);
      var timeSinceLastActivity := now - lastActivityTime;
      if timeSinceLastActivity > IdleRefreshAfter {
        lastActivityTime := now;
        Refresh(now);
      }
    }

    /**
     * The `message` listener; `hasSource` says whether the event has a sender
     * to answer. Returns the timestamp of the `KEEP_ALIVE_PONG` sent, if any.
     */
    method HandleMessage(msg: WorkerMessage, now: int, hasSource: bool) returns (pong: Option<int>)
      requires WellFormed(Snapshot())
      modifies this
      ensures (Snapshot(), pong) == HandleIn(old(Snapshot()), msg, now, hasSource)
      ensures WellFormed(Snapshot())
    {
      HandleFacts(Snapshot(), msg, now, hasSource);
      lastActivityTime := now;
      pong := None;
      match msg {
        case ScheduleAlarm(alarm) =>
          Schedule(alarm, now);
        case CancelAlarm(alarmId) =>
          Cancel(alarmId);
        case KeepAlivePing =>
          if hasSource {
            pong := Some(now);
          }
          Refresh(now);
        case SkipWaiting =>
        case Unrecognized =>
      }
    }
  }
}
