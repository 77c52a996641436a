/**
 * The alarm form's submit handler, which turns the selected hour, minute and
 * second into the next instant with that time of day, and the generator of
 * the zero-padded choices its selects offer.
 */
module AlarmForm {
  import opened AlarmTypes
  import opened Wrappers
  import opened Clock
  import opened Decimal

  /** A select value as `parseInt` reads it: decimal digits naming one of the `max` choices. */
  ghost predicate Selectable(s: string, max: int) {
    1 <= |s| && IsDigits(s) && ValueOf(s) < max
  }

  /**
   * The instant `handleSubmit` builds: a `Date` read at `now`, set to the
   * chosen hour, minute and second with milliseconds 0, and moved to the
   * next day when that lies before `now`.
   */
  method SubmitTime(h: int, m: int, s: int, now: int) returns (alarmTime: int)
    requires 0 <= h < 24 && 0 <= m < 60 && 0 <= s < 60
    ensures HoursOf(alarmTime) == h && MinutesOf(alarmTime) == m
    ensures SecondsOf(alarmTime) == s && MillisOf(alarmTime) == 0
    ensures now <= alarmTime < now + Day
    ensures DayOf(alarmTime) == DayOf(now) || DayOf(alarmTime) == DayOf(now) + 1
    ensures forall u :: now <= u && SameTimeOfDay(u, h, m, s) ==> alarmTime <= u
  {
    alarmTime := now;
    alarmTime := SetHours(alarmTime, h);
    alarmTime := SetMinutes(alarmTime, m);
    alarmTime := SetSeconds(alarmTime, s);
    alarmTime := SetMilliseconds(alarmTime, 0);
    WithinDay(now);
    WithinDay(alarmTime);
    if alarmTime < now {
      alarmTime := NextDay(alarmTime);
    }
    forall u | now <= u && SameTimeOfDay(u, h, m, s) ensures alarmTime <= u {
      EarliestOccurrence(alarmTime, u, now);
    }
  }

  /** `u` reads as `h:m:s.000`. */
  predicate SameTimeOfDay(u: int, h: int, m: int, s: int) {
    HoursOf(u) == h && MinutesOf(u) == m && SecondsOf(u) == s && MillisOf(u) == 0
  }

  /** An instant lies within its own day. */
  lemma WithinDay(t: int)
    ensures DayOf(t) * Day <= t < DayOf(t) * Day + Day
  {
  }

  /**
   * The submitted time is the earliest instant not before `now` with its time
   * of day: any later instant with the same reading is not earlier.
   */
  lemma EarliestOccurrence(t: int, u: int, now: int)
    requires now <= t < now + Day && now <= u
    requires HoursOf(t) == HoursOf(u) && MinutesOf(t) == MinutesOf(u)
    requires SecondsOf(t) == SecondsOf(u) && MillisOf(t) == MillisOf(u)
    ensures t <= u
  {
    if u < t {
      SameTimeOfDayWithinDay(u, t);
    }
  }

  /**
   * `handleSubmit`: an edited alarm keeps its identifier, a new one gets
   * `String(Date.now())`; name and active flag come from the form.
   */
  method HandleSubmit(initialData: Option<Alarm>, name: string, hours: string, minutes: string,
                      seconds: string, active: bool, now: int)
    returns (alarm: Alarm)
    requires Selectable(hours, 24) && Selectable(minutes, 60) && Selectable(seconds, 60)
    ensures alarm.id == if initialData.Some? then initialData.value.id else IntToString(now)
    ensures alarm.name == name && alarm.active == active
    ensures SameTimeOfDay(alarm.time, ValueOf(hours), ValueOf(minutes), ValueOf(seconds))
    ensures now <= alarm.time < now + Day
  {
    var alarmTime := SubmitTime(ValueOf(hours), ValueOf(minutes), ValueOf(seconds), now);
    if initialData.Some? {
      alarm := initialData.value.(name := name, time := alarmTime, active := active);
    } else {
      alarm := Alarm(IntToString(now), name, alarmTime, active);
    }
  }

  /**
   * The `i`-th choice of a select: the digits of `i`, at least two of them,
   * zero-padded to exactly two below 100 and without a leading zero above.
   */
  ghost predicate IsOption(s: string, i: int) {
    && 2 <= |s| && IsDigits(s) && ValueOf(s) == i
    && (i < 100 ==> |s| == 2)
    && (100 <= i ==> s[0] != '0')
  }

  /** `String(i).padStart(2, "0")` is the `i`-th choice. */
  lemma OptionText(i: nat)
    ensures IsOption(PadStart2(NatToString(i)), i)
  {
  }

  /** `generateTimeOptions(max)`: the values `"00"`, `"01"`, … of the first `max` numbers. */
  method GenerateTimeOptions(max: int) returns (options: seq<string>)
    ensures |options| == if max < 0 then 0 else max
    ensures forall i :: 0 <= i < |options| ==> IsOption(options[i], i)
    ensures forall i, j :: 0 <= i < j < |options| ==> options[i] != options[j]
  {
    options := [];
    var i := 0;
    while i < max
      invariant 0 <= i && (max < 0 ==> i == 0) && (0 <= max ==> i <= max)
      invariant |options| == i
      invariant forall j :: 0 <= j < i ==> IsOption(options[j], j)
    {
      var value := PadStart2(NatToString(i));
      OptionText(i);
      options := options + [value];
      i := i + 1;
    }
  }
}
