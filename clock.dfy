/**
 * Wall-clock arithmetic on integer milliseconds, following the time-value
 * rules of ECMAScript's `Date` (section 21.4.1 of ECMA-262: a fixed
 * 86 400 000 ms day, `MakeTime`, `MakeDate` and the hour, minute, second
 * and millisecond accessors), with the local time-zone offset taken as zero
 * and no daylight-saving shifts.
 */
module Clock {

  const Second: int := 1000
  const Minute: int := 60000
  const Hour: int := 3600000
  const Day: int := 86400000

  function DayOf(t: int): int { t / Day }
  function HoursOf(t: int): int { (t / Hour) % 24 }
  function MinutesOf(t: int): int { (t / Minute) % 60 }
  function SecondsOf(t: int): int { (t / Second) % 60 }
  function MillisOf(t: int): int { t % Second }

  /** ECMAScript `MakeTime` for in-range components. */
  function MakeTime(h: int, m: int, s: int, ms: int): int {
    h * Hour + m * Minute + s * Second + ms
  }

  ghost predicate InRange(h: int, m: int, s: int, ms: int) {
    0 <= h < 24 && 0 <= m < 60 && 0 <= s < 60 && 0 <= ms < Second
  }

  /** Euclidean division is determined by a quotient and an in-range remainder. */
  lemma DivMod(x: int, d: int, q: int, r: int)
    requires 0 < d && 0 <= r < d && x == q * d + r
    ensures x / d == q && x % d == r
  {
    var q', r' := x / d, x % d;
    assert x == q' * d + r';
    if q' != q {
      var k := if q' > q then q' - q else q - q';
      assert k * d == q' * d - q * d || k * d == q * d - q' * d;
      StepAtLeast(k, d);
    }
  }

  lemma StepAtLeast(k: int, d: int)
    requires 1 <= k && 0 < d
    ensures k * d >= d
  {
    assert k * d == (k - 1) * d + d;
  }

  /** The accessors read back the components an instant was built from. */
  lemma Decompose(dn: int, h: int, m: int, s: int, ms: int)
    requires InRange(h, m, s, ms)
    ensures var t := dn * Day + MakeTime(h, m, s, ms);
      DayOf(t) == dn && HoursOf(t) == h && MinutesOf(t) == m
      && SecondsOf(t) == s && MillisOf(t) == ms
  {
    var t := dn * Day + MakeTime(h, m, s, ms);
    DivMod(t, Second, dn * 86400 + h * 3600 + m * 60 + s, ms);
    DivMod(dn * 86400 + h * 3600 + m * 60 + s, 60, dn * 1440 + h * 60 + m, s);
    DivMod(t, Minute, dn * 1440 + h * 60 + m, s * Second + ms);
    DivMod(dn * 1440 + h * 60 + m, 60, dn * 24 + h, m);
    DivMod(t, Hour, dn * 24 + h, m * Minute + s * Second + ms);
    DivMod(dn * 24 + h, 24, dn, h);
    DivMod(t, Day, dn, MakeTime(h, m, s, ms));
  }

  /** Every instant is its day plus the time built from its own components. */
  lemma Recompose(t: int)
    ensures InRange(HoursOf(t), MinutesOf(t), SecondsOf(t), MillisOf(t))
    ensures t == DayOf(t) * Day + MakeTime(HoursOf(t), MinutesOf(t), SecondsOf(t), MillisOf(t))
  {
    var dn, x := t / Day, t % Day;
    var h, xh := x / Hour, x % Hour;
    var m, xm := xh / Minute, xh % Minute;
    var s, ms := xm / Second, xm % Second;
    assert 0 <= h < 24;
    assert t == dn * Day + MakeTime(h, m, s, ms);
    Decompose(dn, h, m, s, ms);
  }

  /** `Date.prototype.setHours(h)`: same day, minutes, seconds and milliseconds. */
  function SetHours(t: int, h: int): (r: int)
    requires 0 <= h < 24
    ensures DayOf(r) == DayOf(t) && HoursOf(r) == h && MinutesOf(r) == MinutesOf(t)
    ensures SecondsOf(r) == SecondsOf(t) && MillisOf(r) == MillisOf(t)
  {
    Recompose(t);
    Decompose(DayOf(t), h, MinutesOf(t), SecondsOf(t), MillisOf(t));
    DayOf(t) * Day + MakeTime(h, MinutesOf(t), SecondsOf(t), MillisOf(t))
  }

  /** `Date.prototype.setMinutes(m)`: same day, hours, seconds and milliseconds. */
  function SetMinutes(t: int, m: int): (r: int)
    requires 0 <= m < 60
    ensures DayOf(r) == DayOf(t) && HoursOf(r) == HoursOf(t) && MinutesOf(r) == m
    ensures SecondsOf(r) == SecondsOf(t) && MillisOf(r) == MillisOf(t)
  {
    Recompose(t);
    Decompose(DayOf(t), HoursOf(t), m, SecondsOf(t), MillisOf(t));
    DayOf(t) * Day + MakeTime(HoursOf(t), m, SecondsOf(t), MillisOf(t))
  }

  /** `Date.prototype.setSeconds(s)`: same day, hours, minutes and milliseconds. */
  function SetSeconds(t: int, s: int): (r: int)
    requires 0 <= s < 60
    ensures DayOf(r) == DayOf(t) && HoursOf(r) == HoursOf(t) && MinutesOf(r) == MinutesOf(t)
    ensures SecondsOf(r) == s && MillisOf(r) == MillisOf(t)
  {
    Recompose(t);
    Decompose(DayOf(t), HoursOf(t), MinutesOf(t), s, MillisOf(t));
    DayOf(t) * Day + MakeTime(HoursOf(t), MinutesOf(t), s, MillisOf(t))
  }

  /** `Date.prototype.setMilliseconds(ms)`: same day, hours, minutes and seconds. */
  function SetMilliseconds(t: int, ms: int): (r: int)
    requires 0 <= ms < Second
    ensures DayOf(r) == DayOf(t) && HoursOf(r) == HoursOf(t) && MinutesOf(r) == MinutesOf(t)
    ensures SecondsOf(r) == SecondsOf(t) && MillisOf(r) == ms
  {
    Recompose(t);
    Decompose(DayOf(t), HoursOf(t), MinutesOf(t), SecondsOf(t), ms);
    DayOf(t) * Day + MakeTime(HoursOf(t), MinutesOf(t), SecondsOf(t), ms)
  }

  /** `setDate(getDate() + 1)`: the following day at the same time of day. */
  function NextDay(t: int): (r: int)
    ensures DayOf(r) == DayOf(t) + 1 && HoursOf(r) == HoursOf(t) && MinutesOf(r) == MinutesOf(t)
    ensures SecondsOf(r) == SecondsOf(t) && MillisOf(r) == MillisOf(t)
  {
    Recompose(t);
    Decompose(DayOf(t) + 1, HoursOf(t), MinutesOf(t), SecondsOf(t), MillisOf(t));
    t + Day
  }

  /**
   * Two instants with the same hour, minute, second and millisecond that lie
   * less than a day apart are the same instant.
   */
  lemma SameTimeOfDayWithinDay(t: int, u: int)
    requires HoursOf(t) == HoursOf(u) && MinutesOf(t) == MinutesOf(u)
    requires SecondsOf(t) == SecondsOf(u) && MillisOf(t) == MillisOf(u)
    requires t <= u < t + Day
    ensures t == u
  {
    Recompose(t);
    Recompose(u);
    assert u - t == (DayOf(u) - DayOf(t)) * Day;
  }
}
