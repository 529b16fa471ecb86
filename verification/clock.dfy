/**
 * Time as the dashboard sees it.  A timestamp is whole seconds since the Unix
 * epoch.  `Date.prototype.toISOString` names the UTC calendar day; `getHours` and
 * `getMinutes` read the viewer's local clock, modelled here as the UTC clock
 * shifted by a fixed offset in seconds.  Every integer is a valid timestamp
 * here; in JavaScript a `Date` more than 8.64e15 ms from the epoch is invalid,
 * its hours and minutes read as NaN and `toISOString` throws.  The dashboard's
 * timestamps (about 1.7e9 s) lie far inside that range.
 */
module Clock {

  const SecondsPerDay := 86400
  const SecondsPerHour := 3600

  /** The UTC calendar day of `dt`, as a day number: the `YYYY-MM-DD` part of `toISOString()`. */
  function DateKey(dt: int): (day: int)
    ensures day * 86400 <= dt < day * 86400 + 86400
  {
    dt / SecondsPerDay
  }

  /** `getHours()` of `dt` in a time zone `offset` seconds ahead of UTC. */
  function LocalHour(dt: int, offset: int): (h: int)
    ensures 0 <= h < 24
    ensures h * 3600 <= (dt + offset) % 86400 < h * 3600 + 3600
  {
    ((dt + offset) % SecondsPerDay) / SecondsPerHour
  }

  /** `getMinutes()` of `dt` in a time zone `offset` seconds ahead of UTC. */
  function LocalMinute(dt: int, offset: int): (m: int)
    ensures 0 <= m < 60
    ensures m * 60 <= (dt + offset) % 3600 < m * 60 + 60
  {
    ((dt + offset) % SecondsPerHour) / 60
  }

  /**
   * Local clock readings repeat every day.  This is a property of the
   * fixed-offset abstraction: across a daylight-saving change the real
   * `getHours` does not repeat after 86400 seconds.
   */
  lemma LocalClockIsDaily(dt: int, offset: int)
    ensures LocalHour(dt + SecondsPerDay, offset) == LocalHour(dt, offset)
    ensures LocalMinute(dt + SecondsPerDay, offset) == LocalMinute(dt, offset)
  {
    DayLaterRemainder(dt + offset, 86400);
    DayLaterRemainder(dt + offset, 3600);
  }

  /** A day later the remainder by a divisor of the day length is the same. */
  lemma DayLaterRemainder(x: int, d: int)
    requires d == 86400 || d == 3600
    ensures (x + 86400) % d == x % d
  {
    var q1, r1 := x / d, x % d;
    var q2, r2 := (x + 86400) / d, (x + 86400) % d;
    var days := 86400 / d;
    assert days * d == 86400;
    assert d * (q2 - q1 - days) == r1 - r2;
    assert q2 - q1 - days == 0;
  }
}
