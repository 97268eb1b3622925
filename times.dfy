/** Points in time as whole seconds in UTC, counted from Go's zero time
    (January 1, year 1, 00:00:00 UTC). The value 0 is the zero time, which
    `time.Time.IsZero` tests for and which lies before every real time. */
module Times {

  /** `time.Hour * 24` in seconds. */
  const Day: int := 86400

  /** Filter.toDate: midnight (UTC) of the day a point in time falls on. */
  function ToDate(t: int): (d: int)
    ensures d % Day == 0
    ensures d <= t < d + Day
  {
    t - t % Day
  }

  /** A midnight is its own date. */
  lemma ToDateOfMidnight(t: int)
    requires t % Day == 0
    ensures ToDate(t) == t
  {
  }

  /** Truncating to the date twice is truncating once. */
  lemma ToDateIdempotent(t: int)
    ensures ToDate(ToDate(t)) == ToDate(t)
  {
  }

  /** Truncation keeps the order of points in time. */
  lemma ToDateMonotonic(s: int, t: int)
    requires s <= t
    ensures ToDate(s) <= ToDate(t)
  {
    assert ToDate(s) - ToDate(t) == (s - t) - (s % Day - t % Day);
  }
}
