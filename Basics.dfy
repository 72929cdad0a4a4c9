/**
 Values shared by the whole model: an Option type, calendar days, times of day and timestamps.

 Dates are day numbers in the proleptic Gregorian calendar, numbered as Python's
 `date.toordinal()` numbers them: day 1 is 0001-01-01, which was a Monday. Times of day
 are seconds after midnight. A timestamp is the number of seconds since the start of
 day 0 in the one configured time zone, so combining a date with a time of day is
 `day * 86400 + seconds`.
 */
module Basics {

  datatype Option<T> = None | Some(value: T)

  datatype Result<T, E> = Ok(value: T) | Err(error: E)

  type Day = int

  /** Seconds after midnight, as a `TimeField` holds them (microseconds are not modelled). */
  type TimeOfDay = t: int | 0 <= t < 86400

  type Timestamp = int

  const SecondsPerDay := 86400
  const SecondsPerHour := 3600

  /** `date.weekday()`: Monday is 0 and Sunday is 6. */
  function Weekday(d: Day): (w: int)
    ensures 0 <= w < 7
  {
    (d + 6) % 7
  }

  /** `time.hour` */
  function Hour(t: TimeOfDay): (h: int)
    ensures 0 <= h < 24
    ensures h * SecondsPerHour <= t < (h + 1) * SecondsPerHour
  {
    t / SecondsPerHour
  }

  /** `datetime.combine(date, time)` read as a timestamp in the configured zone. */
  function Combine(d: Day, t: TimeOfDay): (ts: Timestamp)
    ensures d * SecondsPerDay <= ts < (d + 1) * SecondsPerDay
  {
    d * SecondsPerDay + t
  }

}
