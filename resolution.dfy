/** The time arithmetic both dashboards share: which resolution to request for
    a date range, the start of the current day, and flooring to the hour.
    Timestamps are whole seconds since the epoch; "now" is a parameter in
    milliseconds, as `Date.now()` returns it. */
module Resolution {

  const SecondsInHour: int := 3600
  const SecondsInDay: int := 86400

  /** `period`: hourly points for a range of at most three days, daily ones otherwise. */
  function Period(fromTs: int, toTs: int): (p: int)
    ensures p == SecondsInHour <==> toTs - fromTs <= 3 * SecondsInDay
    ensures p == SecondsInDay <==> toTs - fromTs > 3 * SecondsInDay
  {
    if toTs - fromTs <= SecondsInDay * 3 then SecondsInHour else SecondsInDay
  }

  /** `Math.floor(timestamp / 3600) * 3600`: the start of the hour that holds `ts`. */
  function HourStart(ts: int): (h: int)
    ensures h % SecondsInHour == 0
    ensures h <= ts < h + SecondsInHour
  {
    (ts / SecondsInHour) * SecondsInHour
  }

  /** The start of the hour is the only multiple of 3600 within an hour below `ts`. */
  lemma HourStartUnique(ts: int, k: int)
    requires k % SecondsInHour == 0 && k <= ts < k + SecondsInHour
    ensures k == HourStart(ts)
  {
  }

  /** Flooring to the hour keeps the order of timestamps. */
  lemma HourStartMonotone(a: int, b: int)
    requires a <= b
    ensures HourStart(a) <= HourStart(b)
  {
  }

  /** `today`: `Math.floor(Date.now() / 1000 / 86400) * 86400`, the start of the
      current UTC day, in seconds. */
  function Today(nowMs: int): (d: int)
    ensures d % SecondsInDay == 0
    ensures d * 1000 <= nowMs < (d + SecondsInDay) * 1000
  {
    (nowMs / (1000 * SecondsInDay)) * SecondsInDay
  }

  /** `today` is never later than the current second `Math.floor(Date.now() / 1000)`,
      and is the latest start of a day that is not. */
  lemma TodayIsLatestDayStart(nowMs: int, k: int)
    requires k % SecondsInDay == 0 && k <= nowMs / 1000
    ensures Today(nowMs) <= nowMs / 1000
    ensures k <= Today(nowMs)
  {
  }
}
