/**
 * The chart window: `getStartTime` turns a duration code and the time the
 * page was (re)loaded into a start instant, and the module-level `now` is
 * the end instant.  Times are integer milliseconds since the epoch.
 */
module Window {
  import opened Decimal

  const MinuteMs: int := 60_000
  const HourMs: int := 3_600_000

  /** Only the first character is read as the magnitude, and it must be a digit. */
  predicate HasDigitMagnitude(duration: string) {
    |duration| >= 1 && IsDigit(duration[0])
  }

  /** Hours per unit, from the second character: 'h' an hour, 'd' a day, anything else a week. */
  function UnitHours(duration: string): nat {
    if |duration| >= 2 && duration[1] == 'h' then 1
    else if |duration| >= 2 && duration[1] == 'd' then 24
    else 24 * 7
  }

  /** Length of the window in milliseconds. */
  function Offset(duration: string): (ms: nat)
    requires HasDigitMagnitude(duration)
    ensures |duration| >= 2 && duration[1] == 'h' ==> ms == DigitValue(duration[0]) * 3_600_000
    ensures |duration| >= 2 && duration[1] == 'd' ==> ms == DigitValue(duration[0]) * 86_400_000
    ensures !(|duration| >= 2 && duration[1] in "hd") ==> ms == DigitValue(duration[0]) * 604_800_000
    ensures ms % MinuteMs == 0
    ensures (ms == 0) == (duration[0] == '0')
  {
    DigitValue(duration[0]) * UnitHours(duration) * 60 * 60 * 1000
  }

  /** Zeroing the seconds and milliseconds of an instant. */
  function TruncateToMinute(t: int): (r: int)
    ensures r % MinuteMs == 0
    ensures r <= t < r + MinuteMs
  {
    t - t % MinuteMs
  }

  /** `getStartTime(duration, fromTime)`: the window length back from `fromTime`, to the whole minute. */
  function StartTime(duration: string, fromTime: int): (r: int)
    requires HasDigitMagnitude(duration)
    ensures r % MinuteMs == 0
    ensures r <= fromTime - Offset(duration) < r + MinuteMs
    ensures r == TruncateToMinute(fromTime) - Offset(duration)
    ensures duration[0] != '0' ==> r < fromTime
  {
    TruncateToMinute(fromTime - Offset(duration))
  }

  datatype Span = Span(startMs: int, endMs: int)

  /**
   * The range the page queries: the start follows `fromTime`, the end is
   * `now`, the load-time clock truncated once and never recomputed.
   */
  function QueryWindow(duration: string, fromTime: int, clockAtLoad: int): (w: Span)
    requires HasDigitMagnitude(duration)
    ensures w.startMs == TruncateToMinute(fromTime) - Offset(duration)
    ensures w.endMs == TruncateToMinute(clockAtLoad)
    ensures w.startMs % MinuteMs == 0 && w.endMs % MinuteMs == 0
  {
    Span(StartTime(duration, fromTime), TruncateToMinute(clockAtLoad))
  }

  /** Window lengths of the six offered duration codes, and of a two-digit code. */
  lemma DurationOptionOffsets()
    ensures Offset("1h") == 3_600_000 && Offset("2h") == 7_200_000 && Offset("4h") == 14_400_000
    ensures Offset("1d") == 86_400_000 && Offset("2d") == 172_800_000 && Offset("1w") == 604_800_000
    ensures Offset("12h") == Offset("1w")
  {
  }

  /** A four-hour window back from 2024-01-01T12:00:30.500Z starts at 08:00:00Z. */
  lemma FourHourWindowExample()
    ensures StartTime("4h", 1_704_110_430_500) == 1_704_096_000_000
  {
  }

  /**
   * As written: once the refresh button moves `fromTime` more than a window
   * length (plus a minute) past the load time, the start lies after the end.
   */
  lemma QueryWindowInvertedAfterRefresh(duration: string, fromTime: int, clockAtLoad: int)
    requires HasDigitMagnitude(duration)
    requires fromTime >= clockAtLoad + Offset(duration) + MinuteMs
    ensures QueryWindow(duration, fromTime, clockAtLoad).startMs > QueryWindow(duration, fromTime, clockAtLoad).endMs
  {
  }

  /** A "4h" window refreshed five hours after loading 2024-01-01T12:00:30.500Z. */
  lemma StaleEndExample()
    ensures QueryWindow("4h", 1_704_128_430_500, 1_704_110_430_500) == Span(1_704_114_000_000, 1_704_110_400_000)
  {
  }

  /** Corrected: the end is recomputed from the same instant as the start. */
  function RefreshedWindow(duration: string, fromTime: int): (w: Span)
    requires HasDigitMagnitude(duration)
    ensures w.endMs == TruncateToMinute(fromTime)
    ensures w.endMs - w.startMs == Offset(duration)
    ensures w.startMs % MinuteMs == 0 && w.endMs % MinuteMs == 0
    ensures duration[0] != '0' ==> w.startMs < w.endMs
  {
    Span(StartTime(duration, fromTime), TruncateToMinute(fromTime))
  }
}
