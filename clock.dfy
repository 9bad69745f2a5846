/**
 * The time model shared by every screen: an instant is a whole number of seconds since
 * 1970-01-01 00:00:00 in one fixed zone, with no daylight-saving shifts, so every calendar
 * day is exactly 86400 seconds long.
 */
module Clock {

  type Instant = int

  const DaySeconds: int := 86400
  const WeekSeconds: int := 604800

  /** The calendar day an instant falls on (day 0 is 1970-01-01). */
  function DayNumber(t: Instant): int {
    t / DaySeconds
  }

  /** `Calendar.startOfDay(for:)`: midnight of the day `t` falls on. */
  function StartOfDay(t: Instant): (r: Instant)
    ensures r <= t < r + DaySeconds
    ensures r % DaySeconds == 0
    ensures r == DayNumber(t) * DaySeconds
  {
    t - t % DaySeconds
  }

  /** Division that truncates toward zero, the way `DateComponents` counts whole units. */
  function TruncDiv(a: int, b: int): (q: int)
    requires b > 0
    ensures a >= 0 ==> q >= 0 && q * b <= a < (q + 1) * b
    ensures a < 0 ==> q <= 0 && (q - 1) * b < a <= q * b
  {
    if a >= 0 then
      DivBounds(a, b);
      a / b
    else
      var m := (-a) / b;
      DivBounds(-a, b);
      assert (-m - 1) * b == -(m * b) - b && -m * b == -(m * b);
      -m
  }

  /** The Euclidean quotient of a non-negative number brackets it between multiples of `b`. */
  lemma DivBounds(a: int, b: int)
    requires a >= 0 && b > 0
    ensures a / b >= 0 && (a / b) * b <= a < (a / b + 1) * b
  {
    var q := a / b;
    assert a == q * b + a % b;
    assert (q + 1) * b == q * b + b;
  }

  /**
   * `Calendar.dateComponents([.day], from:, to:).day`: the number of whole days elapsed
   * from `from` to `to`, negative when `to` is earlier, truncated toward zero.
   */
  function WholeDaysBetween(from: Instant, to: Instant): (r: int)
    ensures from <= to ==> r >= 0 && r * DaySeconds <= to - from < (r + 1) * DaySeconds
    ensures to < from ==> r <= 0 && (r - 1) * DaySeconds < to - from <= r * DaySeconds
  {
    TruncDiv(to - from, DaySeconds)
  }

  /** The same with `.weekOfYear`: whole weeks elapsed, truncated toward zero. */
  function WholeWeeksBetween(from: Instant, to: Instant): (r: int)
    ensures from <= to ==> r >= 0 && r * WeekSeconds <= to - from < (r + 1) * WeekSeconds
    ensures to < from ==> r <= 0 && (r - 1) * WeekSeconds < to - from <= r * WeekSeconds
  {
    TruncDiv(to - from, WeekSeconds)
  }

  /** `calendar.date(byAdding: .day, value: 1, to: t)`. */
  function NextDay(t: Instant): (r: Instant)
    ensures DayNumber(r) == DayNumber(t) + 1
    ensures r - StartOfDay(r) == t - StartOfDay(t)
  {
    t + DaySeconds
  }

  /**
   * `calendar.component(.weekday, from: t)`: 1 is Sunday, 6 is Friday, 7 is Saturday.
   * Day 0, 1970-01-01, was a Thursday (5).
   */
  function Weekday(t: Instant): (w: int)
    ensures 1 <= w <= 7
  {
    (DayNumber(t) + 4) % 7 + 1
  }

  const Friday: int := 6

  lemma DayNumberShift(t: Instant, k: int)
    ensures DayNumber(t + k * DaySeconds) == DayNumber(t) + k
  {
  }

  /** Moving one day forward moves the weekday one step around the week. */
  lemma WeekdayOfNextDay(t: Instant)
    ensures Weekday(NextDay(t)) == Weekday(t) % 7 + 1
  {
    DayNumberShift(t, 1);
  }

  /** Starting at weekday `w`, the first Friday is this many days ahead. */
  function DaysUntilFriday(w: int): (n: int)
    requires 1 <= w <= 7
    ensures 0 <= n < 7
    ensures (w - 1 + n) % 7 + 1 == Friday
  {
    (Friday - w + 7) % 7
  }
}
