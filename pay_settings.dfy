/**
 * The conscript allowance calculator of `PaySettings`: a daily rate in three bands of days
 * served, a flat supplement ("varusraha") for women, the accumulated total, and the estimate
 * of the next payday and its amount. Money is in euro cents.
 */
module PaySettingsModel {
  import opened Clock

  type Cents = int

  const Tier1Rate: Cents := 610
  const Tier2Rate: Cents := 1015
  const Tier3Rate: Cents := 1415
  const Supplement: Cents := 150
  const Tier1LastDay: int := 165
  const Tier2LastDay: int := 255

  /** The persisted settings record. `dailyRate` is stored but never read. */
  datatype PaySettings = PaySettings(dailyRate: Cents, startDate: Instant, isWoman: bool)

  /** `PaySettings(isWoman:)` with the initializer's defaults. */
  function NewPaySettings(now: Instant, isWoman: bool): (s: PaySettings)
    ensures s.isWoman == isWoman && s.startDate == now && s.dailyRate == Tier1Rate
  {
    PaySettings(610, now, isWoman)
  }

  function SupplementFor(isWoman: bool): Cents {
    if isWoman then Supplement else 0
  }

  /**
   * `getDailyRate(for:)`: the band rate for the given day of service, plus the supplement.
   * A count of zero or below falls in the first band.
   */
  function DailyRate(isWoman: bool, daysServed: int): (r: Cents)
    ensures daysServed <= Tier1LastDay ==> r == Tier1Rate + SupplementFor(isWoman)
    ensures Tier1LastDay < daysServed <= Tier2LastDay ==> r == Tier2Rate + SupplementFor(isWoman)
    ensures Tier2LastDay < daysServed ==> r == Tier3Rate + SupplementFor(isWoman)
  {
    var baseRate :=
      if daysServed <= 165 then 610
      else if daysServed <= 255 then 1015
      else 1415;
    baseRate + SupplementFor(isWoman)
  }

  /** The rate never drops as service goes on. */
  lemma DailyRateMonotone(isWoman: bool, a: int, b: int)
    requires a <= b
    ensures DailyRate(isWoman, a) <= DailyRate(isWoman, b)
  {
  }

  /** The supplement is the same 1.50 on every day, whatever the band. */
  lemma SupplementIsFlat(daysServed: int)
    ensures DailyRate(true, daysServed) - DailyRate(false, daysServed) == Supplement
  {
  }

  /**
   * `totalEarned`, with the day count passed in: tier by tier, the first 165 days at the
   * first rate, the next 90 at the second and the rest at the third.
   */
  function TotalEarned(isWoman: bool, daysServed: int): (r: Cents)
    ensures daysServed <= 0 ==> r == 0
    ensures r >= 0
  {
    if daysServed <= 0 then 0
    else if daysServed <= 165 then daysServed * DailyRate(isWoman, 1)
    else if daysServed <= 255 then
      165 * DailyRate(isWoman, 165) + (daysServed - 165) * DailyRate(isWoman, 166)
    else
      165 * DailyRate(isWoman, 165) + 90 * DailyRate(isWoman, 166)
      + (daysServed - 255) * DailyRate(isWoman, 256)
  }

  /** Reference definition: the rates of days 1 .. n, paid day by day. */
  function Accrued(isWoman: bool, n: int): Cents
    decreases n
  {
    if n <= 0 then 0 else Accrued(isWoman, n - 1) + DailyRate(isWoman, n)
  }

  /** One more day of service adds exactly that day's rate, at the tier boundaries too. */
  lemma TotalEarnedAddsOneDay(isWoman: bool, d: int)
    requires d >= 0
    ensures TotalEarned(isWoman, d + 1) == TotalEarned(isWoman, d) + DailyRate(isWoman, d + 1)
  {
    var s := SupplementFor(isWoman);
    if d + 1 <= 165 {
      assert TotalEarned(isWoman, d + 1) == (d + 1) * (Tier1Rate + s);
      assert TotalEarned(isWoman, d) == d * (Tier1Rate + s);
    } else if d + 1 <= 255 {
      assert TotalEarned(isWoman, d + 1) == 165 * (Tier1Rate + s) + (d + 1 - 165) * (Tier2Rate + s);
    } else {
      assert TotalEarned(isWoman, d + 1)
        == 165 * (Tier1Rate + s) + 90 * (Tier2Rate + s) + (d + 1 - 255) * (Tier3Rate + s);
    }
  }

  /** The tiered closed form equals the day-by-day sum of daily rates. */
  lemma {:induction false} TotalEarnedIsAccrual(isWoman: bool, d: int)
    ensures TotalEarned(isWoman, d) == Accrued(isWoman, d)
    decreases d
  {
    if d > 0 {
      TotalEarnedIsAccrual(isWoman, d - 1);
      TotalEarnedAddsOneDay(isWoman, d - 1);
    }
  }

  /** The total never decreases as days go by. */
  lemma {:induction false} TotalEarnedMonotone(isWoman: bool, a: int, b: int)
    requires a <= b
    ensures TotalEarned(isWoman, a) <= TotalEarned(isWoman, b)
    decreases b - a
  {
    if a < b {
      TotalEarnedMonotone(isWoman, a, b - 1);
      if b - 1 >= 0 {
        TotalEarnedAddsOneDay(isWoman, b - 1);
      }
    }
  }

  /** The totals at the tier boundaries, without supplement: 1006.50, 1920.00 and 1934.15. */
  lemma TierBoundaryTotals()
    ensures TotalEarned(false, 165) == 100650
    ensures TotalEarned(false, 255) == 100650 + 91350
    ensures TotalEarned(false, 256) == 193415
    ensures TotalEarned(true, 165) == 125400
  {
  }

  function DaysAfter(t: Instant, k: int): Instant {
    t + k * DaySeconds
  }

  lemma DaysAfterCount(t: Instant, k: int)
    ensures (DaysAfter(t, k) - t) / DaySeconds == k
  {
  }

  /**
   * `nextPaymentDate`: from today, step one day at a time until the weekday is Friday.
   * The result is the first Friday on or after today, at today's time of day.
   */
  method NextPaymentDate(today: Instant) returns (nextFriday: Instant)
    ensures Weekday(nextFriday) == Friday
    ensures today <= nextFriday < DaysAfter(today, 7)
    ensures nextFriday == DaysAfter(today, (nextFriday - today) / DaySeconds)
    ensures forall k :: 0 <= k < (nextFriday - today) / DaySeconds ==> Weekday(DaysAfter(today, k)) != Friday
    ensures Weekday(today) == Friday ==> nextFriday == today
  {
    nextFriday := today;
    ghost var steps := 0;
    while Weekday(nextFriday) != Friday
      invariant nextFriday == DaysAfter(today, steps)
      invariant 0 <= steps <= DaysUntilFriday(Weekday(today))
      invariant Weekday(nextFriday) == (Weekday(today) - 1 + steps) % 7 + 1
      invariant forall k :: 0 <= k < steps ==> Weekday(DaysAfter(today, k)) != Friday
      decreases DaysUntilFriday(Weekday(today)) - steps
    {
      WeekdayOfNextDay(nextFriday);
      nextFriday := NextDay(nextFriday);
      steps := steps + 1;
    }
    DaysAfterCount(today, steps);
  }

  /**
   * `daysSinceLastPayment`: payments are taken to fall on the 15th and at the end of the
   * month, so the count is the day of month, less 15 in the second half.
   */
  function DaysSinceLastPayment(dayOfMonth: int): (r: int)
    requires 1 <= dayOfMonth <= 31
    ensures 1 <= r <= 16
    ensures dayOfMonth <= 15 ==> r == dayOfMonth
    ensures dayOfMonth > 15 ==> r + 15 == dayOfMonth
  {
    if dayOfMonth <= 15 then dayOfMonth else dayOfMonth - 15
  }

  /** `nextPaymentAmount(currentRate:)`: the days since the last payment at the current rate. */
  function NextPaymentAmount(dayOfMonth: int, currentRate: Cents): (r: Cents)
    requires 1 <= dayOfMonth <= 31
    ensures currentRate >= 0 ==> currentRate <= r <= 16 * currentRate
    ensures dayOfMonth <= 15 ==> r == dayOfMonth * currentRate
    ensures dayOfMonth > 15 ==> r == (dayOfMonth - 15) * currentRate
  {
    DaysSinceLastPayment(dayOfMonth) * currentRate
  }
}
