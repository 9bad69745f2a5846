/**
 * The first home-screen widget (`SimpleProvider`): it reads the service end date from user
 * defaults, as a date or else as an ISO 8601 string, and counts the days left.
 * Parsing the ISO string is the platform's `ISO8601DateFormatter`, passed in as `parseIso`.
 */
module SimpleWidget {
  import opened Clock
  import opened Wrappers
  import opened SharedData

  const EndDateKey: string := "serviceEndDate"
  const EndDateIsoKey: string := "serviceEndDateISO"
  const FallbackRefreshSeconds: int := 21600
  const RefreshSecondOfDay: int := 5

  /** `defaults.object(forKey:) as? Date`. */
  function DateAt(defaults: Defaults, key: string): (r: Option<Instant>)
    ensures r.Some? <==> key in defaults && defaults[key].DateValue?
    ensures r.Some? ==> r.value == defaults[key].date
  {
    if key in defaults && defaults[key].DateValue? then Some(defaults[key].date) else None
  }

  /** `defaults.string(forKey:)`. */
  function StringAt(defaults: Defaults, key: string): (r: Option<string>)
    ensures r.Some? <==> key in defaults && defaults[key].Text?
    ensures r.Some? ==> r.value == defaults[key].text
  {
    if key in defaults && defaults[key].Text? then Some(defaults[key].text) else None
  }

  /** The stored end date: a date under "serviceEndDate" wins, the ISO string is the fallback. */
  function StoredEndDate(defaults: Defaults, parseIso: string -> Option<Instant>): (r: Option<Instant>)
    ensures DateAt(defaults, EndDateKey).Some? ==> r == DateAt(defaults, EndDateKey)
    ensures DateAt(defaults, EndDateKey).None? && StringAt(defaults, EndDateIsoKey).None? ==> r == None
    ensures DateAt(defaults, EndDateKey).None? && StringAt(defaults, EndDateIsoKey).Some? ==>
              r == parseIso(StringAt(defaults, EndDateIsoKey).value)
  {
    var endDate := DateAt(defaults, EndDateKey);
    if endDate == None && StringAt(defaults, EndDateIsoKey).Some? then
      parseIso(StringAt(defaults, EndDateIsoKey).value)
    else endDate
  }

  /**
   * `loadEndDateAndDaysLeft()`: no end date gives (nil, nil); otherwise the end date and the
   * whole days from the start of today to the start of the end day, never below zero.
   */
  function LoadEndDateAndDaysLeft(defaults: Defaults, parseIso: string -> Option<Instant>, now: Instant)
    : (r: (Option<Instant>, Option<int>))
    ensures r.0 == StoredEndDate(defaults, parseIso)
    ensures r.1.Some? <==> r.0.Some?
    ensures r.0.Some? ==> r.1.value >= 0
    ensures r.0.Some? && DayNumber(now) <= DayNumber(r.0.value) ==>
              r.1.value == DayNumber(r.0.value) - DayNumber(now)
    ensures r.0.Some? && DayNumber(r.0.value) < DayNumber(now) ==> r.1.value == 0
  {
    var endDate := StoredEndDate(defaults, parseIso);
    if endDate.None? then (None, None)
    else
      var diff := WholeDaysBetween(StartOfDay(now), StartOfDay(endDate.value));
      (endDate, Some(if diff > 0 then diff else 0))
  }

  /** The count does not move while the calendar day stays the same. */
  lemma DaysLeftIgnoresTimeOfDay(defaults: Defaults, parseIso: string -> Option<Instant>, now: Instant, a: int)
    requires 0 <= a < DaySeconds
    ensures LoadEndDateAndDaysLeft(defaults, parseIso, StartOfDay(now) + a)
         == LoadEndDateAndDaysLeft(defaults, parseIso, now)
  {
    DayNumberShift(a, DayNumber(now));
  }

  /**
   * `nextDate(after:matching: 00:00:05, .nextTime)`: the first instant strictly after `now`
   * whose time of day is five seconds past midnight.
   */
  function NextFivePastMidnight(now: Instant): (r: Instant)
    ensures now < r <= now + DaySeconds
    ensures r % DaySeconds == RefreshSecondOfDay
    ensures forall t :: now < t < r ==> t % DaySeconds != RefreshSecondOfDay
  {
    var candidate := StartOfDay(now) + RefreshSecondOfDay;
    if now < candidate then candidate else candidate + DaySeconds
  }

  /** The refresh instant in `getTimeline`: next 00:00:05 with a count, six hours later without. */
  function RefreshDate(now: Instant, daysLeft: Option<int>): (r: Instant)
    ensures daysLeft.Some? ==> r == NextFivePastMidnight(now)
    ensures daysLeft.None? ==> r == now + FallbackRefreshSeconds
    ensures now < r <= now + DaySeconds
  {
    if daysLeft.Some? then NextFivePastMidnight(now) else now + 21600
  }
}
