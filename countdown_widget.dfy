/**
 * The premium countdown widget (`ServiceCountdownWidget`): the timeline entry built from
 * the shared service data, the midnight refresh, and which view the entry view shows.
 */
module CountdownWidget {
  import opened Clock
  import opened Wrappers
  import opened SharedData

  datatype Entry = Entry(
    date: Instant,
    daysRemaining: Option<int>,
    serviceEndDate: Option<Instant>,
    garrison: Option<string>)

  /** `Provider.makeEntry()` with the loaded service data passed in. */
  function MakeEntry(data: Option<ServiceData>, now: Instant): (e: Entry)
    ensures e.date == now
    ensures e.daysRemaining.None? <==> data.None? || data.value.serviceEndDate.None?
    ensures e.daysRemaining.Some? ==> e.daysRemaining == Some(DaysRemaining(now, data.value.serviceEndDate.value))
    ensures e.serviceEndDate == (if data.Some? then data.value.serviceEndDate else None)
    ensures e.garrison == (if data.Some? then data.value.garrison else None)
  {
    var endDate := if data.Some? then data.value.serviceEndDate else None;
    Entry(
      now,
      if endDate.Some? then Some(DaysRemaining(now, endDate.value)) else None,
      endDate,
      if data.Some? then data.value.garrison else None)
  }

  /** `getTimeline`'s refresh: the start of the next calendar day. */
  function NextRefresh(now: Instant): (r: Instant)
    ensures now < r <= now + DaySeconds
    ensures r % DaySeconds == 0
    ensures DayNumber(r) == DayNumber(now) + 1
  {
    StartOfDay(NextDay(now))
  }

  datatype Family = SystemSmall | SystemMedium

  datatype WidgetView =
    | Locked
    | SmallCountdown(days: int, caption: string)
    | MediumCountdown(days: int, unit: string, garrison: Option<string>)
    | NoDate

  /** The caption under the small widget's number. */
  function SmallLabel(days: int): (s: string)
    ensures s == "päivä jäljellä" <==> days == 1
    ensures s == "päivää jäljellä" <==> days != 1
  {
    DayUnit(days) + " jäljellä"
  }

  /** The unit word both widget sizes use, singular only for exactly one day. */
  function DayUnit(days: int): (s: string)
    ensures s == "päivä" <==> days == 1
    ensures s == "päivää" <==> days != 1
  {
    if days == 1 then "päivä" else "päivää"
  }

  /** `ServiceCountdownWidgetEntryView.body`: the premium check comes before anything the entry holds. */
  function EntryView(isPremium: bool, entry: Entry, family: Family): (v: WidgetView)
    ensures !isPremium ==> v == Locked
    ensures isPremium && entry.daysRemaining.None? ==> v == NoDate
    ensures isPremium && entry.daysRemaining.Some? && family == SystemSmall ==>
              v == SmallCountdown(entry.daysRemaining.value, SmallLabel(entry.daysRemaining.value))
    ensures isPremium && entry.daysRemaining.Some? && family == SystemMedium ==>
              v == MediumCountdown(entry.daysRemaining.value, DayUnit(entry.daysRemaining.value), entry.garrison)
  {
    if !isPremium then Locked
    else if entry.daysRemaining.Some? then
      var days := entry.daysRemaining.value;
      if family == SystemSmall then SmallCountdown(days, SmallLabel(days))
      else MediumCountdown(days, DayUnit(days), entry.garrison)
    else NoDate
  }

  /**
   * From the app's save to the widget's face: after the app stores an end date and a premium
   * flag, the small widget shows the unclamped day count until that date.
   */
  lemma SavedEndDateReachesWidget(defaults: Defaults, endDate: Instant, garrison: Option<string>, now: Instant)
    ensures var d := defaults[ServiceDataKey := EncodedServiceData(ServiceData(Some(endDate), garrison))]
                             [IsPremiumKey := Flag(true)];
            var days := DayNumber(endDate) - DayNumber(now);
            EntryView(PremiumIn(d), MakeEntry(ServiceDataIn(d), now), SystemSmall)
              == SmallCountdown(days, SmallLabel(days))
  {
    var d := defaults[ServiceDataKey := EncodedServiceData(ServiceData(Some(endDate), garrison))]
                     [IsPremiumKey := Flag(true)];
    assert ServiceDataKey != IsPremiumKey;
    assert ServiceDataIn(d) == Some(ServiceData(Some(endDate), garrison));
  }
}
