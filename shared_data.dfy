/**
 * `SharedDataManager`: the app-group user defaults through which the app hands the service
 * end date, the garrison and the premium flag to the countdown widget. The defaults are a
 * key/value map; what JSON encoding does to `ServiceData` is not modelled, an encoded value
 * is kept as the value itself.
 */
module SharedData {
  import opened Clock
  import opened Wrappers

  datatype ServiceData = ServiceData(serviceEndDate: Option<Instant>, garrison: Option<string>)

  /** What user defaults can hold under one key. */
  datatype StoredValue =
    | EncodedServiceData(data: ServiceData)
    | Flag(flag: bool)
    | DateValue(date: Instant)
    | Text(text: string)

  type Defaults = map<string, StoredValue>

  const ServiceDataKey: string := "serviceData"
  const IsPremiumKey: string := "isPremium"

  /** `loadServiceData()` on a given state of the defaults: nil unless service data was stored. */
  function ServiceDataIn(defaults: Defaults): (r: Option<ServiceData>)
    ensures r.Some? <==> ServiceDataKey in defaults && defaults[ServiceDataKey].EncodedServiceData?
  {
    if ServiceDataKey in defaults && defaults[ServiceDataKey].EncodedServiceData?
    then Some(defaults[ServiceDataKey].data)
    else None
  }

  /** `isPremium()`: `bool(forKey:)` answers false for a missing key. */
  function PremiumIn(defaults: Defaults): (r: bool)
    ensures IsPremiumKey !in defaults ==> !r
  {
    IsPremiumKey in defaults && defaults[IsPremiumKey].Flag? && defaults[IsPremiumKey].flag
  }

  /**
   * `daysRemaining(until:)`: whole days between the start of today and the start of the end
   * day. Not clamped: 0 on the end day, negative after it.
   */
  function DaysRemaining(now: Instant, endDate: Instant): (r: int)
    ensures r == DayNumber(endDate) - DayNumber(now)
  {
    WholeDaysBetween(StartOfDay(now), StartOfDay(endDate))
  }

  /** The time of day of either instant does not matter, only the calendar days. */
  lemma DaysRemainingIgnoresTimeOfDay(now: Instant, endDate: Instant, a: int, b: int)
    requires 0 <= a < DaySeconds && 0 <= b < DaySeconds
    ensures DaysRemaining(StartOfDay(now) + a, StartOfDay(endDate) + b) == DaysRemaining(now, endDate)
  {
    DayNumberShift(a, DayNumber(now));
    DayNumberShift(b, DayNumber(endDate));
  }

  /** Each new day lowers the count by exactly one, past zero into the negatives. */
  lemma DaysRemainingNextDay(now: Instant, endDate: Instant)
    ensures DaysRemaining(NextDay(now), endDate) == DaysRemaining(now, endDate) - 1
  {
    DayNumberShift(now, 1);
  }

  /** Zero exactly on the end day, negative exactly after it. */
  lemma DaysRemainingSign(now: Instant, endDate: Instant)
    ensures DaysRemaining(now, endDate) == 0 <==> StartOfDay(now) == StartOfDay(endDate)
    ensures DaysRemaining(now, endDate) < 0 <==> StartOfDay(endDate) < StartOfDay(now)
  {
  }

  /** The shared store itself. */
  class SharedDataManager {
    var defaults: Defaults

    /** A fresh app group holds nothing. */
    constructor ()
      ensures defaults == map[]
      ensures LoadServiceData() == None && !IsPremium()
    {
      defaults := map[];
    }

    function LoadServiceData(): (r: Option<ServiceData>)
      reads this
      ensures r.Some? <==> ServiceDataKey in defaults && defaults[ServiceDataKey].EncodedServiceData?
      ensures r.Some? ==> r.value == defaults[ServiceDataKey].data
    {
      ServiceDataIn(defaults)
    }

    function IsPremium(): (r: bool)
      reads this
      ensures IsPremiumKey !in defaults ==> !r
      ensures IsPremiumKey in defaults && defaults[IsPremiumKey].Flag? ==> r == defaults[IsPremiumKey].flag
    {
      PremiumIn(defaults)
    }

    method SaveServiceData(endDate: Option<Instant>, garrison: Option<string>)
      modifies this
      ensures defaults == old(defaults)[ServiceDataKey := EncodedServiceData(ServiceData(endDate, garrison))]
      ensures LoadServiceData() == Some(ServiceData(endDate, garrison))
      ensures IsPremium() == old(IsPremium())
    {
      defaults := defaults[ServiceDataKey := EncodedServiceData(ServiceData(endDate, garrison))];
    }

    method SetIsPremium(isPremium: bool)
      modifies this
      ensures defaults == old(defaults)[IsPremiumKey := Flag(isPremium)]
      ensures IsPremium() == isPremium
      ensures LoadServiceData() == old(LoadServiceData())
    {
      defaults := defaults[IsPremiumKey := Flag(isPremium)];
    }
  }
}
