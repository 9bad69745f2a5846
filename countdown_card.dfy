/**
 * `CountdownCard`: the home screen's big number. Before service it counts the days until the
 * start, during service the days until the end, and afterwards it shows that service is done.
 */
module CountdownCardModel {
  import opened Clock
  import opened Wrappers
  import opened Profile

  /** The card's three-way case split, plus the missing profile. */
  datatype CardPhase = NoProfile | BeforeService | DuringService | ServiceDone

  /** Reference classification: a future start wins over a future end. */
  function Phase(profile: Option<UserProfile>, now: Instant): (r: CardPhase)
    ensures r == NoProfile <==> profile.None?
    ensures r == BeforeService <==>
      profile.Some? && profile.value.serviceStartDate.Some? && profile.value.serviceStartDate.value > now
    ensures r == DuringService <==>
      profile.Some? && !(profile.value.serviceStartDate.Some? && profile.value.serviceStartDate.value > now)
      && profile.value.serviceEndDate.Some? && profile.value.serviceEndDate.value > now
  {
    if profile.None? then NoProfile
    else if profile.value.serviceStartDate.Some? && profile.value.serviceStartDate.value > now then BeforeService
    else if profile.value.serviceEndDate.Some? && profile.value.serviceEndDate.value > now then DuringService
    else ServiceDone
  }

  /** `daysRemaining`: whole days until the start, else until the end, else zero. */
  function DaysRemaining(profile: Option<UserProfile>, now: Instant): (r: int)
    ensures r >= 0
  {
    if profile.None? then 0
    else
      var p := profile.value;
      if p.serviceStartDate.Some? && p.serviceStartDate.value > now then WholeDaysBetween(now, p.serviceStartDate.value)
      else if p.serviceEndDate.Some? && p.serviceEndDate.value > now then WholeDaysBetween(now, p.serviceEndDate.value)
      else 0
  }

  /** `countdownText`. */
  function CountdownText(profile: Option<UserProfile>, now: Instant): (s: string)
    ensures s == "Aseta palveluspäivät" <==> Phase(profile, now) == NoProfile
    ensures s == "päivää palveluksen alkuun" <==> Phase(profile, now) == BeforeService
    ensures s == "päivää kotiinlähtöön" <==> Phase(profile, now) == DuringService
    ensures s == "Palvelus suoritettu" <==> Phase(profile, now) == ServiceDone
  {
    if profile.None? then "Aseta palveluspäivät"
    else
      var p := profile.value;
      if p.serviceStartDate.Some? && p.serviceStartDate.value > now then "päivää palveluksen alkuun"
      else if p.serviceEndDate.Some? && p.serviceEndDate.value > now then "päivää kotiinlähtöön"
      else "Palvelus suoritettu"
  }

  datatype Color = Gray | Blue | Green

  /** `phaseColor`. */
  function PhaseColor(profile: Option<UserProfile>, now: Instant): (c: Color)
    ensures c == Blue <==> Phase(profile, now) == BeforeService
    ensures c == Green <==> Phase(profile, now) == DuringService
    ensures c == Gray <==> Phase(profile, now) in {NoProfile, ServiceDone}
  {
    if profile.None? then Gray
    else
      var p := profile.value;
      if p.serviceStartDate.Some? && p.serviceStartDate.value > now then Blue
      else if p.serviceEndDate.Some? && p.serviceEndDate.value > now then Green
      else Gray
  }

  /** The number, the text and the colour all follow the same case split. */
  lemma CardFollowsPhase(profile: Option<UserProfile>, now: Instant)
    ensures Phase(profile, now) == NoProfile ==>
      DaysRemaining(profile, now) == 0 && CountdownText(profile, now) == "Aseta palveluspäivät"
      && PhaseColor(profile, now) == Gray
    ensures Phase(profile, now) == BeforeService ==>
      DaysRemaining(profile, now) == WholeDaysBetween(now, profile.value.serviceStartDate.value)
      && CountdownText(profile, now) == "päivää palveluksen alkuun" && PhaseColor(profile, now) == Blue
    ensures Phase(profile, now) == DuringService ==>
      DaysRemaining(profile, now) == WholeDaysBetween(now, profile.value.serviceEndDate.value)
      && CountdownText(profile, now) == "päivää kotiinlähtöön" && PhaseColor(profile, now) == Green
    ensures Phase(profile, now) == ServiceDone ==>
      DaysRemaining(profile, now) == 0 && CountdownText(profile, now) == "Palvelus suoritettu"
      && PhaseColor(profile, now) == Gray
  {
  }

  /** The progress bar shows only with both dates and `start < now < end`. */
  predicate ShowsProgress(profile: Option<UserProfile>, now: Instant) {
    && profile.Some?
    && profile.value.serviceStartDate.Some?
    && profile.value.serviceEndDate.Some?
    && profile.value.serviceStartDate.value < now
    && profile.value.serviceEndDate.value > now
  }

  /** `calculateProgress`: elapsed over total, clamped into [0, 1]. */
  function CalculateProgress(start: Instant, end: Instant, now: Instant): (r: real)
    requires start < end
    ensures 0.0 <= r <= 1.0
    ensures now <= start ==> r == 0.0
    ensures end <= now ==> r == 1.0
    ensures start < now < end ==> 0.0 < r < 1.0 && r * (end - start) as real == (now - start) as real
  {
    var total := (end - start) as real;
    var elapsed := (now - start) as real;
    var ratio := elapsed / total;
    if ratio < 0.0 then 0.0 else if ratio > 1.0 then 1.0 else ratio
  }

  /** Where the card calls it, the divisor is positive and no clamping happens. */
  lemma ProgressWhereShown(profile: Option<UserProfile>, now: Instant)
    requires ShowsProgress(profile, now)
    ensures profile.value.serviceStartDate.value < profile.value.serviceEndDate.value
    ensures var r := CalculateProgress(profile.value.serviceStartDate.value, profile.value.serviceEndDate.value, now);
            0.0 < r < 1.0
  {
  }

  /** Progress only grows as time passes. */
  lemma ProgressMonotone(start: Instant, end: Instant, a: Instant, b: Instant)
    requires start < end && a <= b
    ensures CalculateProgress(start, end, a) <= CalculateProgress(start, end, b)
  {
    var total := (end - start) as real;
    assert (a - start) as real / total <= (b - start) as real / total by {
      assert (a - start) as real <= (b - start) as real;
    }
  }
}
