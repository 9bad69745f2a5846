/**
 * `QuickActionsSection`: which shortcut cards the home screen offers, from the phase of
 * service. One grid holds the pre-service or the during-service cards; a second card,
 * "Armeija wrapped", shows once neither phase holds.
 */
module QuickActions {
  import opened Clock
  import opened Wrappers
  import opened Profile

  /** `isPreService`: no profile or no start date counts as before service. */
  function IsPreService(profile: Option<UserProfile>, now: Instant): (r: bool)
    ensures profile.None? || profile.value.serviceStartDate.None? ==> r
    ensures profile.Some? && profile.value.serviceStartDate.Some? ==> (r <==> profile.value.serviceStartDate.value > now)
  {
    if profile.None? || profile.value.serviceStartDate.None? then true
    else profile.value.serviceStartDate.value > now
  }

  /** `isDuringService`: both dates set and `start <= now < end`. */
  function IsDuringService(profile: Option<UserProfile>, now: Instant): (r: bool)
    ensures r <==> profile.Some? && profile.value.serviceStartDate.Some? && profile.value.serviceEndDate.Some?
                   && profile.value.serviceStartDate.value <= now < profile.value.serviceEndDate.value
  {
    if profile.None? || profile.value.serviceStartDate.None? || profile.value.serviceEndDate.None? then false
    else
      var start := profile.value.serviceStartDate.value;
      var end := profile.value.serviceEndDate.value;
      now >= start && now < end
  }

  lemma NotBothPhases(profile: Option<UserProfile>, now: Instant)
    ensures !(IsPreService(profile, now) && IsDuringService(profile, now))
  {
  }

  datatype CardGrid = PreServiceCards | DuringServiceCards | NoCards

  /** The first grid's `if isPreService … else if isDuringService …`. */
  function QuickActionCards(profile: Option<UserProfile>, now: Instant): (g: CardGrid)
    ensures g == PreServiceCards <==> IsPreService(profile, now)
    ensures g == DuringServiceCards <==> IsDuringService(profile, now)
    ensures g == NoCards <==> !IsPreService(profile, now) && !IsDuringService(profile, now)
  {
    NotBothPhases(profile, now);
    if IsPreService(profile, now) then PreServiceCards
    else if IsDuringService(profile, now) then DuringServiceCards
    else NoCards
  }

  /** The second grid's `if !isDuringService && !isPreService`. */
  function ShowsWrappedCard(profile: Option<UserProfile>, now: Instant): (shown: bool)
    ensures shown <==> QuickActionCards(profile, now) == NoCards
  {
    !IsDuringService(profile, now) && !IsPreService(profile, now)
  }

  /** Exactly one of the three card sets is on screen. */
  lemma ExactlyOneCardSet(profile: Option<UserProfile>, now: Instant)
    ensures ShowsWrappedCard(profile, now) <==> QuickActionCards(profile, now) == NoCards
    ensures QuickActionCards(profile, now) == PreServiceCards <==> IsPreService(profile, now)
    ensures QuickActionCards(profile, now) == DuringServiceCards <==> IsDuringService(profile, now)
  {
  }

  /** Once the start has passed with no end date set, only the wrapped card shows. */
  lemma StartedWithoutEndShowsWrapped(start: Instant, now: Instant)
    requires start <= now
    ensures ShowsWrappedCard(Some(UserProfile(Some(start), None, None)), now)
  {
  }
}
