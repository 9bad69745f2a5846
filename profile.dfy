/** The user's service period as the onboarding and settings screens store it. */
module Profile {
  import opened Clock
  import opened Wrappers

  datatype UserProfile = UserProfile(
    serviceStartDate: Option<Instant>,
    serviceEndDate: Option<Instant>,
    garrison: Option<string>)

  /** `profiles.first?.serviceStartDate`, as the screens that read the profile query it. */
  function ServiceStartDate(profiles: seq<UserProfile>): (r: Option<Instant>)
    ensures profiles == [] ==> r == None
  {
    if profiles == [] then None else profiles[0].serviceStartDate
  }
}
