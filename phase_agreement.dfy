/** How the two home-screen components' ideas of the phase of service relate. */
module PhaseAgreement {
  import opened Clock
  import opened Wrappers
  import opened Profile
  import opened CountdownCardModel
  import opened QuickActions

  /** With both dates set, the card's phase and the quick actions' flags agree. */
  lemma AgreeWithBothDates(start: Instant, end: Instant, garrison: Option<string>, now: Instant)
    ensures var p := Some(UserProfile(Some(start), Some(end), garrison));
            && (Phase(p, now) == BeforeService <==> IsPreService(p, now))
            && (Phase(p, now) == CountdownCardModel.DuringService <==> IsDuringService(p, now))
            && (Phase(p, now) == ServiceDone <==> ShowsWrappedCard(p, now))
  {
  }

  /**
   * Without a start date they part ways: with an end date ahead, the card counts down to the
   * end while the quick actions still offer the pre-service cards.
   */
  lemma DisagreeWithoutStart(end: Instant, now: Instant)
    requires now < end
    ensures var p := Some(UserProfile(None, Some(end), None));
            Phase(p, now) == CountdownCardModel.DuringService && IsPreService(p, now)
  {
  }
}
