/**
 * The Night Light decision engine: whether "now" lies in the night window
 * given today's sunrise and sunset, when that verdict next changes, and the
 * decision that combines both with an optional manual override.
 *
 * Instants are whole seconds on one time line. The engine's callers
 * normalise every instant to the same zone before comparing, so comparing
 * the integers is comparing the instants.
 */
module FluxLogic {
  import opened Wrappers

  type Instant = int

  /** One calendar day, the `timedelta(days=1)` added to a passed event. */
  const OneDay: int := 86400

  /** The reason recorded when a manual override decides. */
  const ManualOverrideReason: string := "Manual override"

  /** The reason recorded when the sun times decide. */
  const SunTimesReason: string := "Based on sun times"

  /**
   * What the engine concludes for one evaluation. The strength is the
   * caller's target, passed through unclamped: clamping is the actuator's job.
   */
  datatype ScheduleDecision = ScheduleDecision(
    shouldEnable: bool,
    targetStrength: int,
    nextChange: Instant,
    reason: string)

  /**
   * Night classification. When sunrise is not after sunset the day is the
   * half-open window [sunrise, sunset) and everything else is night; when
   * sunset comes first (the pair crosses midnight) the night is the
   * half-open window [sunset, sunrise).
   */
  predicate IsNight(now: Instant, sunrise: Instant, sunset: Instant) {
    if sunrise <= sunset then now < sunrise || now >= sunset
    else sunset <= now < sunrise
  }

  /** The sun event that ends the current verdict: sunrise at night, sunset by day. */
  function EndingEvent(now: Instant, sunrise: Instant, sunset: Instant): Instant {
    if IsNight(now, sunrise, sunset) then sunrise else sunset
  }

  /**
   * The instant of the next change: the event that ends the current
   * verdict, moved one day forward when it is not after `now`.
   */
  function NextTransition(now: Instant, sunrise: Instant, sunset: Instant): (r: Instant)
    ensures IsNight(now, sunrise, sunset) ==> r == sunrise || r == sunrise + OneDay
    ensures !IsNight(now, sunrise, sunset) ==> r == sunset || r == sunset + OneDay
    ensures r == EndingEvent(now, sunrise, sunset) <==> now < EndingEvent(now, sunrise, sunset)
  {
    var event := EndingEvent(now, sunrise, sunset);
    if event <= now then event + OneDay else event
  }

  /**
   * One evaluation: a present override decides whether to enable, otherwise
   * the sun times do. The next change is always the natural one.
   */
  function Decide(now: Instant, sunrise: Instant, sunset: Instant, targetStrength: int,
                  manualOverride: Option<bool>): (d: ScheduleDecision)
    ensures manualOverride.Some? ==>
      d.shouldEnable == manualOverride.value && d.reason == ManualOverrideReason
    ensures manualOverride.None? ==>
      d.shouldEnable == IsNight(now, sunrise, sunset) && d.reason == SunTimesReason
    ensures d.nextChange == NextTransition(now, sunrise, sunset)
    ensures d.targetStrength == targetStrength
  {
    var (shouldEnable, reason) :=
      if manualOverride.Some? then (manualOverride.value, ManualOverrideReason)
      else (IsNight(now, sunrise, sunset), SunTimesReason);
    ScheduleDecision(shouldEnable, targetStrength, NextTransition(now, sunrise, sunset), reason)
  }

  // ---------------------------------------------------------------------
  // The night window, stated case by case

  /** Without a midnight crossing, night is before sunrise or from sunset on. */
  lemma IsNightOrdered(now: Instant, sunrise: Instant, sunset: Instant)
    requires sunrise <= sunset
    ensures IsNight(now, sunrise, sunset) <==> now < sunrise || now >= sunset
  {
  }

  /** With a midnight crossing, night is exactly from sunset up to sunrise. */
  lemma IsNightCrossingMidnight(now: Instant, sunrise: Instant, sunset: Instant)
    requires sunrise > sunset
    ensures IsNight(now, sunrise, sunset) <==> sunset <= now < sunrise
  {
  }

  /** Sunrise itself is day and sunset itself is night. */
  lemma IsNightBoundaries(sunrise: Instant, sunset: Instant)
    requires sunrise < sunset
    ensures !IsNight(sunrise, sunrise, sunset)
    ensures IsNight(sunset, sunrise, sunset)
  {
  }

  /** When sunrise and sunset coincide there is no day at all. */
  lemma EqualSunTimesAlwaysNight(now: Instant, t: Instant)
    ensures IsNight(now, t, t)
  {
  }

  /**
   * An independent reading of the rule: the verdict is the one left by the
   * latest sun event at or before `now` (a sunset at the same instant as the
   * sunrise counting as the later one); before both events, it is the
   * verdict that the earlier upcoming event will end.
   */
  predicate NightByLatestEvent(now: Instant, sunrise: Instant, sunset: Instant) {
    var riseSeen := sunrise <= now;
    var setSeen := sunset <= now;
    if riseSeen && setSeen then sunset >= sunrise
    else if setSeen then true
    else if riseSeen then false
    else sunrise <= sunset
  }

  lemma IsNightMatchesLatestEvent(now: Instant, sunrise: Instant, sunset: Instant)
    ensures IsNight(now, sunrise, sunset) <==> NightByLatestEvent(now, sunrise, sunset)
  {
  }

  /** Moving all three instants by the same amount does not change the verdict. */
  lemma IsNightShiftInvariant(now: Instant, sunrise: Instant, sunset: Instant, delta: int)
    ensures IsNight(now + delta, sunrise + delta, sunset + delta) == IsNight(now, sunrise, sunset)
  {
  }

  // ---------------------------------------------------------------------
  // The next change

  /**
   * When both events lie less than a day behind `now` (today's values, not
   * stale ones) the projected change is strictly in the future.
   */
  lemma NextTransitionInFuture(now: Instant, sunrise: Instant, sunset: Instant)
    requires now < sunrise + OneDay && now < sunset + OneDay
    ensures NextTransition(now, sunrise, sunset) > now
  {
  }

  /** The next change is never more than a day past the ending event. */
  lemma NextTransitionWithinADay(now: Instant, sunrise: Instant, sunset: Instant)
    ensures EndingEvent(now, sunrise, sunset) <= NextTransition(now, sunrise, sunset)
                                              <= EndingEvent(now, sunrise, sunset) + OneDay
  {
  }

  /**
   * With the same sun times, the verdict does not change anywhere between
   * `now` and the projected next change.
   */
  lemma VerdictStableUntilNextTransition(now: Instant, sunrise: Instant, sunset: Instant, t: Instant)
    requires now <= t < NextTransition(now, sunrise, sunset)
    ensures IsNight(t, sunrise, sunset) == IsNight(now, sunrise, sunset)
  {
  }

  /**
   * At the next change the verdict does flip, judged against the sun times
   * of the day the change falls in (moved a day forward when the ending
   * event was projected), unless sunrise and sunset coincide.
   */
  lemma VerdictFlipsAtNextTransition(now: Instant, sunrise: Instant, sunset: Instant)
    requires sunrise != sunset
    ensures var shift := if EndingEvent(now, sunrise, sunset) <= now then OneDay else 0;
            IsNight(NextTransition(now, sunrise, sunset), sunrise + shift, sunset + shift)
              != IsNight(now, sunrise, sunset)
  {
  }

  // ---------------------------------------------------------------------
  // The decision

  /** The reason says which input decided, in both directions. */
  lemma DecideReasonNamesTheDecider(now: Instant, sunrise: Instant, sunset: Instant,
                                    targetStrength: int, manualOverride: Option<bool>)
    ensures var d := Decide(now, sunrise, sunset, targetStrength, manualOverride);
            (d.reason == ManualOverrideReason <==> manualOverride.Some?)
            && (d.reason == SunTimesReason <==> manualOverride.None?)
  {
  }

  /**
   * An override changes only whether to enable and the reason; the strength
   * and the next change are those of the schedule-driven decision.
   */
  lemma OverrideKeepsScheduleFields(now: Instant, sunrise: Instant, sunset: Instant,
                                    targetStrength: int, b: bool)
    ensures var forced := Decide(now, sunrise, sunset, targetStrength, Some(b));
            var scheduled := Decide(now, sunrise, sunset, targetStrength, None);
            forced.nextChange == scheduled.nextChange
            && forced.targetStrength == scheduled.targetStrength
            && forced == scheduled.(shouldEnable := b, reason := ManualOverrideReason)
  {
  }

  /**
   * Without an override, re-deciding at any instant before the announced
   * next change gives the same enable verdict and announces the same change.
   */
  lemma ScheduledDecisionHoldsUntilNextChange(now: Instant, sunrise: Instant, sunset: Instant,
                                              targetStrength: int, t: Instant)
    requires now <= t < Decide(now, sunrise, sunset, targetStrength, None).nextChange
    ensures Decide(t, sunrise, sunset, targetStrength, None)
              == Decide(now, sunrise, sunset, targetStrength, None)
  {
  }
}
