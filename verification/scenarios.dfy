/**
 * The engine's documented scenarios, on concrete UTC instants. Days are
 * counted from 1970-01-01, so an instant is `day * OneDay` plus the time
 * of day in seconds.
 */
module LogicScenarios {
  import opened Wrappers
  import opened FluxLogic

  /** 2023-12-31, 2024-01-01 and 2024-06-01 as days since 1970-01-01. */
  const Dec31Of2023: int := 19722
  const Jan1Of2024: int := 19723
  const Jun1Of2024: int := 19875

  /** The UTC instant `hour:minute` on the given day. */
  function At(day: int, hour: int, minute: int): Instant {
    day * OneDay + hour * 3600 + minute * 60
  }

  /** Sunset on Dec 31 and sunrise on Jan 1: 20:00 on Dec 31 is night, 08:00 on Jan 1 is day. */
  lemma CrossingMidnightScenario()
    ensures IsNight(At(Dec31Of2023, 20, 0), At(Jan1Of2024, 7, 0), At(Dec31Of2023, 18, 0))
    ensures !IsNight(At(Jan1Of2024, 8, 0), At(Jan1Of2024, 7, 0), At(Dec31Of2023, 18, 0))
  {
  }

  /** At noon with the sun up from 06:00 to 20:00, the next change is that sunset. */
  lemma DayToNightScenario()
    ensures NextTransition(At(Jun1Of2024, 12, 0), At(Jun1Of2024, 6, 0), At(Jun1Of2024, 20, 0))
              == At(Jun1Of2024, 20, 0)
    ensures Decide(At(Jun1Of2024, 12, 0), At(Jun1Of2024, 6, 0), At(Jun1Of2024, 20, 0), 50, None)
              == ScheduleDecision(false, 50, At(Jun1Of2024, 20, 0), SunTimesReason)
  {
  }

  /** A forced "on" at 10:00 enables at the requested strength, whatever the sun says. */
  lemma ManualOverrideScenario()
    ensures var d := Decide(At(Jun1Of2024, 10, 0), At(Jun1Of2024, 6, 0), At(Jun1Of2024, 20, 0), 60, Some(true));
            d.shouldEnable && d.targetStrength == 60 && d.reason == ManualOverrideReason
  {
  }
}
