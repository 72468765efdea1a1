/**
 * The decision rule of the Night Light controller: the strength it would
 * set and whether it reports success. The controller never changes a
 * system setting: it either simulates the change (dry run, or not on
 * Windows) and succeeds, or reports that the real change is not available.
 * Whether the platform is Windows is an input; logging is not modelled.
 */
module NightLight {

  const MinStrength: int := 0
  const MaxStrength: int := 100

  /** The state the caller asks for. */
  datatype NightLightState = NightLightState(enabled: bool, strength: int)

  /** What one `apply_state` call yields: its reported success and the state it acted on. */
  datatype ApplyOutcome = ApplyOutcome(success: bool, effective: NightLightState)

  function Min(a: int, b: int): int { if a <= b then a else b }

  function Max(a: int, b: int): int { if a >= b then a else b }

  /** The requested strength limited to [MinStrength, MaxStrength]. */
  function ClampStrength(strength: int): (r: int)
    ensures MinStrength <= r <= MaxStrength
    ensures MinStrength <= strength <= MaxStrength ==> r == strength
    ensures strength < MinStrength ==> r == MinStrength
    ensures strength > MaxStrength ==> r == MaxStrength
  {
    Max(MinStrength, Min(MaxStrength, strength))
  }

  /**
   * Apply a requested state: the strength is clamped, and the call succeeds
   * exactly when it is a dry run or the platform is not Windows. On Windows
   * outside a dry run the direct system change is not implemented, so the
   * call reports failure.
   */
  function ApplyState(state: NightLightState, transitionMinutes: int, dryRun: bool,
                      isWindows: bool): (o: ApplyOutcome)
    ensures o.success <==> dryRun || !isWindows
    ensures o.effective == NightLightState(state.enabled, ClampStrength(state.strength))
  {
    var effective := NightLightState(state.enabled, ClampStrength(state.strength));
    if dryRun || !isWindows then ApplyOutcome(true, effective)
    else ApplyOutcome(false, effective)
  }

  /** Clamping twice is clamping once. */
  lemma ClampStrengthIdempotent(strength: int)
    ensures ClampStrength(ClampStrength(strength)) == ClampStrength(strength)
  {
  }

  /** Clamping keeps the order of strengths. */
  lemma ClampStrengthMonotone(a: int, b: int)
    requires a <= b
    ensures ClampStrength(a) <= ClampStrength(b)
  {
  }

  /**
   * The reported success depends only on the dry-run flag and the platform,
   * never on the requested state or the transition time.
   */
  lemma ApplyStateSuccessIgnoresRequest(s1: NightLightState, s2: NightLightState,
                                        t1: int, t2: int, dryRun: bool, isWindows: bool)
    ensures ApplyState(s1, t1, dryRun, isWindows).success == ApplyState(s2, t2, dryRun, isWindows).success
  {
  }

  /** The transition time never affects the outcome at all. */
  lemma ApplyStateIgnoresTransition(s: NightLightState, t1: int, t2: int, dryRun: bool, isWindows: bool)
    ensures ApplyState(s, t1, dryRun, isWindows) == ApplyState(s, t2, dryRun, isWindows)
  {
  }
}
