# home_made_flux — verified model of the Night Light decision core

This project models, in Dafny, the pure core of home_made_flux, a small
desktop tool that turns the display's Night Light on between sunset and
sunrise:

- `logic.dfy` (module `FluxLogic`) — the decision engine. `IsNight` classifies
  an instant against a sunrise/sunset pair, with the midnight-crossing rule.
  `NextTransition` projects the next change, a day ahead when the ending
  event has passed. `Decide` combines both with an optional manual override
  into a `ScheduleDecision`.
- `nightlight.dfy` (module `NightLight`) — the decision rule of
  `NightLightController.apply_state`. It clamps the strength to [0, 100], and
  it succeeds exactly on a dry run or off Windows.
- `config.dfy` (module `Config`) — the `AppConfig` settings record.
  It covers the defaults, the `asdict` view (`AsDict`), keyword construction
  (`Construct`, which fails on an unknown keyword as the constructor's
  `TypeError` does), the `update_config` merge (`UpdateConfig`) and the
  decision part of `load_config` (`LoadConfig`), including the undecodable-text
  error that `load_config` does not catch.
- `scenarios.dfy` (module `LogicScenarios`) — the unit-test scenarios of the
  engine, on concrete UTC instants.
- `wrappers.dfy` (module `Wrappers`) — `Option` and `Result`.

Instants are whole seconds on one time line; `timedelta(days=1)` is `+86400`.
The callers normalise every instant to one zone before the engine compares
them, so comparing integers is comparing instants.

Every operation has a partner lemma. `IsNight` is matched against an
independent "latest sun event" reading (`NightByLatestEvent`).
`NextTransition` is tied to `IsNight`: the verdict is stable up to the next
change and flips at it. `AsDict` and `Construct` are inverse to each other.
`UpdateConfig` is characterised as "the old view overwritten by the updates".

## Model

| member | source | states |
|---|---|---|
| FluxLogic.IsNightOrdered | home_made_flux/core/logic.py:32-33 | when sunrise is not after sunset, night holds exactly before sunrise or from sunset on |
| FluxLogic.IsNightCrossingMidnight | home_made_flux/core/logic.py:34 | when sunrise is after sunset (crossing midnight), night holds exactly from sunset up to, not including, sunrise |
| FluxLogic.IsNightBoundaries | home_made_flux/core/logic.py:32-33 | with sunrise strictly before sunset, the sunrise instant is day and the sunset instant is night |
| FluxLogic.EqualSunTimesAlwaysNight | home_made_flux/core/logic.py:32-33 | when sunrise and sunset coincide, every instant is night |
| FluxLogic.IsNightMatchesLatestEvent | home_made_flux/core/logic.py:31-34 | the night rule agrees, in both directions, with the verdict left by the latest sun event (or, before both, the verdict the first upcoming event ends) |
| FluxLogic.IsNightShiftInvariant | home_made_flux/core/logic.py:32-34 | moving now, sunrise and sunset by the same amount leaves the verdict unchanged |
| FluxLogic.NextTransition | home_made_flux/core/logic.py:36-45 | at night the result is sunrise or sunrise plus a day, by day it is sunset or sunset plus a day; the un-projected event is returned exactly when it is still after now |
| FluxLogic.NextTransitionInFuture | home_made_flux/core/logic.py:39-45 | when both events are less than a day behind now, the next change is strictly after now |
| FluxLogic.NextTransitionWithinADay | home_made_flux/core/logic.py:37-45 | the next change lies between the ending event and one day after it |
| FluxLogic.VerdictStableUntilNextTransition | home_made_flux/core/logic.py:36-45 | with the same sun times, the night verdict at every instant from now up to the next change equals the verdict now |
| FluxLogic.VerdictFlipsAtNextTransition | home_made_flux/core/logic.py:36-45 | unless sunrise equals sunset, the verdict at the next change (against that day's sun times) is the opposite of the verdict now |
| FluxLogic.Decide | home_made_flux/core/logic.py:47-68 | a present override sets enable to its value with reason "Manual override"; without one enable is the night verdict with reason "Based on sun times"; the next change is always the natural next transition and the strength passes through unclamped |
| FluxLogic.DecideReasonNamesTheDecider | home_made_flux/core/logic.py:55-60 | the reason is "Manual override" exactly when an override is present, and "Based on sun times" exactly when none is |
| FluxLogic.OverrideKeepsScheduleFields | home_made_flux/core/logic.py:55-67 | a forced decision differs from the scheduled one only in the enable flag and the reason |
| FluxLogic.ScheduledDecisionHoldsUntilNextChange | home_made_flux/core/logic.py:58-67 | without an override, deciding again at any instant before the announced next change gives the identical decision |
| LogicScenarios.CrossingMidnightScenario | tests/test_logic.py:12-16 | sunset Dec 31 18:00 and sunrise Jan 1 07:00: Dec 31 20:00 is night and Jan 1 08:00 is day |
| LogicScenarios.DayToNightScenario | tests/test_logic.py:18-23 | at 12:00 with sun from 06:00 to 20:00, the next change is the 20:00 sunset and the scheduled decision is "off" |
| LogicScenarios.ManualOverrideScenario | tests/test_logic.py:25-32 | a forced "on" at 10:00 with strength 60 enables at strength 60 with reason "Manual override" |
| NightLight.ClampStrength | home_made_flux/windows/nightlight.py:35 | the effective strength lies in [0, 100], equals the request when that is already in range, and is the nearer bound otherwise |
| NightLight.ClampStrengthIdempotent | home_made_flux/windows/nightlight.py:35 | clamping an already clamped strength changes nothing |
| NightLight.ClampStrengthMonotone | home_made_flux/windows/nightlight.py:35 | clamping preserves the order of strengths |
| NightLight.ApplyState | home_made_flux/windows/nightlight.py:27-54 | success holds exactly on a dry run or off Windows (so on Windows outside a dry run it is failure); the state acted on keeps the enabled flag and has the clamped strength |
| NightLight.ApplyStateSuccessIgnoresRequest | home_made_flux/windows/nightlight.py:36-54 | the reported success is the same for any requested state and any transition time, given the dry-run flag and platform |
| NightLight.ApplyStateIgnoresTransition | home_made_flux/windows/nightlight.py:27-54 | the transition time has no effect on the outcome |
| Config.AsDict | home_made_flux/util/config.py:45 | the dictionary view has exactly one entry per field, each of the shape its field holds |
| Config.Construct | home_made_flux/util/config.py:47 | construction succeeds exactly for known keywords with fitting values; any unknown keyword fails it, with the set of unknown names as the model's error value |
| Config.ConstructNoKeywords | home_made_flux/util/config.py:12-19 | a record built with no keywords is the defaults: "auto", "", 50, 10, 5, dry run on, start at login off, no override |
| Config.AsDictInjective | home_made_flux/util/config.py:45 | the dictionary view determines the record |
| Config.ConstructAsDict | home_made_flux/util/config.py:45-47 | building a record from its own dictionary view gives the record back |
| Config.AsDictConstruct | home_made_flux/util/config.py:12-19 | a record built from well-formed keywords has the defaults' view overwritten by those keywords |
| Config.MergeIntoCompleteDict | home_made_flux/util/config.py:45-46 | overwriting a full record view is well-formed exactly when the updates are, and has the updates' unknown keys |
| Config.UpdateConfig | home_made_flux/util/config.py:44-47 | the merge succeeds exactly when the updates are well-formed, and fails with exactly the updates' unknown names when one names no field |
| Config.UpdateConfigMerges | home_made_flux/util/config.py:44-47 | after a merge the record's view is the old view overwritten by the updates |
| Config.UpdateConfigFieldwise | home_made_flux/util/config.py:44-47 | each field named in the updates takes the given value and every other field keeps its old value |
| Config.UpdateConfigEmpty | home_made_flux/util/config.py:44-47 | merging no updates returns the record unchanged |
| Config.UpdateConfigIdempotent | home_made_flux/util/config.py:44-47 | merging the same updates twice equals merging them once |
| Config.UpdateConfigSequential | home_made_flux/util/config.py:44-47 | two merges in a row equal one merge of the first updates overwritten by the second |
| Config.LoadConfig | home_made_flux/util/config.py:22-31 | a missing file, an `OSError`, a `JSONDecodeError`, a JSON value that is not an object, or a stored object that cannot build a record yields the defaults; a well-formed object yields the built record; text that is not UTF-8 is not caught and is the only failure |
| Config.LoadSavedConfig | home_made_flux/util/config.py:22-41 | reading back a stored dictionary view of a record gives the record |
| Config.LoadConfigWellFormed | home_made_flux/util/config.py:22-31 | a well-formed stored dictionary reads as the defaults overwritten by it |

## Left out

- The scheduler (`home_made_flux/core/scheduler.py`): its background thread, stop event, sleep and join are concurrency and lifecycle, not decision logic. `trigger_once` only forwards the tick's result.
- The UI (`home_made_flux/ui/main_window.py`): Tkinter, the status queue, location resolution, override parsing and the single-use override reset. The tick that chains `Decide` into `ApplyState` lives there too.
- The location, geocoding and sun-time services: HTTP calls, JSON payloads and float coordinates. The clock-dependent fallback sun times are also out.
- Time-zone normalisation: every instant is assumed to be on one time line already.
- Sub-second precision: instants are whole seconds, but `datetime` values carry microseconds. The engine only compares instants and adds a day, so every property holds in any time unit where `OneDay` is one day.
- The unused `transition_minutes` attribute of `FluxLogic`: nothing reads it.
- `NightLight.ApplyState`: detecting the platform (`platform.system()` compared case-insensitively with "windows") is an input `isWindows`. The log messages are not modelled. The controller makes no system change on any path, so the model has none to make.
- `Config.LoadConfig`: opening the file and decoding the JSON are not modelled; their outcome is the input `StoredConfig` (no file, `OSError`, `JSONDecodeError`, `UnicodeDecodeError`, a non-object JSON value, or the decoded object). Other `ValueError`s that `json.load` could raise (for example a number too long to convert) are not modelled; like the `UnicodeDecodeError`, they would escape `load_config`. Writing the file in `save_config` is likewise left out.
- `Config.Construct`: Python's dataclass constructor does not check value types. It stores, for example, a string given for `night_light_strength`. The typed record cannot hold such a value, so the model rejects it with `WrongType` instead of storing it. Through `Construct`, `UpdateConfig` then fails and `LoadConfig` yields the defaults for such a value. Values other than strings, integers, booleans and null (floats, lists) are not modelled.
