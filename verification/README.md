# Crowd-safety early-warning model in Dafny

This project models the risk-scoring core of a crowd-safety early-warning
system (`ews_prototype_repo/ews_model.py`) and proves properties of it.
Raw crowd signals go through a set of normalizers. The normalizers feed two
weighted risk formulas. A hysteresis state machine then turns the risk into
one of four alert levels: green < yellow < orange < red.

Modules, one per part of the source file:

- `Config` (`config.dfy`): the alert levels and the configuration. The
  configuration is an immutable value holding the five weights, the
  threshold triple and the two hysteresis tables. A table maps a
  `(from, to)` level pair to a tick count, and a pair it does not list needs
  one tick. `WellFormed` is a predicate a caller may check once; the source
  performs no validation, and the engine model does not depend on it.
- `Normalizers` (`normalizers.dfy`): `clamp01`, the heat index and its
  normalization, density, speed, speed variance, the anxiety proxy, CDI and
  CAI.
- `TimeIndex` (`time_index.dfy`): the time-of-day index. It works over a list
  of half-open hour windows and uses the fixed list of shoulder hours.
- `EventIndex` (`event_index.dfy`): the phase/scenario lookup. Labels are
  ASCII lower-cased, and any unlisted label gives 0.2.
- `Risk` (`risk.dfy`): the composite risk, the behavioral intention and the
  extended risk.
- `AlertEngine` (`alert_engine.dfy`): the engine state `(level, up, down)` and
  a pure `Step(cfg, state, risk)` returning `(state', level)`. `Run` and
  `Trace` fold it over a sequence of risks.

Every quantity is an exact `real`. Inside the model the source's
floating-point constants are exact rationals.

Behaviour the code has, and the model keeps and states:

- The default weights sum to 1.00001, not to 1. All-one indices therefore
  give a composite risk of exactly 1 only because of the final clamp
  (`Risk.CompositeDefaultCorners`).
- Pairs that neither hysteresis table lists need a single tick, and non-adjacent
  jumps are among them. From red, one tick below the yellow threshold drops
  straight to green (`AlertEngine.RedDropsStraightToGreen`). From green, one
  tick of orange-level risk jumps straight to orange
  (`AlertEngine.GreenJumpsToOrange`). One might expect a drop from red to take
  four ticks through orange and yellow. The code does not do this, and the
  model follows the code.
- The up-counter is shared by every upward target. It counts consecutive
  upward ticks, not consecutive ticks asking for the same level
  (`AlertEngine.SharedUpCounter`). The down-counter works the same way
  downwards.
- The first density band is not clamped, so a negative density gives a
  negative density risk (`Normalizers.DensityFirstBandUnclamped`). CDI and
  CAI clamp their results, so they stay in [0,1].
- `step` compares the raw risk with the thresholds and does not clamp it.
  When every threshold is positive and red is at most 1, this is the same
  as clamping first (`AlertEngine.StepClampInvariant`).

## Model

| member | source | states |
|---|---|---|
| Normalizers.Clamp01 | ews_prototype_repo/ews_model.py:33-34 | the result lies in [0,1]; it is the input on [0,1], 0 below and 1 above |
| Normalizers.Clamp01Idempotent | ews_prototype_repo/ews_model.py:33-34 | clamping twice equals clamping once |
| Normalizers.Clamp01FixedPoints | ews_prototype_repo/ews_model.py:33-34 | clamp01(x) == x exactly when 0 <= x <= 1 |
| Normalizers.Clamp01Monotone | ews_prototype_repo/ews_model.py:33-34 | clamp01 is non-decreasing |
| Normalizers.ThiCelsius | ews_prototype_repo/ews_model.py:44-51 | the index minus 14.5 is (0.45 + 0.0055 * rh) times the temperature minus 14.5; for non-negative humidity the index is above 14.5 exactly when the temperature is |
| Normalizers.ThiPivot | ews_prototype_repo/ews_model.py:44-51 | at 14.5 degrees the heat index is 14.5 for every humidity |
| Normalizers.ThiMonotoneInTemperature | ews_prototype_repo/ews_model.py:44-51 | for non-negative humidity a hotter reading never lowers the heat index |
| Normalizers.NormalizeThi | ews_prototype_repo/ews_model.py:54-58 | the result lies in [0,1]; it is 0 up to 22 and 1 from 32 |
| Normalizers.NormalizeThiMonotone | ews_prototype_repo/ews_model.py:54-58 | the heat normalization is non-decreasing |
| Normalizers.NormalizeDensity | ews_prototype_repo/ews_model.py:61-73 | the result lies in [0,1] for a non-negative density, is negative for a negative density, and is 1 from density 5 |
| Normalizers.DensityBoundaryValues | ews_prototype_repo/ews_model.py:61-73 | the values at 0, 1, 2, 3.5 and 5 are 0, 0.15, 0.40, 0.75 and 1 |
| Normalizers.DensityFirstBandUnclamped | ews_prototype_repo/ews_model.py:66-67 | up to density 1 the map is the unclamped line 0.15 * d |
| Normalizers.DensityMonotoneLipschitz | ews_prototype_repo/ews_model.py:61-73 | the density map is non-decreasing, and no step between two densities rises more than 0.25 per unit |
| Normalizers.DensityContinuous | ews_prototype_repo/ews_model.py:61-73 | the density map is continuous everywhere, including the band boundaries 1.0, 2.0 and 3.5 |
| Normalizers.NormalizeSpeed | ews_prototype_repo/ews_model.py:76-82 | the result lies in [0,1]; it is 1 exactly for speed <= 0 and 0 exactly for speed >= 1.2 |
| Normalizers.NormalizeSpeedAntitone | ews_prototype_repo/ews_model.py:76-82 | a faster crowd never gets a higher speed risk |
| Normalizers.NormalizeSpeedVar | ews_prototype_repo/ews_model.py:85-90 | the result lies in [0,1]; it is 0 for variance <= 0 and 1 from variance 0.5 |
| Normalizers.NormalizeSpeedVarMonotone | ews_prototype_repo/ews_model.py:85-90 | the speed-variance risk is non-decreasing |
| Normalizers.ComputeCdi | ews_prototype_repo/ews_model.py:93-102 | CDI lies in [0,1] for all real inputs |
| Normalizers.ComputeCdiMonotone | ews_prototype_repo/ews_model.py:93-102 | CDI never falls when density or variance rises or speed falls |
| Normalizers.ComputeCdiClampInert | ews_prototype_repo/ews_model.py:93-102 | for a non-negative density CDI is exactly the 50/30/20 blend, so the clamp only acts on negative densities |
| Normalizers.NormalizeAnxietySignals | ews_prototype_repo/ews_model.py:105-115 | the anxiety proxy lies in [0,1] |
| Normalizers.AnxietyMonotone | ews_prototype_repo/ews_model.py:105-115 | the anxiety proxy is non-decreasing in push rate, shout rate and near falls |
| Normalizers.AnxietyCorners | ews_prototype_repo/ews_model.py:105-115 | no signals give 0; 10 pushes, 20 shouts and 10 near falls or more give 1 |
| Normalizers.ComputeCai | ews_prototype_repo/ews_model.py:118-124 | CAI lies in [0,1] for all real inputs |
| Normalizers.CaiAmplifiesAnxiety | ews_prototype_repo/ews_model.py:118-124 | for a non-negative density CAI is never below the anxiety proxy |
| Normalizers.ComputeCaiMonotone | ews_prototype_repo/ews_model.py:118-124 | CAI is non-decreasing in all four inputs |
| Config.Required | ews_prototype_repo/ews_model.py:253-254 | a listed pair needs its table count and an unlisted pair needs one tick, like `dict.get(key, 1)` |
| Config.RequiredDefaultsToOne | ews_prototype_repo/ews_model.py:253-254 | a transition pair absent from a table requires one tick |
| Config.RequiredPositive | ews_prototype_repo/ews_model.py:29-30 | when a table holds only positive counts, every pair requires at least one tick |
| Config.DefaultWeightSum | ews_prototype_repo/ews_model.py:15-21 | the default weights sum to 1.00001, which is above 1 |
| Config.DefaultConfigWellFormed | ews_prototype_repo/ews_model.py:5-30 | the default configuration meets the added checks: weights within 0.001 of summing to 1, 0 < yellow < orange < red <= 1, and positive counts |
| TimeIndex.CountContaining | ews_prototype_repo/ews_model.py:139-141 | the window count is at most the number of windows, and positive exactly when some window contains the hour |
| TimeIndex.NearAny | ews_prototype_repo/ews_model.py:143 | the shoulder test holds exactly when the hour is one away from a listed hour |
| TimeIndex.NormalizeTi | ews_prototype_repo/ews_model.py:127-145 | for any window list the index lies in [0.1, 1] |
| TimeIndex.CountAppend | ews_prototype_repo/ews_model.py:139-141 | one more window raises the count by one exactly when it contains the hour |
| TimeIndex.WindowAddsHalfOnlyInside | ews_prototype_repo/ews_model.py:139-141 | a window adds 0.5 exactly when start <= hour < end, and nothing otherwise |
| TimeIndex.DefaultCount | ews_prototype_repo/ews_model.py:132-141 | the default windows are disjoint: an hour lies in one of them exactly when it is in 3..9 or 17..19 |
| TimeIndex.ShoulderHoursExplicit | ews_prototype_repo/ews_model.py:143-144 | the shoulder hours are exactly 2, 4, 5, 7, 9, 11, 16, 18, 19 and 21 |
| TimeIndex.DefaultTi | ews_prototype_repo/ews_model.py:132-145 | with `risk_windows` left as None the index is one of 0.1, 0.2, 0.6 and 0.7; it is at least 0.6 exactly inside a default window, and 0.2 or 0.7 exactly at a shoulder hour |
| TimeIndex.DefaultTiReference | ews_prototype_repo/ews_model.py:127-145 | with the default windows the index is 0.1, plus 0.5 inside a window, plus at most one 0.1 shoulder bump |
| TimeIndex.DefaultTiValues | ews_prototype_repo/ews_model.py:127-145 | with the default windows the index is one of 0.1, 0.2, 0.6 and 0.7, and it is at least 0.6 exactly inside a window |
| TimeIndex.DefaultTiExamples | ews_prototype_repo/ews_model.py:127-145 | TI(5)=0.7, TI(6)=0.6, TI(10)=0.1, TI(12)=0.1, TI(2)=0.2 |
| EventIndex.LowerChar | ews_prototype_repo/ews_model.py:157 | a capital A-Z becomes the small letter at the same place in the alphabet; every other character is unchanged |
| EventIndex.Lower | ews_prototype_repo/ews_model.py:157 | lower-casing keeps the length, lower-cases each character in place and leaves no upper-case ASCII letter |
| EventIndex.Key | ews_prototype_repo/ews_model.py:157 | the lookup key of a missing label is ""; otherwise it is the label lower-cased character by character |
| EventIndex.LowerIdempotent | ews_prototype_repo/ews_model.py:157 | lower-casing twice equals lower-casing once |
| EventIndex.NormalizeEi | ews_prototype_repo/ews_model.py:148-173 | every label, or a missing one, gives a value in [0.15, 0.95] |
| EventIndex.DefaultExactlyWhenUnlisted | ews_prototype_repo/ews_model.py:158-173 | the result is 0.2 exactly when the lower-cased label is not in the table |
| EventIndex.CaseInsensitive | ews_prototype_repo/ews_model.py:157-173 | a label and its lower-cased form give the same value |
| EventIndex.MissingLabelIsDefault | ews_prototype_repo/ews_model.py:157 | a missing label or an empty one gives 0.2 |
| EventIndex.ShahiSnanExamples | ews_prototype_repo/ews_model.py:148-173 | "SHAHI_SNAN" and "shahi_snan" give 0.9, and "unrecognized_phase" gives 0.2 |
| Risk.CompositeRisk | ews_prototype_repo/ews_model.py:176-187 | the composite risk lies in [0,1] for any weights and indices |
| Risk.CompositeMonotone | ews_prototype_repo/ews_model.py:176-187 | with non-negative weights a rise in any index never lowers the risk |
| Risk.CompositeUniform | ews_prototype_repo/ews_model.py:176-187 | when all five indices equal x, the risk is clamp01(weight sum * x) |
| Risk.CompositeDefaultCorners | ews_prototype_repo/ews_model.py:176-187 | under the default weights all-zero indices give 0 and all-one give 1, though the raw all-one sum exceeds 1 |
| Risk.CompositeClampInert | ews_prototype_repo/ews_model.py:176-187 | with non-negative weights summing to at most 1, unit indices never reach the clamp |
| Risk.BehavioralIntention | ews_prototype_repo/ews_model.py:190-202 | BI lies in [0,1] for all real inputs |
| Risk.BehavioralIntentionCorners | ews_prototype_repo/ews_model.py:190-202 | BI(0,0,0)=0 and BI(1,1,1)=1 |
| Risk.BehavioralIntentionUnclamped | ews_prototype_repo/ews_model.py:190-202 | for unit inputs BI is the exact 0.3/0.5/0.2 blend; subjective norm weighs most, then attitude, then perceived control |
| Risk.BehavioralIntentionMonotone | ews_prototype_repo/ews_model.py:190-202 | BI is non-decreasing in all three inputs |
| Risk.ExtendedRisk | ews_prototype_repo/ews_model.py:205-217 | the extended risk lies in [0,1] for all real inputs |
| Risk.ExtendedIsBlend | ews_prototype_repo/ews_model.py:205-217 | the extended risk is exactly 0.6 * composite + 0.4 * BI, between the two |
| Risk.ExtendedAllZero | ews_prototype_repo/ews_model.py:205-217 | all-zero inputs give extended risk 0 |
| Risk.ExtendedAllOne | ews_prototype_repo/ews_model.py:205-217 | all-one inputs give extended risk 1 under weights summing to at least 1, such as the defaults |
| Risk.ExtendedMonotoneInBehavior | ews_prototype_repo/ews_model.py:205-217 | raising attitude, norm or control never lowers the extended risk |
| AlertEngine.DesiredLevel | ews_prototype_repo/ews_model.py:234-241 | whatever the order of the thresholds, the desired level is the highest level whose inclusive threshold the risk reaches |
| AlertEngine.DesiredLevelThresholds | ews_prototype_repo/ews_model.py:234-241 | with ordered thresholds the desired level reaches a level exactly when risk >= that level's threshold, inclusive |
| AlertEngine.DesiredLevelMonotone | ews_prototype_repo/ews_model.py:234-241 | a higher risk never asks for a lower level |
| AlertEngine.Step | ews_prototype_repo/ews_model.py:230-268 | the new level is the old level or the desired one; desired equal to current resets both counters; every commit resets both counters; an upward tick that does not commit adds one to the up-counter and clears the down-counter, and a downward one the reverse; a non-zero counter stays below the required count |
| AlertEngine.StepCommitsIff | ews_prototype_repo/ews_model.py:244-266 | a tick changes the level exactly when the matching counter, after this tick, reaches the required count for (current, desired) |
| AlertEngine.StepClampInvariant | ews_prototype_repo/ews_model.py:230-241 | step(r) equals step(clamp01(r)) when every threshold is positive and red <= 1 |
| AlertEngine.UnlistedPairCommitsAtOnce | ews_prototype_repo/ews_model.py:253-266 | a pair the table does not list commits on the first tick that asks for it |
| AlertEngine.Run | ews_prototype_repo/ews_model.py:230-268 | a run of ticks ends at the starting level or at a level one of its ticks asked for, and after at least one tick up == 0 or down == 0 |
| AlertEngine.RunAppend | ews_prototype_repo/ews_model.py:230-268 | running a then b equals running a + b |
| AlertEngine.Trace | ews_prototype_repo/ews_model.py:246-268 | a run reports one level per tick, and each is the engine's level after the ticks up to and including it |
| AlertEngine.RunCountersExclusive | ews_prototype_repo/ews_model.py:244-266 | over any run, up == 0 or down == 0 holds after every tick |
| AlertEngine.SharedUpCounter | ews_prototype_repo/ews_model.py:248-257 | with counts yellow->orange 3 and yellow->red 2, ticks 0.65 then 0.80 from yellow report yellow then red: the up-counter is shared by both targets |
| AlertEngine.ClimbCounts | ews_prototype_repo/ews_model.py:248-257 | below the required count, a steady upward request keeps the level and adds one to the up-counter per tick |
| AlertEngine.ClimbTiming | ews_prototype_repo/ews_model.py:248-257 | from a settled level a steady upward request commits exactly on tick max(1, required) |
| AlertEngine.DescendCounts | ews_prototype_repo/ews_model.py:258-266 | below the required count, a steady downward request keeps the level and adds one to the down-counter per tick |
| AlertEngine.DescendTiming | ews_prototype_repo/ews_model.py:258-266 | from a settled level a steady downward request commits exactly on tick max(1, required) |
| AlertEngine.DefaultCountersAtMostOne | ews_prototype_repo/ews_model.py:29-30 | under the default tables no counter exceeds 1 after a tick |
| AlertEngine.GreenToYellowTakesTwoTicks | ews_prototype_repo/ews_model.py:244-257 | from green one step(0.5) stays green and a second one gives yellow |
| AlertEngine.OrangeToRedInOneTick | ews_prototype_repo/ews_model.py:248-257 | from orange one step(0.80) gives red |
| AlertEngine.RedDropsStraightToGreen | ews_prototype_repo/ews_model.py:258-266 | from red one step below 0.40 gives green, skipping orange and yellow |
| AlertEngine.GreenJumpsToOrange | ews_prototype_repo/ews_model.py:248-257 | from a fresh engine one step in [0.60, 0.75) gives orange, skipping yellow |
| AlertEngine.FlickerNeverCommits | ews_prototype_repo/ews_model.py:244-257 | from yellow, risks in [0.40, 0.75) that never ask for orange twice in a row keep every reported level yellow |
| AlertEngine.AlternatingStaysYellow | ews_prototype_repo/ews_model.py:244-257 | from yellow, alternating 0.61 and 0.59 never commits a change |
| AlertEngine.InitialStaysGreenBelowYellow | ews_prototype_repo/ews_model.py:225-228 | a new engine starts green with zero counters and stays there while the risk stays below yellow |

## Left out

- `sigmoid` (ews_model.py:37-41) is not modelled. It uses `math.exp` and nothing calls it.
- IEEE floating-point rounding is not modelled. Every quantity is an exact real. The callers' `round(..., 3)` output formatting is out of scope too, and so are NaN and infinite inputs.
- `str.lower()` is modelled for ASCII letters only. Python's full Unicode case mapping is not modelled.
- Missing weight keys are not modelled. The weights are a record with all five fields, so the `KeyError` that a weights dict missing a key would raise in `composite_risk` cannot arise.
- `AlertEngine` is not modelled as a mutable object. It is the pure function `Step` over an explicit state value, and the level `step` returns is the second component of its result. The class-level mutable dicts of `EWSConfig` and the default-argument instance shared by `AlertEngine.__init__` are replaced by one immutable configuration value.
- `normalize_ti` takes the hour as an integer, as the annotation says. Its `risk_windows=None` default is the separate function `DefaultTi`. Window names are dropped because only the bounds matter.
- The synthetic data generators are not modelled: `continuous_data_generator.py`, `realtime_data_generator.py` and `generate_demo_data.py`. They draw inputs at random and read or write CSV. This includes their `force_alert_probs` path and their unclamped inline copies of the weighted sum.
- The Flask server `app.py` is not modelled, and neither are the launchers `run_ews_system.py` and `start_dynamic_simulation.py`. These are serving and process plumbing.
- Config.WellFormed is not enforced by the engine. The source validates nothing, so the engine lemmas assume only what each of them needs.
