# AIRDROP-X decision core in Dafny

This project models the core of AIRDROP-X. AIRDROP-X advises a UAV operator whether to release a payload: it runs a Monte Carlo estimate of the hit probability, then decides DROP or NO DROP under a doctrine. The model covers the parts of the program that decide, validate and track state. The physics engine stays abstract.

- **Decision layer** (`DecisionLogic`, `DecisionDoctrine`, `Statistics`, `DecisionStability`). These cover:
  - the raw threshold rule;
  - the STRICT / BALANCED / AGGRESSIVE doctrines over a Wilson score interval;
  - hysteresis, robustness status and the stability index;
  - the in-place enrichment of an evaluation snapshot.
- **Snapshot validation** (`SnapshotValidation`): the required-key contracts of CONFIG, ERROR and EVALUATION snapshots.
- **Evaluation coordinator**:
  - `Coordinator` is the main window's run-guard state machine. It is a class with one method per slot. Worker completion arrives as explicit done, failed and finished events.
  - `EvaluationWorker` is one cycle of the live evaluation loop: the telemetry override, the engine call and the EVALUATION packet.
- **Enrichment layers**: `Sensitivity`, `Fragility`, `ReleaseCorridor`, `UncertaintyDecomposition`, `Topology`, `Metrics` and the advisory layer (`AdvisoryLayer`). Each writes its record into the snapshot dictionary, and the Monte Carlo engine is a function parameter whose results lie in [0, 1]. The advisory layer saves, overwrites and restores the global config module (`AdvisoryLayer.ConfigModule`).
- **Payload and mission types**:
  - `PayloadBase`, `SimpleShapes`, `PayloadFactory`, `GeometryValidation` and the payload-library tab (`PayloadLibrary`);
  - `TargetManager`, `Environment`, `MissionState`.
  - Validated setters are methods on classes, and a rejected value leaves the field unchanged.
- **Telemetry**:
  - `UavState` (the snapshot record);
  - `TelemetryIngest` (dictionary parsing and the filtering stream);
  - `MavlinkAdapter` (MAVLink message translation);
  - `LogReplay` (CSV/JSON flight-log replay);
  - `StableSort` (the stable `list.sort` the replay uses);
  - `StateBuffer` (latest frame, staleness and update rate, with the clock as a parameter);
  - `TelemetryHealth` (advisory warnings).

Shared modules: `Builtins` models Python values as `Value` and dictionaries as `map<string, Value>`, plus `float()`, `int()`, `str()`, truthiness and `dict.get`. `Strings` holds strip, upper and lower for ASCII. `Exceptions` holds the exception kinds.

Operations the source performs by mutation are methods whose `ensures` give the new state as a pure function of the old one. The lemmas then prove the promised properties of those functions. Where the code and its documentation disagree, the model follows the code, except for the two log-replay defects listed under "## Findings": there the loaders use the corrected readings, and the as-written behaviour is kept beside them. Examples of following the code:
- the label is "NO DROP" with a space;
- hysteresis compares fractions, not percentages;
- outside the hysteresis band the caller's raw decision is kept.

## Model

| member | source | states |
|---|---|---|
| DecisionLogic.EvaluateDropDecision | src/decision_logic.py:1-7 | The result is always DROP or NO DROP, and it is DROP exactly when the hit probability reaches the threshold (equality counts as a drop). |
| DecisionLogic.DropIsMonotone | src/decision_logic.py:5-7 | Raising the hit probability never turns a DROP into a NO DROP. |
| DecisionLogic.DropIsAntitoneInThreshold | src/decision_logic.py:5-7 | Lowering the threshold never turns a DROP into a NO DROP. |
| DecisionLogic.DropDecisionExamples | tests/test_core_logic.py:7-10 | The three unit-test cases hold: 0.9 against 0.8 drops, 0.7 does not, and 0.8 against 0.8 drops. |
| DecisionDoctrine.Describe | src/decision_doctrine.py:9-13 | A known doctrine key gives its fixed description text; any other key gives the fallback. |
| DecisionDoctrine.EvaluateDoctrine | src/decision_doctrine.py:18-67 | Fewer than 30 samples gives NO DROP with the sample-size reason, before the doctrine is looked at. Otherwise the doctrine is stripped and upper-cased. An unknown name raises ValueError("Unknown doctrine: …"). STRICT drops iff the lower bound reaches the threshold, BALANCED iff the estimate does, AGGRESSIVE iff the upper bound does. The reason and description match the doctrine and the decision. |
| DecisionDoctrine.DoctrinesAreOrdered | src/decision_doctrine.py:51-59 | When the interval contains the estimate, STRICT is the most cautious doctrine: a STRICT drop implies a BALANCED drop, which implies an AGGRESSIVE drop. |
| DecisionDoctrine.SmallSampleNeverDrops | src/decision_doctrine.py:41-46 | Below 30 samples every doctrine string, known or not, gives NO DROP and never an error. |
| DecisionDoctrine.BalancedAgreesWithRawRule | src/decision_doctrine.py:54-56 | With enough samples, BALANCED makes the same decision as the raw threshold rule on the point estimate. |
| DecisionDoctrine.NormalisedDoctrineAccepted | src/decision_doctrine.py:48 | A padded lower-case name (" strict ") is accepted as STRICT. |
| Statistics.Clamp01 | src/statistics.py:30-31 | max(0, min(1, x)) lies in [0, 1], leaves values already in [0, 1] alone, and sends values below 0 to 0 and values above 1 to 1. |
| Statistics.WilsonBounds | src/statistics.py:24-32 | For a positive sample count, both clamped bounds lie in [0, 1], and the lower bound is at most the upper one when z and the square root are non-negative. |
| Statistics.WilsonCi | src/statistics.py:10-32 | With no trials the interval is (0, 1). Both bounds always lie in [0, 1], and the lower bound is at most the upper one for a non-negative z. |
| Statistics.WilsonContainsEstimate | src/statistics.py:24-31 | For 0 <= k <= n with n > 0 and z >= 0, the interval contains the point estimate k/n. |
| Statistics.WilsonOfNoTrials | src/statistics.py:22-23 | With no trials the interval is all of [0, 1], whatever k and z are. |
| DecisionStability.ApplyDecisionHysteresis | src/decision_stability.py:11-35 | The result is always a label. A previous DROP is kept while the hit probability is at least one percentage point below the threshold, and a previous NO DROP while it is at most one point above. Otherwise the raw label is returned when it is a label, and the threshold rule decides when it is not. |
| DecisionStability.HysteresisHoldsInsideBand | src/decision_stability.py:21-30 | Inside the ±1-point band around the threshold, a previous label always wins. |
| DecisionStability.HysteresisOverridesOnlyInsideBand | src/decision_stability.py:25-35 | When the raw label follows the threshold rule, hysteresis changes it only inside the band, and only to the previous label. |
| DecisionStability.ComputeRobustnessStatus | src/decision_stability.py:38-51 | A missing bound gives UNKNOWN. Otherwise the status is ROBUST iff the lower bound is above the threshold fraction, UNSAFE iff the lower bound is at or below it and the upper bound below it, and FRAGILE iff the threshold lies within [low, high]. |
| DecisionStability.RobustnessAgreesWithDoctrines | src/decision_stability.py:38-51 | With enough samples, a ROBUST interval drops even under STRICT, and an UNSAFE interval is refused even under AGGRESSIVE. |
| DecisionStability.CiWidth | src/decision_stability.py:63-65 | The width is non-negative. It is positive exactly when both bounds are present and the upper exceeds the lower, and then it equals high - low. |
| DecisionStability.ComputeStabilityIndex | src/decision_stability.py:54-68 | The index lies in [0, 100] and is zero exactly when the hit probability equals the threshold fraction. |
| DecisionStability.StabilityGrowsWithDistance | src/decision_stability.py:61-68 | For the same interval, a hit probability further from the threshold never gets a smaller index. |
| DecisionStability.StabilityShrinksWithWidth | src/decision_stability.py:63-68 | For the same hit probability, a wider interval never gets a larger index. |
| DecisionStability.ReadBound | src/decision_stability.py:81-82 | A missing interval key reads as absent. |
| DecisionStability.FinalDecision | src/decision_stability.py:83-88 | The decision written back is always DROP or NO DROP. |
| DecisionStability.EnrichedRobustness | src/decision_stability.py:91-97 | The written status is never UNKNOWN, and it is NUMERICAL_LIMIT exactly when the interval is narrower than 1e-6. |
| DecisionStability.EnrichConverted | src/decision_stability.py:83-99 | Once both conversions succeed, the decision is always written. With both bounds present, the step raises exactly when `ci_high > ci_low` raises (mixed types, None, dicts) or holds for bounds that are not both numbers, so that the subtraction after it raises. Without a raise, the robustness status and stability index are written too; bounds that are not numbers then count as a zero-width interval. No other key changes. |
| DecisionStability.Enrich | src/decision_stability.py:71-99 | A failed float() of P_hit or of threshold_pct leaves the snapshot unchanged and reports which. Otherwise the call completes exactly when the bounds do not clash, and then adds exactly decision, robustness_status and stability_index. |
| DecisionStability.TextBounds | src/decision_stability.py:91-99 | With string bounds, enrichment raises after writing the decision exactly when ci_high is the greater string. Otherwise it stores NUMERICAL_LIMIT and the index of a zero-width interval. |
| DecisionStability.EqualTextBoundsComplete | src/decision_stability.py:91-95 | Equal string bounds, such as ci_low = ci_high = "a", never raise, and the status is NUMERICAL_LIMIT. |
| DecisionStability.MixedBoundsRaise | src/decision_stability.py:91-92 | A number compared with a string raises. |
| DecisionStability.EnrichTouchesOnlyItsKeys | src/decision_stability.py:79-99 | Enrichment writes only decision, robustness_status and stability_index. A failed float() of P_hit or threshold_pct leaves the snapshot as it was, and a failed bound comparison leaves only the decision written. |
| DecisionStability.EnrichResultShape | src/decision_stability.py:83-98 | A completed enrichment stores a label, a status other than UNKNOWN (NUMERICAL_LIMIT exactly for a degenerate interval) and an index in [0, 100]. |
| DecisionStability.EnrichKeepsConsistentDecisionOutsideBand | src/decision_stability.py:83-89 | A stored decision that already follows the threshold rule is written back unchanged when the hit probability lies outside the hysteresis band. |
| DecisionStability.HysteresisKeepsRawOutsideBand | src/decision_stability.py:25-35 | Outside the band, hysteresis returns the raw threshold-rule label whatever the previous label was. |
| DecisionStability.EnrichEvaluationSnapshot | src/decision_stability.py:71-99 | Updates the snapshot in place, returns the same object, and leaves exactly the entries and the raised error that Enrich gives for the old entries, with the same raise condition on the bounds as EnrichConverted. |
| SnapshotValidation.RequiredKeys | qt_app/snapshot_validation.py:6-10 | Every required-key set of a known snapshot type includes snapshot_type itself. |
| SnapshotValidation.ValidateSnapshot | qt_app/snapshot_validation.py:13-34 | A missing snapshot is rejected as None. A snapshot_type other than CONFIG, ERROR or EVALUATION is rejected as invalid, carrying the value found. A known type passes iff its required keys are present. A rejection for missing keys names the type and exactly the non-empty set of absent required keys. |
| SnapshotValidation.ConfigContract | qt_app/snapshot_validation.py:21-24 | A CONFIG snapshot passes iff it has threshold_pct. |
| SnapshotValidation.ErrorContract | qt_app/snapshot_validation.py:25-28 | An ERROR snapshot passes iff it has error_message. |
| SnapshotValidation.EvaluationContract | qt_app/snapshot_validation.py:29-32 | An EVALUATION snapshot passes iff it has decision, P_hit, ci_low, ci_high and n_samples. |
| SnapshotValidation.PassingSnapshotHasKnownType | qt_app/snapshot_validation.py:20-34 | A snapshot that passes has a snapshot_type key holding one of the three known types. |
| SnapshotValidation.ExtraKeysNeverReject | qt_app/snapshot_validation.py:22-32 | Adding keys while keeping the type never turns a pass into a rejection. |
| Sensitivity.PerturbedConfig | src/sensitivity.py:22-24 | The perturbed copy has the config's keys plus the perturbed keys, minus simulation_fidelity. Perturbed values override, and every other key keeps its config value. |
| Sensitivity.WindSensitivityLevel | src/sensitivity.py:35-42 | High iff the gradient's magnitude is at least 0.05, Moderate iff it lies in [0.02, 0.05), and Low iff it is below 0.02. |
| Sensitivity.PerturbedSamples | src/sensitivity.py:74 | The reduced sample count max(30, int(0.3 n)) is never below 30. |
| Sensitivity.Smooth | src/sensitivity.py:80-84 | Without a previous gradient the raw one is kept. With one, the smoothed value lies between the raw and the previous gradients. |
| Sensitivity.DominantFactor | src/sensitivity.py:113-118 | "wind" iff its gradient magnitude is at least both others. "altitude" iff it beats wind strictly and is at least velocity. "velocity" iff it beats both strictly. This is the head of the stable sort by descending magnitude. |
| Sensitivity.Sensitivity | src/sensitivity.py:45-119 | When no conversion raises, a value is returned exactly in standard mode. |
| Sensitivity.SensitivityRaisesOnlyOnConversion | src/sensitivity.py:65-98 | The call raises exactly when float() of P_hit or int() of n_samples fails, or when a mode-specific conversion fails: wind for both modes, altitude and speed for advanced mode. |
| Sensitivity.StandardModeWritesLiveRecord | src/sensitivity.py:69-92 | Standard mode returns the smoothed wind gradient. It adds only sensitivity_live, keeps every other entry, and its wind_gradient equals wind_gradient_smoothed. |
| Sensitivity.AdvancedModeResult | src/sensitivity.py:94-119 | Once the conversions succeed, advanced mode returns None and writes the gradient matrix and then the dominant factor. |
| Sensitivity.MatrixWriteKeepsOthers | src/sensitivity.py:117-118 | The two advanced-mode writes add exactly sensitivity_matrix and dominant_risk_factor and keep every other entry. |
| Sensitivity.AdvancedModeWritesMatrix | src/sensitivity.py:94-119 | Advanced mode writes the three gradients and the dominant factor, keeps every other entry, and returns None. |
| Sensitivity.OtherModeWritesNothing | src/sensitivity.py:65-69 | Any mode other than standard or advanced writes nothing and returns None. |
| Sensitivity.PerturbedRunConfig | src/sensitivity.py:72-76 | The standard-mode perturbed run never sees simulation_fidelity. It sees wind_x raised by 0.5 and at least 30 samples. |
| Sensitivity.StandardGradientBounded | src/sensitivity.py:76-77 | With the engine and the base probability in [0, 1], the standard wind gradient lies in [-2, 2]. |
| Sensitivity.GradientSign | src/sensitivity.py:104-106 | For a positive step, the gradient is positive iff the perturbed run hits more often, and zero iff both hit equally often. |
| Sensitivity.ComputeSensitivity | src/sensitivity.py:45-119 | Updates the snapshot in place. A failed conversion leaves it unchanged and reports the raise. Otherwise the new entries and the returned gradient are those of Sensitivity. |
| Fragility.ClassifyZone | src/fragility.py:34-40 | EDGE-ZONE iff the margin is below 1.5 points, STABLE-ZONE iff it is at least 5, and TRANSITION-ZONE in between. The slope plays no part. |
| Fragility.WindPerturbedConfig | src/fragility.py:20-23 | The perturbed copy sets wind_x to wx + 0.5, drops simulation_fidelity and keeps every other key. |
| Fragility.Fragility | src/fragility.py:43-85 | When nothing raises, the snapshot gains exactly fragility_state and every other entry is kept. |
| Fragility.MarginInPercent | src/fragility.py:59-61 | The margin is the hit probability minus the threshold, both in percent. |
| Fragility.FragilityStateShape | src/fragility.py:57-85 | The stored record holds exactly margin_pct, slope_margin and zone. margin_pct = 100·P_hit - threshold_pct. The zone is EDGE iff P_hit is less than 1.5 points above the threshold. |
| Fragility.MissingThresholdIs75 | src/fragility.py:58 | A missing or zero threshold_pct is read as 75. |
| Fragility.StandardPrefersStoredGradient | src/fragility.py:64-68 | In standard mode a stored smoothed gradient becomes the slope and no perturbed run is made, so the engine does not matter. |
| Fragility.AdvancedSlopeIsStoredGradient | src/fragility.py:73-78 | Outside standard mode, the slope equals the numeric "wind" entry of the sensitivity matrix, whatever other entries the matrix holds. |
| Fragility.SlopeRecoversGradient | src/fragility.py:76-78 | Rebuilding the perturbed margin from a gradient and differencing it over 0.5 gives the gradient back. |
| Fragility.ComputeFragility | src/fragility.py:43-85 | Updates the snapshot in place. A raise leaves it unchanged, and otherwise its entries become those of Fragility. |
| ReleaseCorridor.OffsetConfig | src/release_corridor.py:22-26 | The offset copy sets uav_x to x0 + dx, drops simulation_fidelity and uav_pos, and keeps every other key. |
| ReleaseCorridor.EffectiveThreshold | src/release_corridor.py:54-56 | The effective threshold is the threshold fraction less 0.005, half a percentage point. |
| ReleaseCorridor.StandardWidth | src/release_corridor.py:69-77 | The width is 2 iff both neighbouring runs pass, 1 iff exactly one passes, and 0 iff neither passes. |
| ReleaseCorridor.Scan | src/release_corridor.py:87-91 | The advanced scan has 11 entries carrying the offsets -5..5 in order. |
| ReleaseCorridor.PassingOffsets | src/release_corridor.py:93 | The filtered list is no longer than the scan. |
| ReleaseCorridor.PassingComplete | src/release_corridor.py:93 | Every scanned offset whose run meets the effective threshold is in the filtered list. |
| ReleaseCorridor.PassingSound | src/release_corridor.py:93 | Every offset in the filtered list is a scanned offset whose run meets the effective threshold. |
| ReleaseCorridor.CorridorBounds | src/release_corridor.py:95-103 | With no passing offset, all three values are zero. Otherwise the bounds are the least and greatest passing offsets, and the width is their difference. |
| ReleaseCorridor.LiveCorridor | src/release_corridor.py:79-83 | The standard record holds exactly corridor_width_m and margin_pct, with the width always stored as a number. |
| ReleaseCorridor.MatrixCorridor | src/release_corridor.py:95-111 | The advanced record holds exactly min_offset_m, max_offset_m and corridor_width_m. Since offsets are whole metres, the width is always stored as a number and never as "<1.0". |
| ReleaseCorridor.Corridor | src/release_corridor.py:38-112 | When nothing raises, standard mode adds only release_corridor_live and advanced mode only release_corridor_matrix. Any other mode leaves the snapshot unchanged. |
| ReleaseCorridor.WidthIsNeverFractional | src/release_corridor.py:100-105 | Offsets are whole metres, so an advanced width is 0 or at least 1, and the "<1.0" text is never stored. |
| ReleaseCorridor.StandardRunsOneMetreEitherSide | src/release_corridor.py:61-67 | Standard mode runs at x0 - 1 and x0 + 1 with the same reduced count of at least 30 samples, on copies without simulation_fidelity or uav_pos. |
| ReleaseCorridor.PassingRange | src/release_corridor.py:93-103 | On a scan of offsets -5..5, every passing offset lies within the bounds, and both ends pass and lie in [-5, 5]. With no passing offset the record is all zeros. |
| ReleaseCorridor.ScanEntry | src/release_corridor.py:89-91 | The scan's entry for offset o is the run at offset o. |
| ReleaseCorridor.ScanOffsets | src/release_corridor.py:87-91 | The loop appends one run per offset from -5 to 5 and returns exactly Scan. |
| ReleaseCorridor.ComputeReleaseCorridor | src/release_corridor.py:38-112 | Updates the snapshot in place. A raise leaves it unchanged, and otherwise its entries become those of Corridor. |
| UncertaintyDecomposition.SortedDesc | src/uncertainty_decomposition.py:42-45 | The ranked weights are in descending order and are a permutation of the three weights. |
| UncertaintyDecomposition.AbsGradient | src/uncertainty_decomposition.py:22-24 | A converted gradient magnitude is non-negative. |
| UncertaintyDecomposition.Uncertainty | src/uncertainty_decomposition.py:12-47 | A missing, empty or non-dict sensitivity_matrix leaves the snapshot as it was. Otherwise no key is removed, and every key other than uncertainty_contribution and dominant_risk_factor keeps its value. |
| UncertaintyDecomposition.WeightsArePartition | src/uncertainty_decomposition.py:35-39 | The normalised weights lie in [0, 1], sum to one, and each times the total gives back its gradient. |
| UncertaintyDecomposition.ContributionIsNormalised | src/uncertainty_decomposition.py:26-47 | With a total of at least 1e-6, the contribution holds the normalised weights. dominant_risk_factor becomes "Mixed" exactly when the largest weight leads the second by less than 0.05, and is otherwise left as it was. |
| UncertaintyDecomposition.NegligibleTotalGivesEqualWeights | src/uncertainty_decomposition.py:26-33 | A total below 1e-6 writes equal weights of 1/3 and changes nothing else. |
| UncertaintyDecomposition.ComputeUncertaintyContribution | src/uncertainty_decomposition.py:12-47 | Updates the snapshot in place. A raise leaves it unchanged, and otherwise its entries become those of Uncertainty. |
| Metrics.Clamp | src/metrics.py:4-5 | For lo <= hi the result lies in [lo, hi]. A value inside is kept, one below lo gives lo, and one above hi gives hi. |
| Metrics.Distance | src/metrics.py:21 | The radial miss distance is non-negative. |
| Metrics.CountHits | src/metrics.py:22 | The number of hits never exceeds the number of points. |
| Metrics.HitProbability | src/metrics.py:8-23 | Ragged rows, an empty point set and rows that are not pairs each raise their own error. A result is the count of points at distance <= radius divided by the number of points, and it lies in [0, 1]. |
| Metrics.HitIffSquaredDistance | src/metrics.py:21-22 | For a non-negative radius, a point is a hit iff its squared distance is at most the squared radius. A negative radius hits nothing. |
| Metrics.HitProbabilityExample | tests/test_core_logic.py:12-20 | Points at distances 0, 1, 2 and 10 with radius 2.5 give 0.75. |
| Metrics.SumSquaredDeviations | src/metrics.py:57 | A sum of squared deviations is non-negative. |
| Metrics.Variance | src/metrics.py:57 | The population variance is non-negative. |
| Metrics.SumBounds | src/metrics.py:56 | A sample bounded by lo and hi has a sum between n·lo and n·hi. |
| Metrics.MeanWithinBounds | src/metrics.py:56 | The mean of a non-empty sample lies between any bounds of the sample. |
| Metrics.ImpactVelocityStats | src/metrics.py:42-59 | Empty speeds give all-zero statistics. The standard deviation is non-negative, and its square is the population variance. |
| Metrics.MeanSpeedWithinSample | src/metrics.py:55-56 | Non-negative speeds bounded by a top speed have a mean in [0, top]. |
| Metrics.BcFactor | src/metrics.py:84-87 | The factor is 0.5 without a ballistic coefficient and clamp(BC/120, 0, 1) with one, so it always lies in [0, 1]. |
| Metrics.TelemetryFactor | src/metrics.py:91-101 | The factor is 1.0 iff telemetry is fresh: True, or a number of at most 5 seconds. Otherwise it is 0.5: None, False, a larger number, or anything that does not convert. |
| Metrics.ConfidenceIndex | src/metrics.py:62-106 | The confidence index always lies in [0, 1]. |
| Metrics.FreshTelemetryRaisesConfidence | src/metrics.py:82-106 | For non-negative wind spread, no clamping is needed: fresh telemetry raises the index by exactly 1/8 over stale telemetry. |
| Topology.ClassifyDriftAxis | src/topology.py:13-21 | "longitudinal" iff abs(mean_x) > abs(mean_y), "lateral" iff abs(mean_y) > abs(mean_x), and "centered" iff they are equal. |
| Topology.ClassifyDispersion | src/topology.py:24-30 | "Circular" iff the ratio is below 1.2, "Moderate elongation" iff it lies in [1.2, 2.0), and "Strong elongation" iff it is at least 2.0. |
| Topology.Numbers | src/topology.py:45 | Converting a list succeeds iff every item converts. A success keeps the length and each converted item, and a failure names an item that does not convert. |
| Topology.Rows | src/topology.py:45 | A two-dimensional array keeps the item count, and all its rows have one length. |
| Topology.Column | src/topology.py:52-55 | A column has one entry per row: the row's j-th coordinate. |
| Topology.ReadPoints | src/topology.py:41-49 | Points that are read have equal x and y columns of at least two entries. Lists nested more than two levels deep read as Raises. |
| Topology.LiveTopology | src/topology.py:51-64 | The standard record holds exactly mean_x, mean_y, var_x, var_y and drift_axis. Both variances are non-negative. The drift axis is longitudinal, lateral or centered exactly as abs(mean_x) is greater than, less than or equal to abs(mean_y). |
| Topology.Topology | src/topology.py:33-88 | None, an empty value, fewer than two points or fewer than two columns leaves the snapshot as it was. The call raises exactly when ReadPoints gives Raises: NumPy cannot read the points, or they are nested more than two levels deep, which the model does not read. Any mode other than standard or advanced writes nothing. |
| Topology.StandardTopologyRecord | src/topology.py:51-64 | Standard mode adds only topology_live, holding exactly the coordinate means, their non-negative population variances, and the drift axis of those means. |
| Topology.FlatListIsPairs | src/topology.py:46-47 | A flat list of numbers is read as consecutive (x, y) pairs. |
| Topology.TooFewPointsSkipped | src/topology.py:48-49 | A single point, or points with one coordinate, are skipped. |
| Topology.ComputeTopology | src/topology.py:33-88 | Updates the snapshot in place. A raise leaves it unchanged, and otherwise its entries become those of Topology. |
| Coordinator.ShownZoom | qt_app/main_window.py:516-522 | The shown zoom always lies in the view's range: [0.6, 1.8] for engineering and [0.6, 2.2] otherwise. A stored value inside the range is shown as is, a value outside is clamped to the nearer end, and a view without a stored zoom shows 1.0. |
| Coordinator.PercentOfHit | qt_app/main_window.py:665 | A missing P_hit shows 0%, and a numeric P_hit p shows 100·p. |
| Coordinator.FailureReason | qt_app/main_window.py:681-682 | The failure text is at most 72 characters long, and an empty error reads "unknown error". |
| Coordinator.NextSystemMode | qt_app/main_window.py:549-557 | The result is always SNAPSHOT or LIVE. A normalised text starting with "LIVE" gives LIVE. Otherwise one starting with "SNAP" gives SNAPSHOT. Otherwise the side panel's own mode is used when it is a system mode, and SNAPSHOT when it is not. |
| Coordinator.Initial | qt_app/main_window.py:60-85 | The initial state is the operator view in the side panel's system mode, with the Ready status. Nothing is running, no worker was started, nothing is locked, no snapshot is held, the timer is stopped and not paused. The zoom widget shows 1.0 in the operator range. |
| Coordinator.SyncZoom | qt_app/main_window.py:516-526 | After a sync the zoom range is the view's bounds and the value lies within them. Nothing else changes. |
| Coordinator.SetMode | qt_app/main_window.py:496-499 | Switching the view selects that view's range and shows a zoom inside it. The stored zooms are kept. |
| Coordinator.ZoomChanged | qt_app/main_window.py:529-530 | The zoom is stored for the current view only; every other view keeps its zoom, and the widget is not re-synced. |
| Coordinator.Start | qt_app/main_window.py:622-633 | A run is in progress afterwards. One worker is added exactly when none was running, and then it carries the config and trigger and the start time is now. Snapshot, lock and status line are untouched. |
| Coordinator.AutoEvaluate | qt_app/main_window.py:589-599 | A timer tick never changes the snapshot, the lock, the status line, the system mode or the timer. |
| Coordinator.EvaluateClicked | qt_app/main_window.py:601-620 | A click never changes the latest snapshot and never locks. It starts at most one worker, and reports "already running" exactly when a run is in progress. |
| Coordinator.PauseIfSlow | qt_app/main_window.py:641-658 | Auto-evaluation is paused afterwards exactly when it was already paused or the run was a slow LIVE run with auto-evaluation on. That run also stops the timer and tells the panel. Any other run changes nothing. |
| Coordinator.SimulationDone | qt_app/main_window.py:636-677 | Completion records the evaluation time and shows the trigger's status line. The system mode, the view and the worker count are unchanged. |
| Coordinator.ShowOutcome | qt_app/main_window.py:660-677 | The status line is the trigger's. The window is locked afterwards exactly when it was locked or the trigger is "manual_lock", which also makes the panel read-only. The snapshot and timer are unchanged. |
| Coordinator.SimulationFailed | qt_app/main_window.py:680-682 | The status reports a failure whose text is at most 72 characters, and "unknown error" for an empty error. |
| Coordinator.SimulationFinished | qt_app/main_window.py:685-690 | No run, worker or start time remains. The snapshot, lock, worker count and status line are unchanged. |
| Coordinator.SystemModeChanged | qt_app/main_window.py:548-567 | The system mode becomes the normalised selection, and the pause is cleared in the window and the panel. In LIVE mode the timer is kept. The snapshot, lock and run guard are unchanged. |
| Coordinator.AutoEvalChanged | qt_app/main_window.py:570-586 | In LIVE mode, 1S and 2S run the timer at 1000 and 2000 ms. OFF always stops the timer, and in LIVE mode also clears the pause. The system mode, lock, run guard and snapshot are unchanged. |
| Coordinator.MainWindow.constructor | qt_app/main_window.py:60-85 | The new window is in the initial state: operator view, the side panel's system mode, nothing running, unlocked, timer stopped, zoom synced. It is consistent. |
| Coordinator.MainWindow.SyncZoomWidgetFromMode | qt_app/main_window.py:516-526 | Sets the zoom widget's range to the view's bounds and its value to the clamped stored zoom. Nothing else changes. |
| Coordinator.MainWindow.SetViewMode | qt_app/main_window.py:496-499 | Switches the view and re-syncs the zoom widget. |
| Coordinator.MainWindow.OnZoomChanged | qt_app/main_window.py:529-530 | Stores the zoom for the current view only. |
| Coordinator.MainWindow.StartSimulation | qt_app/main_window.py:622-633 | While running, it changes nothing. Otherwise it sets the run guard and the start time and creates exactly one worker carrying the config and the trigger. |
| Coordinator.MainWindow.OnAutoEvaluate | qt_app/main_window.py:589-599 | Starts an "auto" run only in LIVE mode, when not paused, while a snapshot is locked and nothing is running. Otherwise it changes nothing. |
| Coordinator.MainWindow.OnEvaluateClicked | qt_app/main_window.py:601-620 | While running, it only reports that a run is in progress. When unlocked, it starts a "manual_lock" run. When locked, it unlocks the panel and the snapshot without running. |
| Coordinator.MainWindow.OnSimulationDone | qt_app/main_window.py:636-677 | Replaces the latest snapshot, records the evaluation time, applies the auto-pause rule, then locks on a "manual_lock" trigger and shows the trigger's status line. |
| Coordinator.MainWindow.ShowSimulationOutcome | qt_app/main_window.py:660-677 | A "manual_lock" trigger locks the panel and the snapshot. Every trigger sets the status line of that trigger. |
| Coordinator.MainWindow.PauseAutoEvaluateIfSlow | qt_app/main_window.py:641-658 | A run longer than 1.5 s, in LIVE mode, with the auto-evaluation selector not OFF, pauses auto-evaluation and stops the timer. Otherwise nothing changes. |
| Coordinator.MainWindow.OnSimulationFailed | qt_app/main_window.py:680-682 | Only the status line changes, to the shortened failure text. |
| Coordinator.MainWindow.OnSimulationFinished | qt_app/main_window.py:685-690 | Clears the run guard, the start time and the worker. |
| Coordinator.MainWindow.OnSystemModeChanged | qt_app/main_window.py:548-567 | Sets the normalised system mode and clears the pause flag. The timer stops unless the new mode is LIVE. |
| Coordinator.MainWindow.OnAutoEvalChanged | qt_app/main_window.py:570-586 | Outside LIVE it only stops the timer. In LIVE mode, OFF stops the timer and clears the pause, 1S and 2S run the timer at 1000 and 2000 ms, and any other text changes nothing. |
| Coordinator.InitialIsConsistent | qt_app/main_window.py:60-85 | The initial window is consistent, idle and unlocked. |
| Coordinator.RunSlotsKeepConsistent | qt_app/main_window.py:589-599 | Start, timer tick and finish keep the window consistent. A worker exists exactly while running, the timer runs only in LIVE mode, and a lock needs a snapshot. |
| Coordinator.ClickKeepsConsistent | qt_app/main_window.py:601-620 | An Evaluate click keeps the window consistent. |
| Coordinator.CompletionKeepsConsistent | qt_app/main_window.py:636-677 | Completion keeps the window consistent. |
| Coordinator.FailureKeepsConsistent | qt_app/main_window.py:680-682 | A failure keeps the window consistent. |
| Coordinator.ModeChangeKeepsConsistent | qt_app/main_window.py:548-567 | A system mode change keeps the window consistent. |
| Coordinator.AutoEvalChangeKeepsConsistent | qt_app/main_window.py:570-586 | Changing the auto-evaluation selector keeps the window consistent. |
| Coordinator.ZoomSlotsKeepConsistent | qt_app/main_window.py:496-532 | Switching the view and changing the zoom keep the window consistent. |
| Coordinator.NoSecondRunWhileRunning | qt_app/main_window.py:596-604 | While running, neither a start request, a timer tick nor an Evaluate click starts another worker. The click only reports that a run is in progress. |
| Coordinator.StartLaunchesOneWorker | qt_app/main_window.py:622-633 | A start request on an idle window starts exactly one worker with the given config and trigger. It leaves the snapshot and the lock alone. |
| Coordinator.NextRunOnlyAfterFinish | qt_app/main_window.py:622-633 | After a start, a second request before finish starts nothing. The same request after finish starts a new worker. |
| Coordinator.AutoEvaluateAdmission | qt_app/main_window.py:589-599 | A timer tick starts an "auto" worker iff the window is in LIVE mode, not paused, locked and idle. Otherwise it changes nothing. |
| Coordinator.EvaluateClickLockCycle | qt_app/main_window.py:606-620 | On an idle window, a click starts a "manual_lock" worker when unlocked. When locked, it only unlocks: no run, and the same snapshot. |
| Coordinator.CompletionStoresSnapshot | qt_app/main_window.py:637-673 | Completion replaces the latest snapshot. A "manual_lock" trigger locks, and any other trigger keeps the lock as it was. The run guard and the worker are untouched. |
| Coordinator.AutoPauseRule | qt_app/main_window.py:650-658 | Auto-evaluation is paused with the timer stopped exactly on a slow LIVE run with auto-evaluation on. Otherwise both stay as they were. |
| Coordinator.FailureKeepsSnapshot | qt_app/main_window.py:680-682 | A failure changes nothing but the status line, which reports the failure. |
| Coordinator.FinishReleasesGuard | qt_app/main_window.py:685-690 | Finish releases the guard and drops the worker, and touches nothing else. |
| Coordinator.ModeChangeClearsPause | qt_app/main_window.py:558-563 | A mode change always clears the pause flag, leaves a system mode, and stops the timer outside LIVE. |
| Coordinator.LiveTextSelectsLive | qt_app/main_window.py:549-551 | The text "LIVE" selects LIVE mode. |
| Coordinator.SnapshotTextSelectsSnapshot | qt_app/main_window.py:549-553 | The text "SNAPSHOT", and an empty text, select SNAPSHOT mode. |
| Coordinator.AutoEvalIgnoredOutsideLive | qt_app/main_window.py:571-573 | Outside LIVE mode the auto-evaluation selector only stops the timer. |
| Coordinator.DoubleClickStartsOneRun | qt_app/main_window.py:601-633 | Two clicks on a new window start one run, and the second only reports that a run is in progress. |
| Coordinator.LockThenUnlock | qt_app/main_window.py:601-690 | A click, completion and finish lock the window on the new snapshot. A further click unlocks it without a second run. |
| EvaluationWorker.TelemetryOr | qt_app/evaluation_worker.py:68-75 | A telemetry value present in the frame wins over the override's entry. When the frame and the override both lack the key, the result is the documented default. |
| EvaluationWorker.MergeField | qt_app/evaluation_worker.py:68-75 | One assignment adds exactly its key. The key holds the converted telemetry-or-config value. A conversion failure, or an earlier one, yields no override. |
| EvaluationWorker.Override | qt_app/evaluation_worker.py:66-67 | An empty telemetry frame leaves the config unchanged. |
| EvaluationWorker.AssignField | qt_app/evaluation_worker.py:68-75 | The in-place assignment computes the value of one merge step. |
| EvaluationWorker.BuildOverride | qt_app/evaluation_worker.py:66-75 | The eight successive assignments compute the specified override, and stop at the first conversion that raises. |
| EvaluationWorker.HitFraction | qt_app/evaluation_worker.py:100 | P_hit is 0 without positive samples. Otherwise P_hit · n = hits, and P_hit lies in [0, 1] when 0 ≤ hits ≤ n. |
| EvaluationWorker.MissionMode | qt_app/evaluation_worker.py:125-127 | The mission mode is always TACTICAL or HUMANITARIAN. It is HUMANITARIAN exactly when the normalised text is HUMANITARIAN. |
| EvaluationWorker.MissionText | qt_app/evaluation_worker.py:125 | A missing mission_mode reads "TACTICAL" and a text reads as itself. Only a number, list or dict has no spelled-out text in the model. |
| EvaluationWorker.PacketMission | qt_app/evaluation_worker.py:125-127 | The mode is TACTICAL or HUMANITARIAN, and HUMANITARIAN exactly when the config text normalises to it. A number, list or dict gives TACTICAL. |
| EvaluationWorker.DecisionFields | qt_app/evaluation_worker.py:128-151 | The packet carries every key the EVALUATION contract requires, with the decision, P_hit = p_hat, the interval, n, the threshold, the doctrine and the mission mode. |
| EvaluationWorker.Packet | qt_app/evaluation_worker.py:128-151 | The decision fields appear unchanged in the full packet. |
| EvaluationWorker.ReadInputs | qt_app/evaluation_worker.py:91-105 | A result without hits or n_samples crashes the worker. A successful read holds the integer counts, cep50 (0 for a missing or falsy entry), threshold_pct (75 by default) and the normalised doctrine (BALANCED by default). |
| EvaluationWorker.Interval | qt_app/evaluation_worker.py:110 | The 95 % Wilson interval is ordered and lies within [0, 1]. |
| EvaluationWorker.Decide | qt_app/evaluation_worker.py:110-151 | A packet is emitted exactly when the doctrine accepts its inputs; otherwise the cycle crashes. The packet's mission_mode is the normalised config mission mode when that is TACTICAL or HUMANITARIAN, and TACTICAL otherwise. |
| EvaluationWorker.Evaluate | qt_app/evaluation_worker.py:91-151 | Once the engine has returned, a packet is emitted exactly when every read succeeds and the doctrine accepts. The cycle is never skipped here, and missing hits or n_samples crash it. |
| EvaluationWorker.Cycle | qt_app/evaluation_worker.py:57-151 | A failed override crashes the cycle. A missing engine result skips it, and only that skips it. Otherwise the outcome is that of evaluating the returned snapshot. |
| EvaluationWorker.RunCycle | qt_app/evaluation_worker.py:57-151 | One loop pass computes the specified cycle. Every packet it emits passes the snapshot validator. |
| EvaluationWorker.OverrideSteps | qt_app/evaluation_worker.py:68-75 | An override that succeeds on a non-empty frame is the result of eight successful merge steps in source order. |
| EvaluationWorker.OverrideKeys | qt_app/evaluation_worker.py:66-75 | With a non-empty frame, the override's keys are exactly the config's keys plus the eight telemetry keys. |
| EvaluationWorker.OverrideKeepsOtherKeys | qt_app/evaluation_worker.py:66-75 | Every config key outside the eight telemetry keys keeps its config value. |
| EvaluationWorker.OverrideValues | qt_app/evaluation_worker.py:66-75 | Each of the eight override keys holds float() of its telemetry value (uav_x from x, uav_altitude from z, and so on), else of the config's value for that key, else its default: 0, 0, 100, 20, 0, 2, 0 and 0.8. |
| EvaluationWorker.OverrideTelemetryValuesAreNumbers | qt_app/evaluation_worker.py:68-75 | Each of the eight telemetry keys holds a float. |
| EvaluationWorker.EmptyTelemetryKeepsConfig | qt_app/evaluation_worker.py:66-89 | With an empty frame, the engine runs on the config itself. |
| EvaluationWorker.EngineFailureEmitsNothing | qt_app/evaluation_worker.py:84-89 | An engine exception skips the emit for that cycle. |
| EvaluationWorker.MissingCountsCrash | qt_app/evaluation_worker.py:94-97 | A result lacking hits or n_samples is an invariant violation that ends the worker. |
| EvaluationWorker.EmittedPacketValidates | qt_app/evaluation_worker.py:128-151 | Every emitted packet is accepted by the snapshot validator. |
| EvaluationWorker.EmittedDecision | qt_app/evaluation_worker.py:98-151 | For an emitted packet, P_hit = p_hat = hits / n (0 for no samples) and the interval lies within [0, 1]. The decision is the doctrine's verdict on the Wilson interval at threshold_pct / 100 and is a decision label. The mission mode is TACTICAL or HUMANITARIAN. |
| EvaluationWorker.DecidedPacket | qt_app/evaluation_worker.py:120-136 | Once the doctrine accepts and the config has no mission mode, the packet is emitted with the doctrine's decision. |
| EvaluationWorker.ConfigDefaults | qt_app/evaluation_worker.py:104-105 | A config without threshold_pct or doctrine_mode reads 75 % and BALANCED. |
| EvaluationWorker.BalancedVerdict | qt_app/evaluation_worker.py:110-120 | At 75 % with BALANCED and enough samples, the verdict is the raw P_hit ≥ 0.75 rule. |
| EvaluationWorker.DefaultConfigDropsAtSeventyFive | qt_app/evaluation_worker.py:91-151 | With the default config, numeric counts and enough samples, a packet is emitted. It says DROP exactly when hits / n ≥ 0.75, and NO DROP otherwise. |
| AdvisoryLayer.EngineKeysListed | product/guidance/advisory_layer.py:12-22 | Names the nine config attributes that every engine run saves and restores. |
| AdvisoryLayer.HitInRange | product/guidance/advisory_layer.py:56-58 | A hit probability the engine returns lies in [0, 1]. |
| AdvisoryLayer.ResolveThreshold | product/guidance/advisory_layer.py:115-125 | A numeric policy is accepted exactly when it lies in [0, 1], and is then returned as is. Otherwise the numeric policy raises ValueError. A bool counts as 0 or 1. A string is looked up in MODE_THRESHOLDS after stripping and raises KeyError when it is missing. Any other type raises TypeError. Every accepted threshold lies in [0, 1]. |
| AdvisoryLayer.Saved | product/guidance/advisory_layer.py:35-38 | The saved map holds exactly the nine engine keys with the config's values. |
| AdvisoryLayer.EngineRun | product/guidance/advisory_layer.py:25-66 | A config lacking an engine key raises AttributeError and stays unchanged. A successful run reports the engine's probability on the config with the inputs applied, and needs target_pos and target_radius among the inputs. Its decision is DROP iff P_hit ≥ threshold. A failed run ends in AttributeError, EngineError or KeyError. |
| AdvisoryLayer.RunRestoresConfig | product/guidance/advisory_layer.py:35-66 | After a run, on any outcome, every engine key has its old value, and every key the inputs do not set is unchanged. A non-engine key written by the inputs keeps the input's value. |
| AdvisoryLayer.RunLeavesConfigUnchanged | product/guidance/advisory_layer.py:35-66 | When the inputs set only engine keys, the config after a run equals the config before it. |
| AdvisoryLayer.ConfigModule.SetAll | product/guidance/advisory_layer.py:39-40 | Writes every item into the config module, which is left equal to the old attributes overridden by the items. |
| AdvisoryLayer.RunEngineForInputs | product/guidance/advisory_layer.py:25-66 | The save loop, the writes, the run and the restore compute the specified run result and the restored config. |
| AdvisoryLayer.Delta | product/guidance/advisory_layer.py:169-173 | A missing step defaults to 5 m. A numeric step is accepted exactly when it is positive. Every accepted step is positive. |
| AdvisoryLayer.Prepare | product/guidance/advisory_layer.py:168-177 | A threshold error comes first and a step error second. On success the base is the exported scenario, its uav_pos has at least three numeric coordinates, and the threshold and step are the resolved ones. `exported` is any dictionary, more general than the three-float uav_pos that export_engine_inputs yields. |
| AdvisoryLayer.MovedTo | product/guidance/advisory_layer.py:183-184 | A neighbour scenario replaces only uav_pos, with the given coordinates. |
| AdvisoryLayer.Neighbours | product/guidance/advisory_layer.py:183-205 | The four neighbours are, in order, (x+δ, y, z), (x−δ, y, z), (x, y+δ, z) and (x, y−δ, z). |
| AdvisoryLayer.NeighboursAreOneStepAway | product/guidance/advisory_layer.py:183-205 | Each neighbour lies one step δ away along x or y, at the same height. |
| AdvisoryLayer.Sample | product/guidance/advisory_layer.py:179-205 | The current-position run is the engine run on the base scenario. |
| AdvisoryLayer.Trend | product/guidance/advisory_layer.py:207-225 | The summary "varies" iff some neighbour is better and some worse. "Improves" iff some are better and none worse. "Degrades" iff none are better and some worse. "Similar" iff none are either. |
| AdvisoryLayer.Pick | product/guidance/advisory_layer.py:229-232 | A direction is listed iff its probability is strictly better (for improvements) or strictly worse (for degradations) than the current one. |
| AdvisoryLayer.Directions | product/guidance/advisory_layer.py:227-244 | Each of the four directions is listed iff it is strictly better (or worse) than the current position. Only those four names appear, in the order forward, backward, right, left. |
| AdvisoryLayer.Suggestion | product/guidance/advisory_layer.py:246-253 | With no improvements, the suggestion is the fixed no-recommendation text. Otherwise it starts with "Consider moving ". |
| AdvisoryLayer.Summarise | product/guidance/advisory_layer.py:255-263 | The result carries the current position's decision, P_hit and CEP50. |
| AdvisoryLayer.Advisory | product/guidance/advisory_layer.py:168-177 | A threshold, step or scenario error raises before any engine run, and leaves the config untouched. |
| AdvisoryLayer.EvaluateAdvisory | product/guidance/advisory_layer.py:152-263 | Five engine runs in source order, then the trend and the appended direction lists, compute the specified advisory and the final config. |
| AdvisoryLayer.Compare | product/guidance/advisory_layer.py:229-232 | One comparison appends the direction to exactly the list the strict comparison selects, or to neither. |
| AdvisoryLayer.SortDirections | product/guidance/advisory_layer.py:227-244 | The four appends build exactly the specified improvement and degradation lists. |
| AdvisoryLayer.DirectionsExclusive | product/guidance/advisory_layer.py:229-244 | No direction is both an improvement and a degradation. |
| AdvisoryLayer.TrendAgreesWithDirections | product/guidance/advisory_layer.py:207-244 | The trend is "varies", "improves", "degrades" or "similar" exactly as the two direction lists are both non-empty, only improvements, only degradations, or both empty. |
| AdvisoryLayer.AdvisoryRestoresConfig | product/guidance/advisory_layer.py:35-205 | When the exported scenario holds only engine keys, the advisory leaves the config module as it found it, on every outcome. |
| AdvisoryLayer.CurrentFeasibility | product/guidance/advisory_layer.py:179-258 | A completed advisory reports the engine's probability at the current position, which lies in [0, 1]. Its feasibility is DROP iff that probability reaches the resolved threshold. |
| GeometryValidation.RequiredKeys | product/payloads/geometry_validation.py:31-52 | Required keys exist exactly for the five geometry types that have a drag-coefficient interval. |
| GeometryValidation.MissingKeys | product/payloads/geometry_validation.py:98-101 | A key is reported missing iff it is required and absent from the dimensions. |
| GeometryValidation.ValidateGeometry | product/payloads/geometry_validation.py:6-54 | The dimensions are accepted (True) iff all of these hold: they are a dict; every value is a non-negative number or a bool; the type is known; every required key is present. A non-dict raises first. A bad value raises before the type or the keys are looked at. |
| GeometryValidation.ValidateAerodynamics | product/payloads/geometry_validation.py:56-96 | Cd is accepted (True) iff the type is one of the five and Cd lies in that type's closed interval. An unknown type raises. |
| GeometryValidation.ExtraKeysAllowed | product/payloads/geometry_validation.py:31-54 | Adding further valid dimensions to accepted geometry keeps it accepted. |
| GeometryValidation.ZeroAllowedNegativeRejected | product/payloads/geometry_validation.py:25-29 | A zero dimension is allowed, and a negative one is rejected. |
| GeometryValidation.SphereNeedsDiameter | product/payloads/geometry_validation.py:31-101 | A sphere given only a radius is missing diameter_m. A sphere given diameter_m passes. |
| GeometryValidation.SphereCdBounds | product/payloads/geometry_validation.py:78-92 | A sphere Cd of 0.5 passes, and 0.1 is out of bounds. |
| Exceptions.PositiveFloat | product/payloads/payload_base.py:21-23 | A value is accepted iff float() converts it to a positive number, which is returned. A conversion error propagates, and a non-positive number raises ValueError. |
| PayloadBase.Construct | product/payloads/payload_base.py:7-13 | A payload is built iff mass, drag coefficient and reference area are all positive floats, and it holds exactly those values. The setters run in that order, so the mass's error is reported first and the drag coefficient's second. |
| PayloadBase.Payload.constructor | product/payloads/payload_base.py:8-10 | All three fields start as None. |
| PayloadBase.Payload.SetMass | product/payloads/payload_base.py:19-24 | Stores the converted mass iff it is positive. A rejected value raises and leaves the field as it was. The other fields are untouched, and a valid payload stays valid. |
| PayloadBase.Payload.SetDragCoefficient | product/payloads/payload_base.py:30-35 | The same rule as the mass setter, for the drag coefficient. |
| PayloadBase.Payload.SetReferenceArea | product/payloads/payload_base.py:41-46 | The same rule as the mass setter, for the reference area. |
| PayloadBase.NewPayload | product/payloads/payload_base.py:7-13 | The constructor fails exactly as the value-level construction does. On success it yields a fresh, valid payload holding the converted values. |
| SimpleShapes.Floats3 | product/payloads/simple_shapes.py:13-15 | The three conversions succeed together or report the first failure. |
| SimpleShapes.BoxReferenceArea | product/payloads/simple_shapes.py:11-18 | A box is accepted iff length, width and height are all positive, and its area is then length × width (positive). Otherwise the conversion error, or ValueError. |
| SimpleShapes.CylinderReferenceArea | product/payloads/simple_shapes.py:26-32 | A cylinder is accepted iff radius and height are positive, and its area is then π r². |
| SimpleShapes.SphereReferenceArea | product/payloads/simple_shapes.py:40-45 | A sphere is accepted iff its radius is positive, and its area is then π r². |
| SimpleShapes.BoxParams | product/payloads/simple_shapes.py:3-55 | A valid box gets its area and the constant drag coefficient 1.2. |
| SimpleShapes.CylinderParams | product/payloads/simple_shapes.py:4-60 | A valid cylinder gets its area and the constant drag coefficient 1.0. |
| SimpleShapes.SphereParams | product/payloads/simple_shapes.py:5-65 | A valid sphere gets its area and the constant drag coefficient 0.47. |
| SimpleShapes.CylinderAreaIsSphereArea | product/payloads/simple_shapes.py:26-45 | A cylinder presents the same area as a sphere of its radius, whatever its height. |
| SimpleShapes.BoxAreaIgnoresHeight | product/payloads/simple_shapes.py:11-18 | A box's area does not depend on its height. |
| SimpleShapes.ParamsPositive | product/payloads/simple_shapes.py:53-65 | Every shape's reference area and drag coefficient are positive. |
| PayloadFactory.ShapeName | product/payloads/payload_factory.py:12 | A shape given as text is stripped and lower-cased. |
| PayloadFactory.ShapeParams | product/payloads/payload_factory.py:17-40 | "box" needs length, width and height, "cylinder" needs radius and height, and "sphere" needs radius. A missing one raises ValueError. Otherwise the shape's parameters are computed. Any other name raises ValueError. |
| PayloadFactory.CreatePayload | product/payloads/payload_factory.py:5-46 | The mass is converted and checked before the shape: a conversion error or a non-positive mass is reported first. A payload results iff the mass is positive and the shape's parameters are valid, and it holds (mass, the shape's Cd, the shape's area). |
| PayloadFactory.CreatedPayloadIsValid | product/payloads/payload_factory.py:42-46 | The factory's values are all positive, so the Payload constructor accepts them unchanged. |
| PayloadFactory.CreatePayloadObject | product/payloads/payload_factory.py:5-46 | Fails exactly when the factory's values do. Otherwise it returns a fresh, valid Payload holding them. |
| PayloadLibrary.GetArchetype | product/ui/tabs/payload_library.py:239-242 | An entry is returned iff the index lies inside the catalogue, and it is the entry at that index. Otherwise None. |
| PayloadLibrary.Matching | product/ui/tabs/payload_library.py:248-251 | Lists exactly the entries from the start index on whose category starts with the key, paired with their indices, in catalogue order. |
| PayloadLibrary.PayloadsForCategory | product/ui/tabs/payload_library.py:245-251 | An (index, entry) pair is listed iff the entry's category starts with the text before the first " / ". Pairs appear in catalogue order. |
| PayloadLibrary.Dim | product/ui/tabs/payload_library.py:323-325 | A dimension counts iff it is entered and non-zero. |
| PayloadLibrary.UiDims | product/ui/tabs/payload_library.py:326-358 | An unknown geometry type needs no dimensions. |
| PayloadLibrary.AreaAndVolume | product/ui/tabs/payload_library.py:321-358 | Area and volume are derived together or not at all. |
| PayloadLibrary.DerivedIffDimsGiven | product/ui/tabs/payload_library.py:321-358 | Area and volume are derived exactly when the type is one of the five and every dimension it needs is entered and non-zero. |
| PayloadLibrary.SphereAreaIsCrossSection | product/ui/tabs/payload_library.py:326-330 | A sphere's area is its cross-section π r², with π = 3.14159. |
| PayloadLibrary.BoxAreaIsLargestFace | product/ui/tabs/payload_library.py:337-343 | A box's area is its largest face, and its volume is l·w·h. |
| PayloadLibrary.HalfMetreBox | tests/test_payload_library.py:86-93 | A 1 × 0.5 × 0.5 box has area 0.5. |
| PayloadLibrary.DerivedPhysics | product/ui/tabs/payload_library.py:312-363 | Area and volume are derived iff a geometry type and dimensions are set and the geometry yields them. Density is set iff mass and volume are both non-zero, and then density · volume = mass. |
| PayloadLibrary.Synced | product/ui/tabs/payload_library.py:293-310 | Selecting an entry records its index and resets mass, geometry, dimensions, Cd, area, uncertainty, the manual flag, the source ("Literature") and the safe speed. It keeps the volume and the density. |
| PayloadLibrary.Updated | product/ui/tabs/payload_library.py:365-392 | Stores the derived values. A Cd already set is kept. An unset Cd with a known geometry becomes that geometry's suggestion, and is otherwise left unset. The uncertainty is 0.05 for a sphere, 0.10 for a capsule, 0.15 for a cylinder or blunt cone, 0.20 for a box, and 0.10 for no or another geometry. Nothing else changes. |
| PayloadLibrary.SchemaDims | product/ui/tabs/payload_library.py:446-488 | Exported dimensions are numbers. A sphere's radius becomes diameter_m = 2r. An unknown or unset geometry exports no dimensions. |
| PayloadLibrary.BallisticCoefficient | product/ui/tabs/payload_library.py:430-439 | The coefficient is set iff mass, area and Cd are all non-zero, and then BC · (Cd · A) = mass. |
| PayloadLibrary.PayloadConfig | product/ui/tabs/payload_library.py:429-514 | Exports exactly the nine configuration keys. Name and category come from the selected entry, or "Custom Payload" and "Custom" when none is selected. The state's mass, area, Cd and source are exported with the ballistic coefficient and the geometry in the validation schema. |
| PayloadLibrary.FirstNamed | product/ui/tabs/payload_library.py:416-419 | Finds the first saved configuration with the given name, or reports that there is none. |
| PayloadLibrary.Upsert | product/ui/tabs/payload_library.py:415-423 | Saving replaces the first configuration with the same name and keeps every other entry. With no such configuration, it appends. |
| PayloadLibrary.UpsertIdempotent | product/ui/tabs/payload_library.py:415-423 | Saving the same configuration twice gives the same list as saving it once. |
| PayloadLibrary.SuggestedCdValidates | product/ui/tabs/payload_library.py:375-500 | Every suggested Cd passes the aerodynamics validation for its geometry. |
| PayloadLibrary.EnteredDimsValidate | product/ui/tabs/payload_library.py:446-498 | Entering every dimension a geometry needs, none negative, exports dimensions that pass the geometry validation. |
| PayloadLibrary.RequiredKeysExported | product/ui/tabs/payload_library.py:446-488 | Every key the geometry validation requires is exported once the builder's dimensions are entered. |
| PayloadLibrary.ExportedDimsNonNegative | product/ui/tabs/payload_library.py:446-488 | Non-negative entries export non-negative dimensions. |
| PayloadLibrary.PayloadLibraryTab.constructor | product/ui/tabs/payload_library.py:257-271 | The builder starts with nothing selected and nothing entered. |
| PayloadLibrary.PayloadLibraryTab.SyncStateFromArchetype | product/ui/tabs/payload_library.py:293-310 | The key-by-key reset leaves exactly the specified selection state. |
| PayloadLibrary.PayloadLibraryTab.UpdateCalculations | product/ui/tabs/payload_library.py:365-392 | The key-by-key update leaves exactly the specified recalculated state. |
| PayloadLibrary.PayloadLibraryTab.SaveConfig | product/ui/tabs/payload_library.py:397-426 | Nothing is written when the mass is falsy. Otherwise the list written is the loaded list with the configuration saved into it. |
| PayloadLibrary.SyncClearsDerivedValues | product/ui/tabs/payload_library.py:293-392 | After selecting an entry and recalculating, nothing is derived or suggested, the uncertainty is 0.10 and no ballistic coefficient is exported. |
| PayloadLibrary.BuilderFlow | tests/test_payload_library.py:40-79 | Select the first entry and enter a 10 kg sphere of radius 0.1. The result has area π·0.01, Cd 0.47, mass 10, source "Literature" and an exported diameter_m of 0.2. |
| PayloadLibrary.SwitchToBox | tests/test_payload_library.py:86-94 | Switching to a 1 × 0.5 × 0.5 box with Cd cleared derives area 0.5 and suggests Cd 1.15. |
| TargetManager.Construct | product/missions/target_manager.py:7-31 | A target is built iff the first two position entries convert to floats and the radius is a positive float. It then holds the two coordinates and the radius. A position error is reported before the radius is looked at. |
| TargetManager.Target.constructor | product/missions/target_manager.py:8-9 | Position and radius start as None. |
| TargetManager.Target.SetPosition | product/missions/target_manager.py:17-20 | Stores (float(v[0]), float(v[1])) iff both convert. Otherwise it raises the first conversion's error and leaves the field as it was. The radius is untouched. |
| TargetManager.Target.SetRadius | product/missions/target_manager.py:26-31 | Stores the radius iff it is a positive float. Otherwise it raises and keeps the old value. The position is untouched. |
| TargetManager.NewTarget | product/missions/target_manager.py:7-11 | Construction fails exactly as the value-level construction does. Otherwise it returns a fresh, valid target holding its values. |
| TargetManager.NonPositiveRadiusRejected | product/missions/target_manager.py:29-30 | A radius ≤ 0 is rejected, with ValueError once the position converts. |
| Environment.Construct | product/missions/environment.py:7-31 | An environment is built iff the three wind components convert to floats and wind_std is a non-negative float. It then holds those values. A wind error is reported first. |
| Environment.Environment.constructor | product/missions/environment.py:8-9 | Both fields start as None. |
| Environment.Environment.SetWindMean | product/missions/environment.py:17-20 | Stores the three converted components iff all convert. Otherwise it raises and keeps the old value. wind_std is untouched. |
| Environment.Environment.SetWindStd | product/missions/environment.py:26-31 | Stores wind_std iff it is a non-negative float. Otherwise it raises and keeps the old value. The wind mean is untouched. |
| Environment.NewEnvironment | product/missions/environment.py:7-11 | Construction fails exactly as the value-level construction does. Otherwise it returns a fresh, valid environment. |
| Environment.ZeroDeviationAllowed | product/missions/environment.py:29-30 | A zero wind deviation is accepted, and a negative one raises ValueError. |
| MissionState.Vector | product/missions/mission_state.py:63-64 | A tuple of floats as a list value of the same length and entries. |
| MissionState.OptVector | product/missions/mission_state.py:101-103 | An unset component vector exports as None. |
| MissionState.MissionState.constructor | product/missions/mission_state.py:12-16 | All five components start as None. |
| MissionState.MissionState.SetPayload | product/missions/mission_state.py:27-31 | None raises ValueError and changes nothing. Otherwise only the payload is set. |
| MissionState.MissionState.SetTarget | product/missions/mission_state.py:37-41 | None raises ValueError and changes nothing. Otherwise only the target is set. |
| MissionState.MissionState.SetEnvironment | product/missions/mission_state.py:47-51 | None raises ValueError and changes nothing. Otherwise only the environment is set. |
| MissionState.MissionState.SetUavPosition | product/missions/mission_state.py:57-64 | Stores three floats iff the value is a three-element sequence of numbers. None, a wrong length or a failed conversion raises and leaves the field as it was. |
| MissionState.MissionState.SetUavVelocity | product/missions/mission_state.py:70-77 | The same rule as the UAV position, for the velocity. |
| MissionState.MissionState.Validate | product/missions/mission_state.py:79-90 | Passes iff all five components are set. Otherwise it names the first unset one in the order payload, target, environment, uav_position, uav_velocity. |
| MissionState.MissionState.ExportEngineInputs | product/missions/mission_state.py:92-108 | Raises ValueError exactly when validation fails. Otherwise it returns the nine engine inputs read from the components. |
| MissionState.EngineInputs | product/missions/mission_state.py:98-108 | The exported keys are exactly the nine keys the advisory layer saves and restores. |
| MissionState.ReadyExportIsComplete | product/missions/mission_state.py:92-108 | A mission built from valid parts exports three-component UAV position, velocity and wind, a two-component target position, a positive radius, mass, area and Cd, and a non-negative wind deviation. |
| MissionState.NewMissionState | product/missions/mission_state.py:11-21 | Construction succeeds iff payload, target and environment are given and both UAV vectors are valid triples. A missing component raises ValueError. A constructed state validates and holds the given parts. |
| UavState.Vec3Of | product/integrations/uav_state.py:19-28 | Three conversions made left to right give the vector iff all succeed, otherwise the first error. |
| UavState.ElementsOf | product/integrations/uav_state.py:19-23 | The vector holds float(v[0]), float(v[1]) and float(v[2]) iff all three convert. |
| UavState.MakeSnapshot | product/integrations/uav_state.py:17-28 | A snapshot is built iff the time and the first three elements of each vector convert. It holds the converted time. A time error is raised first. |
| UavState.AltitudeIsThirdPositionElement | product/integrations/uav_state.py:10-44 | The altitude is the third position element given. A longer position keeps only its first three elements. |
| UavState.FloatsStoredAsGiven | product/integrations/uav_state.py:17-40 | A snapshot built from floats holds exactly those floats. |
| TelemetryIngest.FloatGet | product/integrations/telemetry_ingest.py:29-37 | Converts the entry when present, and the default otherwise. |
| TelemetryIngest.ParseTime | product/integrations/telemetry_ingest.py:18-23 | time_s is converted when set. Otherwise time_boot_ms / 1000 is used (t · 1000 = ms), and 0 when neither is set. |
| TelemetryIngest.FromKeys | product/integrations/telemetry_ingest.py:28-61 | A missing x reads 0. A missing z falls back to the altitude when that is given. |
| TelemetryIngest.ReadVector | product/integrations/telemetry_ingest.py:24-61 | A list of at least three under the key gives its first three elements. A dict under the key gives its named components. Anything else reads the update's flat keys. |
| TelemetryIngest.ParseUavState | product/integrations/telemetry_ingest.py:9-71 | A snapshot passes through unchanged, and a non-dict raises TypeError. For a dict, the result is the parsed time, position (z falling back to altitude) and velocity. Only TypeError or ValueError can be raised. |
| TelemetryIngest.ParseAsDictRoundTrip | product/integrations/telemetry_ingest.py:9-71 | Parsing a snapshot written out as {time_s, position, velocity} gives the snapshot back. |
| TelemetryIngest.FlatUpdateWithAltitude | product/integrations/telemetry_ingest.py:18-61 | A flat update with boot time in ms and an altitude gives time ms / 1000, z = altitude, and 0 for the missing fields. |
| TelemetryIngest.DefaultParse | product/integrations/telemetry_ingest.py:81-82 | The default parser returns the parsed snapshot, and it raises only exceptions the stream catches. |
| TelemetryIngest.IngestStream | product/integrations/telemetry_ingest.py:74-89 | The stream never yields more snapshots than it received updates. |
| TelemetryIngest.IngestYieldsParsedUpdates | product/integrations/telemetry_ingest.py:83-87 | Everything yielded is the parse of one of the updates. |
| TelemetryIngest.IngestRaisesOnlyUncaught | product/integrations/telemetry_ingest.py:84-89 | The stream ends early exactly when some parse raises something other than TypeError, ValueError or KeyError. |
| TelemetryIngest.IngestKeepsEveryParsedUpdate | product/integrations/telemetry_ingest.py:83-87 | When every update parses to a snapshot, all of them are yielded, in order. |
| TelemetryIngest.IngestConcat | product/integrations/telemetry_ingest.py:83-89 | The stream works item by item: ingesting a + b yields a's results followed by b's. |
| TelemetryIngest.DefaultIngestNeverRaises | product/integrations/telemetry_ingest.py:81-89 | With the default parser the stream never ends early, and snapshots pass through unchanged and in order. |
| MavlinkAdapter.Field | product/integrations/mavlink_adapter.py:20-27 | A missing field reads 0.0. A present field is float() of its value, which may raise. |
| MavlinkAdapter.Scaled | product/integrations/mavlink_adapter.py:21-45 | Division by a unit factor succeeds iff the conversion did. The quotient times the factor gives back the converted value, and an error passes through unchanged. |
| MavlinkAdapter.FromLocalPositionNed | product/integrations/mavlink_adapter.py:15-28 | A snapshot is produced iff the time and all six fields convert. Its time times 1000 is time_boot_ms, and position and velocity are x/y/z and vx/vy/vz as given. |
| MavlinkAdapter.Number | product/integrations/mavlink_adapter.py:46-50 | A reference coordinate is usable iff it is a number (or bool). Anything else raises TypeError. |
| MavlinkAdapter.Project | product/integrations/mavlink_adapter.py:47-51 | The north offset is 111320 m per degree of latitude, as y. The east offset is shrunk by the cosine of the reference latitude in radians, as x. z is the altitude. |
| MavlinkAdapter.GlobalReadings | product/integrations/mavlink_adapter.py:31-45 | The readings are time in s from ms, lat and lon in degrees from 1e7 degrees, the altitude (alt, else relative_alt) in m from mm, and the velocities in m/s from cm/s. |
| MavlinkAdapter.FromGlobalPositionInt | product/integrations/mavlink_adapter.py:31-54 | Time comes from ms, the altitude (alt, else relative_alt) from mm and the velocities from cm/s. Without both references x = y = 0. With both, the position is the projection of lat/lon (1e7 degrees) around the reference. |
| MavlinkAdapter.MessageType | product/integrations/mavlink_adapter.py:63-64 | An explicit type wins. Otherwise _type is used, and "" when neither _type nor mavpacket_type is present. |
| MavlinkAdapter.MavlinkToUavState | product/integrations/mavlink_adapter.py:57-71 | The local parser is used when the type is LOCAL_POSITION_NED or x, y, z and vx are present. Failing that, the global parser (with the message's _ref_lat_deg/_ref_lon_deg) is used for GLOBAL_POSITION_INT or lat/lon present. The local parser is the fallback. |
| MavlinkAdapter.ReferenceIsOrigin | product/integrations/mavlink_adapter.py:46-51 | The reference point projects to the origin at its altitude. One degree north is 111320 m along y. |
| MavlinkAdapter.LocalRoundTrip | product/integrations/mavlink_adapter.py:15-66 | Any snapshot written as a LOCAL_POSITION_NED dict (time in ms) translates back to itself. |
| MavlinkAdapter.GlobalWithoutReference | product/integrations/mavlink_adapter.py:37-70 | A lat/lon message without a reference lies above the origin at alt/1000 m, with velocities divided by 100 and missing ones 0. |
| LogReplay.ParseFloat | product/integrations/log_replay.py:15-129 | float() of a cell: text goes through the number parser and raises ValueError when that fails. Other values convert as float() does. Only ValueError or TypeError is raised. |
| LogReplay.Caught | product/integrations/log_replay.py:98-140 | A conversion wrapped in try/except yields a value iff it succeeded, and then exactly that value. |
| LogReplay.FirstWhere | product/integrations/log_replay.py:29-59 | next() over the header gives the first index satisfying the test, or None when no index does. |
| LogReplay.FirstNamed | product/integrations/log_replay.py:44-68 | The first header field whose stripped, lower-cased form is the name. None iff no field matches. |
| LogReplay.FirstNamedAt | product/integrations/log_replay.py:44-47 | The first matching field at index i is the one found. |
| LogReplay.Pick | product/integrations/log_replay.py:41-50 | For one suffix, the prefixes are tried in order and the field found is a header field. |
| LogReplay.PickNone | product/integrations/log_replay.py:42-49 | Nothing is found for a suffix iff no prefix names a field with it. |
| LogReplay.FirstSome | product/integrations/log_replay.py:42-50 | The first present result over a list is one of the list's results. |
| LogReplay.FirstSomeIsFirst | product/integrations/log_replay.py:42-50 | That result belongs to an index before which every result is absent. |
| LogReplay.PickIsFirstSome | product/integrations/log_replay.py:42-50 | The for/else/break nest picks the first prefix that names a field. |
| LogReplay.PickIsFirstMatch | product/integrations/log_replay.py:42-50 | The field picked for a suffix comes from a prefix k, and no earlier prefix names any field. |
| LogReplay.Picked | product/integrations/log_replay.py:40-50 | `out` holds at most one field per suffix. |
| LogReplay.Xyz | product/integrations/log_replay.py:51 | find_xyz returns a list only when it holds exactly three fields. |
| LogReplay.PickField | product/integrations/log_replay.py:42-50 | The nested loops over prefixes and fields compute the same field as the first-match definition. |
| LogReplay.FindXyz | product/integrations/log_replay.py:39-51 | The loop over suffixes computes find_xyz's result. |
| LogReplay.AsKeys | product/integrations/log_replay.py:61-63 | Three keys in the order given. |
| LogReplay.PositionKeys | product/integrations/log_replay.py:53-63 | Position keys found by search are header fields. None is left only for headers shorter than six. |
| LogReplay.VelocityKeys | product/integrations/log_replay.py:64-74 | A header of at least seven fields always gives header fields. A first key not in the header means the literal fallback "vx", "vy", "vz". |
| LogReplay.PickedInFields | product/integrations/log_replay.py:44-47 | Every field find_xyz collects is a header field. |
| LogReplay.ColumnsFor | product/integrations/log_replay.py:25-75 | ValueError iff no header field is a time candidate. Otherwise the time key is the first such field. |
| LogReplay.DetectCsvColumns | product/integrations/log_replay.py:25-75 | The detection computes the columns with the velocity prefixes velocity_ and v. |
| LogReplay.XyzAllPicked | product/integrations/log_replay.py:39-51 | When every suffix picks a field, find_xyz returns those three in suffix order. |
| LogReplay.PickBare | product/integrations/log_replay.py:53-64 | With "" as first prefix, a bare axis column wins over any prefixed one. |
| LogReplay.VelocityColumnsAsWritten | product/integrations/log_replay.py:53-64 | As written, a header with x, y, z gets those same columns as velocity. |
| LogReplay.PickedVelocityAxis | product/integrations/log_replay.py:64 | With the prefixes velocity_ and v, the field picked for an axis is a velocity column, never the bare axis. |
| LogReplay.CorrectedVelocityColumns | product/integrations/log_replay.py:64 | With a velocity column for each axis, all three velocity keys are velocity columns and none is x, y or z. |
| LogReplay.CellFloat | product/integrations/log_replay.py:15-21 | A missing cell reads 0.0, and a present one is float() of the cell. |
| LogReplay.Cells | product/integrations/log_replay.py:16-21 | Three cells convert iff each does, giving their values, with ValueError or TypeError otherwise. |
| LogReplay.ParseRowCsv | product/integrations/log_replay.py:13-100 | A row parses iff time, position and velocity cells all convert and the position keys exist. The snapshot holds exactly those values. |
| LogReplay.MissingCellsReadZero | product/integrations/log_replay.py:15-21 | A row lacking every detected column parses to time 0 at rest at the origin. |
| LogReplay.TimeFromRow | product/integrations/log_replay.py:91-95 | The sort key is the converted time, or 0.0 when conversion raises. |
| LogReplay.Kept | product/integrations/log_replay.py:97-140 | Skipping failed conversions keeps at most as many snapshots as items. |
| LogReplay.KeptBounded | product/integrations/log_replay.py:97-102 | When every item's key is at most b, every kept snapshot's time is at most b. |
| LogReplay.KeptSorted | product/integrations/log_replay.py:96-102 | Items sorted by a key that equals the time of their snapshot yield snapshots in time order. |
| LogReplay.KeptExactly | product/integrations/log_replay.py:97-140 | A snapshot is kept iff some item converts to it. |
| LogReplay.Collect | product/integrations/log_replay.py:97-140 | The loop with try/continue collects exactly the snapshots that converted. |
| LogReplay.ReplayCsv | product/integrations/log_replay.py:78-102 | A header-less file yields nothing. Failure happens iff column detection fails. There are never more snapshots than rows. |
| LogReplay.CsvReplayInTimeOrder | product/integrations/log_replay.py:80-96 | The CSV loader yields snapshots in non-decreasing time. |
| LogReplay.KeptOfPermutation | product/integrations/log_replay.py:96 | Reordering the items does not change which snapshots are kept. |
| LogReplay.KeptAfterSort | product/integrations/log_replay.py:96-102 | Sorting before converting keeps exactly the snapshots some item converts to. |
| LogReplay.CsvReplayKeepsParsedRows | product/integrations/log_replay.py:96-102 | With detected columns, a snapshot is yielded iff some row parses to it. |
| LogReplay.LoadReplayCsv | product/integrations/log_replay.py:78-102 | The loader computes the CSV replay result. |
| LogReplay.Frames | product/integrations/log_replay.py:112-113 | A list is used as is. For an object, "frames" is used, else "samples", else the object alone. Anything else raises AttributeError. |
| LogReplay.Elements | product/integrations/log_replay.py:134 | Iterating a list gives its items. A number, bool or None raises TypeError. Only a list yields objects. |
| LogReplay.Floats3 | product/integrations/log_replay.py:122-129 | Three float() conversions with defaults, giving exactly the converted values or ValueError/TypeError. |
| LogReplay.FramePosition | product/integrations/log_replay.py:120-124 | Reading a position raises only ValueError or TypeError. |
| LogReplay.FrameVelocity | product/integrations/log_replay.py:125-129 | Reading a velocity raises only ValueError or TypeError. |
| LogReplay.FrameWith | product/integrations/log_replay.py:117-130 | A frame's snapshot holds its converted time ("time_s", else "time", else 0), position and velocity. |
| LogReplay.ToSnapshotAsWritten | product/integrations/log_replay.py:117-131 | As written: time and position as in FrameWith. A frame without "velocity" reads vx, vy, vz from itself, each falling back to x, y, z; a dict under "velocity" reads its vx, vy, vz with the same fallbacks. Failures are ValueError or TypeError. |
| LogReplay.ToSnapshot | product/integrations/log_replay.py:117-131 | As corrected: a frame without a dict under "velocity" reads its own vx, vy, vz, each 0 when absent. A dict under "velocity" reads as written. Time and position as in FrameWith. |
| LogReplay.ReadingsAgree | product/integrations/log_replay.py:125-129 | The two readings give the same snapshot whenever the frame has "velocity", or has all of vx, vy and vz. |
| LogReplay.FrameSnapshot | product/integrations/log_replay.py:117-137 | An item yields a snapshot exactly when it is a dict whose conversion succeeds, and then it is that conversion's snapshot. |
| LogReplay.FlatFrameVelocityAsWritten | product/integrations/log_replay.py:125-127 | As written, a flat frame without velocity keys gets its velocity equal to its position. |
| LogReplay.FlatFrameExample | product/integrations/log_replay.py:117-130 | {"time_s": 1, "x": 5} moves at 5 m/s along x as written, and is at rest in the corrected model. |
| LogReplay.FlatFrameVelocity | product/integrations/log_replay.py:128-129 | In the model a frame without "velocity" reads vx, vy and vz (0 when absent) for its velocity. |
| LogReplay.NestedVelocityUnchanged | product/integrations/log_replay.py:125-127 | For frames with a "velocity" entry, the model and the code as written agree. |
| LogReplay.JsonFrames | product/integrations/log_replay.py:112-140 | An unusable top level raises AttributeError, and an empty frame list yields nothing. |
| LogReplay.ReplayJson | product/integrations/log_replay.py:105-143 | The JSON loader succeeds iff frame extraction does. It yields a permutation of the converted frames. |
| LogReplay.JsonReplayInTimeOrder | product/integrations/log_replay.py:108-141 | The snapshots come out in time order, and those with equal time stay in file order. |
| LogReplay.NonObjectItemsDropped | product/integrations/log_replay.py:118-137 | A list of non-objects replays as nothing. |
| LogReplay.KeptNone | product/integrations/log_replay.py:137 | When no item converts, nothing is kept. |
| LogReplay.LoadReplayJson | product/integrations/log_replay.py:105-143 | The loader computes the JSON replay result. |
| LogReplay.LastIndexOf | product/integrations/log_replay.py:154 | The last occurrence of a character, or -1, and no later occurrence exists. |
| LogReplay.Extension | product/integrations/log_replay.py:154 | splitext's extension is "" or a suffix of the path starting with its only dot and holding no slash. |
| LogReplay.JsonExtension | product/integrations/log_replay.py:154-156 | A name ending in a stem plus ".json" has the extension ".json". |
| LogReplay.HiddenJsonHasNoExtension | product/integrations/log_replay.py:154-158 | A file named just ".json" has no extension and goes to the CSV loader. |
| LogReplay.LoadReplay | product/integrations/log_replay.py:146-158 | A missing file raises FileNotFoundError. A ".json" extension in any case goes to the JSON loader, and anything else to the CSV loader. |
| StateBuffer.Window | product/integrations/state_buffer.py:44-64 | The history holds all the update times, at most the last ten. |
| StateBuffer.WindowStep | product/integrations/state_buffer.py:62-64 | Appending a time and popping the oldest when over ten gives the window of the extended history. |
| StateBuffer.Intervals | product/integrations/state_buffer.py:130-133 | One gap per consecutive pair, each the later time minus the earlier. |
| StateBuffer.IntervalsTelescope | product/integrations/state_buffer.py:130-134 | The gaps sum to the last time minus the first. |
| StateBuffer.RateOf | product/integrations/state_buffer.py:127-128 | Fewer than two times give no rate. |
| StateBuffer.RateFromSpan | product/integrations/state_buffer.py:127-137 | With two or more times, a rate exists iff the last time is after the first. It is then the number of gaps over the span. |
| StateBuffer.StateBuffer.constructor | product/integrations/state_buffer.py:39-45 | A new buffer has seen no update: no frame, no time, empty history. |
| StateBuffer.StateBuffer.Update | product/integrations/state_buffer.py:47-64 | The frame is stored verbatim as the latest and `now` as its time. The history becomes the last ten arrival times and the buffer stays consistent. |
| StateBuffer.StateBuffer.GetLatest | product/integrations/state_buffer.py:66-75 | None iff no update yet, otherwise the last frame passed to update. |
| StateBuffer.StateBuffer.IsStale | product/integrations/state_buffer.py:77-99 | True before any update. Otherwise true iff the age of the last update is strictly greater than the limit. |
| StateBuffer.StateBuffer.SingleUpdate | product/integrations/state_buffer.py:77-137 | After one update checked within the limit, the buffer is fresh and has no rate. |
| StateBuffer.StateBuffer.GetAgeSeconds | product/integrations/state_buffer.py:101-114 | None iff no update yet, otherwise `now` minus the last update time. |
| StateBuffer.StateBuffer.EstimateUpdateRateHz | product/integrations/state_buffer.py:116-137 | No rate with fewer than two updates. With two kept times, a rate exists iff the newest is after the oldest, and it is the gaps over the span of the kept history. |
| StateBuffer.HistoryIsLastTen | product/integrations/state_buffer.py:43-64 | The history has min(n, 10) entries, which are the last arrival times in order. |
| TelemetryHealth.CheckTelemetryHealth | product/integrations/telemetry_health.py:17-86 | No buffer gives only the no-source warning, and an empty buffer only the no-telemetry warning. Otherwise a stale warning (with age and threshold) comes first when stale. A low-rate warning follows when the rate is below the minimum, or a rate-unknown warning when there is no rate, and nothing else is reported. |
| TelemetryHealth.FirstUpdateHealth | product/integrations/telemetry_health.py:17-84 | With the defaults, one fresh update reports only that the rate is unknown. |
| StableSort.WithKey | product/integrations/log_replay.py:96-141 | The items with one key value, in order, never more than the whole list. |
| StableSort.Insert | product/integrations/log_replay.py:96-141 | Insertion adds exactly one item. |
| StableSort.InsertPermutes | product/integrations/log_replay.py:96-141 | Insertion adds exactly the new item to the multiset. |
| StableSort.Sort | product/integrations/log_replay.py:96-141 | Sorting keeps the length. |
| StableSort.SortPermutes | product/integrations/log_replay.py:96-141 | list.sort is a permutation of its input. |
| StableSort.InsertBounded | product/integrations/log_replay.py:96-141 | A lower bound on every key survives insertion. |
| StableSort.InsertSorted | product/integrations/log_replay.py:96-141 | Inserting into a sorted list keeps it sorted. |
| StableSort.SortSorted | product/integrations/log_replay.py:96-141 | The sorted list's keys never decrease. |
| StableSort.WithKeyConcat | product/integrations/log_replay.py:96-141 | Selecting by key distributes over concatenation. |
| StableSort.WithKeyNone | product/integrations/log_replay.py:96-141 | No item with the key selects nothing. |
| StableSort.InsertFrontStable | product/integrations/log_replay.py:96-141 | Putting a smaller item in front keeps the order of each key's items. |
| StableSort.InsertStable | product/integrations/log_replay.py:96-141 | Insertion puts the new item after the existing items with its key. |
| StableSort.SortStable | product/integrations/log_replay.py:96-141 | The sort is stable: items with equal keys keep their input order. |

## Left out

- The Monte Carlo engine, the physics and the simulation loop are not modelled. They are floating-point integration with a random generator, so the engine is a function parameter whose result lies in [0, 1], or which fails where the adapter raises.
- `math.sqrt`, `math.cos`, `math.exp`, `np.percentile` and the covariance/eigen-decomposition record of advanced topology mode are function parameters. They are constrained only by the sign and range facts the proofs need.
- `compute_cep50` in src/metrics.py is not modelled. It is NumPy percentile arithmetic whose result only flows into packets.
- Text-to-number parsing is not modelled. `float()` and `int()` of a string raise in `Builtins`. The log replay takes the text parser as a parameter instead.
- EvaluationWorker.ReadInputs: a negative `n_samples` and `str()` of a non-text `doctrine_mode` end the cycle as OutOfModel rather than as Python would treat them, because the model's `str()` covers text, None and bools only.
- Statistics.WilsonCi: `n` is a natural number. Negative sample counts are not modelled.
- AdvisoryLayer.Suggestion: states only the empty case and the "Consider moving " prefix, not the full " or "-joined text.
- Floating-point rounding is not modelled: reals are exact. `int(0.3 * n)` is truncation of an exact real.
- Qt widgets, signals, timers, threads and rendering are not modelled (`_render_*`, `_refresh_param_display`, the status bar, plots). Slot methods record only the state fields the run guard uses. Status texts are variants of a datatype, not strings.
- The worker's `while self.running` loop, its sleep and its period are not modelled. Only one cycle is modelled. The deep copies are plain values.
- The lock in StateBuffer is not modelled, because the model is single-threaded. `time.time()` and `time.perf_counter()` are the parameter `now` (or a duration). TelemetryHealth reads the clock once per check, while the source reads it separately for staleness and age.
- File I/O is not modelled: opening files, `json.load` and its errors, `os.path.abspath` and `os.path.isfile` in log_replay, and the JSON write in `_save_config`. The loaders take the file's contents as values, and `isFile` is a parameter.
- StableSort: `rows.sort` and `snapshots.sort` sort lists in place, but the model sorts values with a stable insertion sort. In-place update and aliasing are not captured.
- Dictionary iteration order is not modelled. Where the source iterates a dict, the model uses the key order the code relies on or a set.
- Warning prints, log messages and f-string texts are not modelled, nor the formatting of snapshot IDs. The telemetry range warnings print only, so they are left out.
- MODE_THRESHOLDS and the mission configuration defaults: only the values the modelled code reads are copied in as constants.
- `get_impact_points_and_metrics` in product/guidance/advisory_layer.py is not modelled. It packages engine output and repeats the save/restore pattern of `_run_engine_for_inputs`.
- LogReplay.DetectCsvColumns, LogReplay.ReplayCsv, LogReplay.LoadReplayCsv, LogReplay.FrameSnapshot, LogReplay.JsonFrames, LogReplay.ReplayJson and LogReplay.LoadReplayJson use the corrected readings of "## Findings": velocity prefixes "velocity_" and "v", and a frame without "velocity" reading its own vx, vy, vz. The as-written readings are LogReplay.VelocityColumnsAsWritten and LogReplay.ToSnapshotAsWritten.
- LogReplay.CsvReplayInTimeOrder and LogReplay.JsonReplayInTimeOrder hold for finite times only. `Num` holds a real, so NaN and ±inf are not represented, and the text parser yields reals. With a NaN time Python's sort gives no time order.
- Topology.ReadPoints: a None element raises in the model, while NumPy reads it as nan and goes on to compute a nan-valued record. NaN and ±inf are not represented. Impact points nested more than two levels deep also read as Raises, while NumPy builds a higher-dimensional array from them. It skips shape (2, 1, 2) at the `shape[1] < 2` test and writes a record for shape (2, 2, 1). Arrays of more than two dimensions are not modelled, and the engine produces only (N, 2) points.
- Strings: strip, upper and lower cover ASCII only. Python also strips Unicode spaces such as "\xa0" and maps characters such as "ſ" and "ı" to upper case. So `" drop\xa0"` is a label in Python but not in the model.
- AdvisoryLayer.Prepare: a uav_pos that is short or holds a non-number (a bool included) raises BadPosition before the current engine run. Python would run the current evaluation first, fail later at `uav_pos[0] + delta`, and accept `True` as 1. The exported inputs always carry three floats, so this order is never observable from the source.
- LogReplay.ColumnsFor requires a non-empty header, because its only caller returns before detection when the header is empty.
- `enrich_evaluation_snapshot` and `validate_snapshot` are not called from the main window in the shipped code, so they are modelled as stand-alone operations.

## Findings

| source | as written | input that shows it | evidently intended | confidence | as-written member | corrected member |
|---|---|---|---|---|---|---|
| product/integrations/log_replay.py:64 | The velocity search lists the empty prefix first, so whenever the header has x, y and z columns, the velocity columns are those same position columns. | CSV header `time_s,x,y,z,vx,vy,vz`: velocity is read from x, y, z. | Velocity comes from velocity_* or v* columns (vx, vy, vz). | high, not executed | LogReplay.VelocityColumnsAsWritten | LogReplay.CorrectedVelocityColumns |
| product/integrations/log_replay.py:125-129 | `obj.get("velocity", obj)` makes every frame without "velocity" read its velocity from itself, falling back to x, y, z. The else branch reading the frame's vx, vy, vz is reached only when "velocity" is present but not a dict (for example a list). | JSON frame `{"time_s": 1, "x": 5}` replays moving at 5 m/s along x. | A frame without "velocity" reads vx, vy, vz, each 0 when absent. | medium, not executed | LogReplay.FlatFrameVelocityAsWritten | LogReplay.FlatFrameVelocity |
