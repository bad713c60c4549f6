# Aqillah traffic core in Dafny

Aqillah is a traffic and road-safety application. This project models its
decision logic:

- **Traffic intelligence.** It turns anonymised telecom readings into a
  congestion index and a delay. It detects bottlenecks, recommends signal
  timings and predicts congestion at four horizons. It ranks the traffic
  decisions made from those results, and it lays out emergency routes.
- **Driver engines.** A risk engine scores weather, traffic, visibility and
  speed. A hazard predictor lists the hazards likely on the road. A driving
  decision engine chooses stop, reroute, delay, slow down or continue.
  Contextual rerouting explains why a route was changed, and a severe-conditions
  service raises alerts.
- **Weather services.** There are fourteen weather-alert rules and their
  de-duplicating aggregator, and a driving-impact assistant. The weather
  service supplies unit conversions and alert thresholds.
- **Notifications.** Notifications are routed by channel priority, quiet
  hours and user preferences.

There is one Dafny module per source file, plus `Common`, which holds the
shared pieces:

- `Option` and `Severity`;
- JavaScript's `Math.round`, `Math.min` and `Math.max`;
- the falsy `a || b` fallback;
- substring search, ASCII lower-casing and joining;
- `find`/`indexOf`/`filter`;
- a descending insertion sort with its permutation and order lemmas.

JavaScript numbers are `real`. `Math.round(x)` is `Floor(x + 0.5)`, which rounds
a half up, as JavaScript does. The engines' classes have no fields, so they are
modelled as functions. Where the source loops, a method carries the loop, and its `ensures` ties the
result to a specification function. These loop methods are:

- `CheckAllAlerts`, `SendNotification` and `Check`;
- `GeneratePredictions` and `LinkBackwardExtent`;
- `RouteDistance`, `EstimatedTime` and `CalculateTotalImpact`.

Where the source updates local variables step by step without a loop, a
method makes the same sequential updates, and its `ensures` ties the result to
a specification function. These are `GenerateRecommendations`, `Analyze` and
`Decide` in contextual rerouting. Other straight-line code that pushes into a
list a fixed number of times is a function that concatenates the pieces.

The clock, identifiers, the distance function and the channel senders are
parameters.

`getWeatherPriority` gives medium for visibility from 200 to 500 m or rain
above 5 mm/h even when the only weather reasons are temperature or dust/sand;
`ContextualRerouting.WeatherPriorityNeedsReason` states this.

## Model

| member | source | states |
|---|---|---|
| Congestion.CongestionIndex | lib/utils.ts:9-24 | the index is an integer in [0, 100] |
| Congestion.DensitySaturates | lib/utils.ts:14-17 | every density of at least 50 gives the same index when the speeds are fixed |
| Congestion.SpeedMonotone | lib/utils.ts:15-21 | with a positive free-flow speed the index never rises when the average speed rises |
| Congestion.DensityMonotone | lib/utils.ts:15-21 | the index never falls when the density rises |
| Congestion.FreeFlowIsZero | lib/utils.ts:15-21 | free-flow speed with zero density gives index 0 |
| Congestion.ColorBands | lib/utils.ts:27-33 | each colour is returned exactly on its band: below 30 green, 30-50 yellow, 50-70 orange, 70-90 red, 90 and above dark |
| Congestion.ColorAndStatusNameTheBand | lib/utils.ts:27-42 | colour and status always name the same band |
| Congestion.BandMonotone | lib/utils.ts:36-42 | the status never gets milder as the index grows |
| TrafficIntelligence.AnalyzeTraffic | lib/core/traffic-intelligence.ts:28-64 | the index is the utility's congestion index, in [0, 100]; the delay is never negative; segment, timestamp, density, speed and direction are copied, and the free-flow speed is echoed |
| TrafficIntelligence.DelayIsExcessTravelTime | lib/core/traffic-intelligence.ts:47-60 | for a positive speed the delay is 5·(free-flow/average − 1), clamped at 0 and rounded to one decimal |
| TrafficIntelligence.NoDelayAtFreeFlow | lib/core/traffic-intelligence.ts:47-60 | at or above free-flow speed the delay is 0 |
| TrafficIntelligence.AdvancedCongestionIndex | lib/core/traffic-intelligence.ts:69-88 | the result lies between the base index and the base plus 10, and within [0, 100]; it differs from the base exactly when the base is below 100 and a non-zero historical average differs from it by more than 20 |
| Anonymization.AnonymizeData | lib/core/anonymization.ts:42-89 | the result is null below 30 devices or below density 5; otherwise it is released, with device count and k equal to the number of devices, the anonymised flag set, density as devices per km and the mean device speed |
| Anonymization.SpeedSumBounds | lib/core/anonymization.ts:66-68 | the speed sum lies between count·minimum and count·maximum |
| Anonymization.AverageSpeedBetweenExtremes | lib/core/anonymization.ts:66-68 | a released average speed lies between the slowest and the fastest device speed |
| Anonymization.ReleasedDataIsCompliant | lib/core/anonymization.ts:42-102 | every released record passes the privacy compliance check |
| Anonymization.ComplianceImpliesNoReidentification | lib/core/anonymization.ts:94-115 | compliance holds iff k ≥ 30, the flag is set and density ≥ 5, and it implies the re-identification guard |
| Bottleneck.DropSeverity | lib/core/bottleneck-detection.ts:46-53 | a drop of at least 0.5 is critical, 0.4-0.5 high, 0.35-0.4 medium, below that low |
| Bottleneck.EstimateBackwardExtent | lib/core/bottleneck-detection.ts:76-88 | for an index in [0, 100] and a non-negative density the extent lies in [0, 3.5] km |
| Bottleneck.DetectBottleneck | lib/core/bottleneck-detection.ts:28-71 | no previous analysis means no bottleneck; otherwise there is one exactly when the relative speed drop is at least 0.3, with the drop's severity, the drop rounded to two decimals, the estimated extent and the current segment as its only affected segment |
| Bottleneck.DetectedExtentBounded | lib/core/bottleneck-detection.ts:64-71 | a detected bottleneck's extent lies in [0, 3.5] km |
| Bottleneck.LinkBackwardExtent | lib/core/bottleneck-detection.ts:93-117 | only the affected segments change; they become the bottleneck's own id followed by the linked adjacent ids |
| Bottleneck.LinkedIdsMembership | lib/core/bottleneck-detection.ts:101-111 | an id is linked iff some adjacent segment with that id lies within the extent and has index above 50 |
| Bottleneck.LinkedIdsConcat | lib/core/bottleneck-detection.ts:101-111 | linking keeps the input order: linking a concatenation is concatenating the linked parts |
| Bottleneck.LinkedIdsLength | lib/core/bottleneck-detection.ts:101-111 | no more ids are linked than there are adjacent segments |
| AdaptiveSignals.GreenTime | lib/core/adaptive-signals.ts:64-78 | green time stays within [15, 60] s and, for non-negative readings, is at least the default 30 s |
| AdaptiveSignals.CongestionPriority | lib/core/adaptive-signals.ts:83-88 | an index of 80 or more is emergency, 60-80 high, below 60 normal |
| AdaptiveSignals.DelayReduction | lib/core/adaptive-signals.ts:143-150 | no extension means no reduction; an extension with a non-negative delay never gives a negative reduction |
| AdaptiveSignals.ThroughputIncrease | lib/core/adaptive-signals.ts:155-162 | the increase is at most 30% and 0 with the default green time |
| AdaptiveSignals.QueueReduction | lib/core/adaptive-signals.ts:167-176 | the reduction is at most 40% and 0 with the default green time |
| AdaptiveSignals.CurrentCongestionRecommendation | lib/core/adaptive-signals.ts:64-108 | green time lies in [15, 60]; the cycle is twice the green plus 20 (within rounding); the priority comes from the index bands; the impacts respect their caps |
| AdaptiveSignals.PredictiveRecommendation | lib/core/adaptive-signals.ts:113-138 | green time is at most 60 s, and at least 15 s for an index in [0, 100]; the priority is high iff congestion is due within 10 minutes and is never emergency; the impact is 40% of the predicted delay with fixed 15%/25% gains |
| AdaptiveSignals.GenerateSignalRecommendations | lib/core/adaptive-signals.ts:41-59 | a current recommendation comes first iff the index is at least 50; a predictive one follows iff some prediction reaches 70, and uses the first such prediction; so there are at most two |
| AdaptiveSignals.ValidateRecommendation | lib/core/adaptive-signals.ts:181-198 | a recommendation is rejected iff green is below 15, green is above 60 or the cycle is shorter than twice the green, with the first failing rule as the reason |
| AdaptiveSignals.CurrentRecommendationIsValid | lib/core/adaptive-signals.ts:72-99 | every current-congestion recommendation passes validation |
| AdaptiveSignals.PredictiveRecommendationIsValid | lib/core/adaptive-signals.ts:113-138 | a predictive recommendation for an index in [0, 100] passes validation |
| AdaptiveSignals.GeneratedRecommendationsAreValid | lib/core/adaptive-signals.ts:41-59 | every generated recommendation passes validation |
| TrafficPrediction.TimeOfDayFactor | lib/core/prediction-engine.ts:231-240 | the factor is 1.3 in the rush hours 7-9 and 17-19, 1.0 otherwise |
| TrafficPrediction.DayOfWeekFactor | lib/core/prediction-engine.ts:242-251 | the factor is 0.8 exactly on the weekend days 0 and 6, 1.0 otherwise |
| TrafficPrediction.SeasonalityFactor | lib/core/prediction-engine.ts:253-263 | the factor is 1.2 in the rush hours, 1.0 otherwise |
| TrafficPrediction.RushHourFactorsAgree | lib/core/prediction-engine.ts:231-263 | the seasonality and time-of-day factors raise the same hours |
| TrafficPrediction.TrendThresholds | lib/core/prediction-engine.ts:210-221 | the trend is increasing iff there are two or more points and last − first > 5, and decreasing iff last − first < −5 |
| TrafficPrediction.TrendOfReversedWindow | lib/core/prediction-engine.ts:210-221 | reversing the window turns the trend into its opposite |
| TrafficPrediction.HistoricalPattern | lib/core/prediction-engine.ts:223-229 | the pattern is 50 for an empty history and the mean congestion index otherwise |
| TrafficPrediction.CongestionSumBounds | lib/core/prediction-engine.ts:223-229 | the congestion sum lies between count·minimum and count·maximum |
| TrafficPrediction.HistoricalPatternBounds | lib/core/prediction-engine.ts:223-229 | the pattern lies within any bounds of the history that contain 50 |
| TrafficPrediction.Recent | lib/core/prediction-engine.ts:93 | the window is the last five points of the history, or all of them when there are fewer |
| TrafficPrediction.TemporalPrediction | lib/core/prediction-engine.ts:87-132 | a temporal prediction for the horizon with confidence in [0.5, 1]; a stable trend keeps the current index and delay; an increasing trend keeps the index at most 100 and not below the current one, a decreasing trend keeps the index and delay non-negative and the index not above the current one |
| TrafficPrediction.TemporalIncreasingStep | lib/core/prediction-engine.ts:97-119 | with an increasing recent trend the index is the rounded min(100, index + horizon) and the delay the delay times 1 + 0.03·horizon, rounded to one decimal |
| TrafficPrediction.TemporalDecreasingStep | lib/core/prediction-engine.ts:97-119 | with a decreasing recent trend the index is the rounded max(0, index − horizon/3) and the delay max(0, delay times 1 − horizon/75), rounded to one decimal |
| TrafficPrediction.TrendRounding | lib/core/prediction-engine.ts:97-121 | the rounded predicted index stays in [0, 100] |
| TrafficPrediction.ExtractFeatures | lib/core/prediction-engine.ts:265-276 | there are four features: index, density, speed, and the last historical index or 50 |
| TrafficPrediction.FeatureWeightsSumToOne | lib/core/prediction-engine.ts:265-276 | the feature weights sum to 1 |
| TrafficPrediction.MachineLearningPrediction | lib/core/prediction-engine.ts:137-170 | an ml prediction with confidence 0.75, index in [0, 100] and delay in [0, 15] |
| TrafficPrediction.SeasonalPrediction | lib/core/prediction-engine.ts:175-206 | a seasonal prediction with confidence 0.65, index in [0, 100], delay in [0, 20] and the seasonality factor recorded |
| TrafficPrediction.PredictionFor | lib/core/prediction-engine.ts:54-77 | the model is temporal for horizons up to 10, ml up to 30 and seasonal above that, predicted for now plus the horizon |
| TrafficPrediction.GeneratePredictions | lib/core/prediction-engine.ts:41-82 | one prediction per horizon 5, 10, 30, 60, in that order |
| TrafficPrediction.GeneratedHorizonsAndModels | lib/core/prediction-engine.ts:36-82 | there are exactly four predictions, for the horizons 5, 10, 30 and 60 minutes, with models temporal, temporal, ml and seasonal |
| TrafficPrediction.PredictedIndexInRange | lib/core/prediction-engine.ts:97-195 | for a current index in [0, 100] every model predicts an index in [0, 100] |
| TrafficPrediction.StableTrendKeepsAnalysis | lib/core/prediction-engine.ts:97-121 | with a stable recent trend a short-horizon prediction keeps the analysed index |
| TrafficDecisions.SeverityMultiplier | lib/core/decision-engine.ts:151-167 | the severity multiplier lies in [1, 1.5] |
| TrafficDecisions.DiversionBenefit | lib/core/decision-engine.ts:151-167 | a non-negative delay gives a non-negative diversion benefit |
| TrafficDecisions.DiversionBenefitGrowsWithSeverity | lib/core/decision-engine.ts:151-167 | a more severe bottleneck never gives a smaller diversion benefit |
| TrafficDecisions.SignalBenefitPeaksInModerateBand | lib/core/decision-engine.ts:172-179 | with the same delay, the moderate band 50-80 gives the largest signal benefit, at least as large as in any other band |
| TrafficDecisions.CriticalDecisions | lib/core/decision-engine.ts:72-115 | a bottleneck adds a critical diversion (score 85) first; a high-priority signal adjustment (score 70) always closes the list; all are for the analysed segment at the given time |
| TrafficDecisions.PreventiveDecisions | lib/core/decision-engine.ts:120-146 | one intervention (score 75, half the predicted delay) exactly when the prediction's index is at least 70 and its confidence above 0.7 |
| TrafficDecisions.GenerateDecisions | lib/core/decision-engine.ts:46-67 | the result is a permutation of the generated decisions, sorted by benefit score descending, at most three |
| TrafficDecisions.GeneratedDecisionKinds | lib/core/decision-engine.ts:46-67 | a signal adjustment appears iff the index is at least 80 or the bottleneck is critical; a diversion iff that holds and there is a bottleneck; an intervention iff the first heavy prediction is confident |
| TrafficDecisions.RankingKeepsKinds | lib/core/decision-engine.ts:66 | ranking neither adds nor removes a kind of decision |
| TrafficDecisions.SelectBestDecision | lib/core/decision-engine.ts:184-191 | null exactly for an empty list; otherwise an element whose score is at least every other, the earliest on ties |
| TrafficDecisions.BestOfRankedIsFirst | lib/core/decision-engine.ts:46-67 | on the ranked decisions the best is the first |
| TrafficDecisions.AffectedSegmentsMembership | lib/core/decision-engine.ts:196-221 | a segment counts as affected iff some decision lists it |
| TrafficDecisions.CalculateTotalImpact | lib/core/decision-engine.ts:196-221 | the delay reduction is the rounded sum; the average benefit is absent exactly for an empty list; the affected count is the number of distinct segment ids |
| EmergencyRouting.StraightRoute | lib/core/emergency-routing.ts:132-149 | the route has 11 points, the i-th interpolated i/10 of the way |
| EmergencyRouting.StraightRouteShape | lib/core/emergency-routing.ts:132-149 | the first point is the origin, the last the destination, and consecutive points are one tenth of the offset apart |
| EmergencyRouting.OptimalRoute | lib/core/emergency-routing.ts:132-149 | the route is the straight interpolation whatever the congestion map |
| EmergencyRouting.PathLengthNonNegative | lib/core/emergency-routing.ts:154-178 | with a non-negative distance the path length is non-negative |
| EmergencyRouting.RouteDistance | lib/core/emergency-routing.ts:154-178 | the loop adds up the distances between consecutive points |
| EmergencyRouting.EstimatedTime | lib/core/emergency-routing.ts:183-204 | the time is distance/50·60 plus the delay of every route index present in the map |
| EmergencyRouting.DelayAlongBounds | lib/core/emergency-routing.ts:183-204 | an empty map adds no delay, and non-negative delays add a non-negative delay |
| EmergencyRouting.CongestionAlong | lib/core/emergency-routing.ts:63-72 | one entry per route point, with the map's index and delay when present and 0 otherwise |
| EmergencyRouting.CalculateEmergencyRoute | lib/core/emergency-routing.ts:48-88 | a new route: the straight points, rounded distance and time, congestion along the route, echoed endpoints, interval 30 s and active |
| EmergencyRouting.UpdateEmergencyRoute | lib/core/emergency-routing.ts:93-126 | the route, distance, time, congestion and update time are recomputed from the stored endpoints; everything else is kept |
| EmergencyRouting.UpdateKeepsRoute | lib/core/emergency-routing.ts:98-101 | an update of a created route keeps the same points, identity, interval, activity and endpoints |
| EmergencyRouting.ShouldUpdateRoute | lib/core/emergency-routing.ts:209-214 | an update is due iff at least updateInterval seconds have passed since the last one |
| RiskEngine.ConditionRisk | lib/engines/risk-engine.ts:139-149 | a tabulated condition risk lies in [0, 70], and clear is 0 |
| RiskEngine.ConditionPoints | lib/engines/risk-engine.ts:139-149 | because of the falsy fallback, clear and unknown conditions both contribute 20; any other table value is used as is |
| RiskEngine.RainPoints | lib/engines/risk-engine.ts:123-126 | rain contributes at most 40 |
| RiskEngine.WindPoints | lib/engines/risk-engine.ts:128-131 | wind contributes at most 20 |
| RiskEngine.WeatherRisk | lib/engines/risk-engine.ts:120-152 | weather risk lies in [5, 100] |
| RiskEngine.WeatherRiskMonotone | lib/engines/risk-engine.ts:120-152 | more rain or wind never lowers the weather risk |
| RiskEngine.DensityPoints | lib/engines/risk-engine.ts:170-173 | density contributes at most 20 |
| RiskEngine.TrafficRisk | lib/engines/risk-engine.ts:157-176 | traffic risk is capped at 100 and non-negative for a non-negative index |
| RiskEngine.TrafficRiskMonotone | lib/engines/risk-engine.ts:157-176 | heavier, denser or slower traffic never lowers the risk |
| RiskEngine.VisibilityRisk | lib/engines/risk-engine.ts:181-188 | visibility risk is 0/20/40/60/80/100 exactly on the bands broken at 1000/500/200/100/50 m |
| RiskEngine.VisibilityRiskNonIncreasing | lib/engines/risk-engine.ts:181-188 | better visibility never raises the risk |
| RiskEngine.SpeedRisk | lib/engines/risk-engine.ts:193-222 | speed risk lies in [0, 100] and is 0 without a vehicle |
| RiskEngine.SpeedRiskAtMostSeventy | lib/engines/risk-engine.ts:193-222 | the speed contributions never exceed 70 together |
| RiskEngine.CombineRisks | lib/engines/risk-engine.ts:227-253 | the weighted sum, multiplied by 1.2 when two or more factors exceed 50, capped at 100 and non-negative for factors in range |
| RiskEngine.CombineUniform | lib/engines/risk-engine.ts:227-253 | equal factors x combine to x, or to min(1.2x, 100) above 50 |
| RiskEngine.CombineMonotone | lib/engines/risk-engine.ts:227-253 | raising any factor never lowers the combined risk |
| RiskEngine.RiskLevel | lib/engines/risk-engine.ts:259-264 | 80 and above is critical, 60-80 high, 30-60 medium, below 30 low |
| RiskEngine.RiskLevelMonotone | lib/engines/risk-engine.ts:259-264 | a higher score never gives a milder level |
| RiskEngine.RecommendedAction | lib/engines/risk-engine.ts:269-286 | stop iff critical above 90; reroute iff critical up to 90 or high; slow down iff medium; caution iff low above 20; continue otherwise |
| RiskEngine.ActionBands | lib/engines/risk-engine.ts:259-286 | with the level from the same score, each action is given exactly on its score band |
| RiskEngine.Category | lib/engines/risk-engine.ts:291-296 | the category is the largest factor, ties resolved visibility, weather, traffic, road, and never combined |
| RiskEngine.Confidence | lib/engines/risk-engine.ts:315-329 | confidence lies in [0.7, 1]; it is 1 iff there is a vehicle and a non-zero visibility; it is at most 0.8 iff there is no vehicle |
| RiskEngine.SecondaryRisks | lib/engines/risk-engine.ts:389-411 | the secondary factors are listed in factor order: weather, traffic, visibility, speed |
| RiskEngine.SecondaryRisksMembers | lib/engines/risk-engine.ts:389-411 | a factor is secondary iff it exceeds 30 and is not the largest |
| RiskEngine.Mitigations | lib/engines/risk-engine.ts:416-446 | each mitigation is given exactly when its factor exceeds 50, the speed mitigations only with a vehicle |
| RiskEngine.MitigationsOrdered | lib/engines/risk-engine.ts:416-446 | the mitigations come in the order the source pushes them (visibility, weather, traffic, speed), each at most once |
| RiskEngine.FactorsOf | lib/engines/risk-engine.ts:60-115 | every factor is capped at 100; the weather factor is at least 5; visibility and speed are non-negative |
| RiskEngine.CalculateRisk | lib/engines/risk-engine.ts:60-115 | the score is the rounded combined risk, at most 100 and non-negative for a non-negative index, with its level, action, category, confidence, secondary risks and mitigations |
| HazardPrediction.PredictHydroplaning | lib/engines/prediction-engine.ts:100-135 | a 5-minute hydroplaning hazard with probability in [0, 1], zero without rain at moderate speed off the highway |
| HazardPrediction.PredictFog | lib/engines/prediction-engine.ts:140-175 | a 15-minute fog hazard with probability at most 1; critical below 100 m, high below 200 m, medium below 500 m, else low |
| HazardPrediction.PredictSuddenCongestion | lib/engines/prediction-engine.ts:180-213 | a 10-minute congestion hazard: critical above 85, high above 70, medium above 50, else low |
| HazardPrediction.PredictTemperatureDrop | lib/engines/prediction-engine.ts:218-246 | a 30-minute hazard, critical iff there is precipitation below 3 °C, otherwise low, and with probability 0 from 10 °C up |
| HazardPrediction.SafeSpeed | lib/engines/prediction-engine.ts:324-359 | the safe speed lies in [30, 100] and is 30 below 100 m visibility |
| HazardPrediction.PredictUnsafeSpeed | lib/engines/prediction-engine.ts:251-287 | without a vehicle probability 0 and low; with one, immediate, with the excess-speed severity bands |
| HazardPrediction.PredictWindHazard | lib/engines/prediction-engine.ts:292-319 | above 50 km/h 0.8 critical, above 40 0.6 high, above 30 0.4 medium, else 0 low |
| HazardPrediction.KeptPredictions | lib/engines/prediction-engine.ts:51-84 | a hazard is kept iff its probability exceeds its type's threshold |
| HazardPrediction.KeptThresholds | lib/engines/prediction-engine.ts:75-84 | unsafe speed is kept iff the speed is over 1.5 times the safe speed; wind iff it is over 30 km/h |
| HazardPrediction.OverallRisk | lib/engines/prediction-engine.ts:364-381 | 0 for no predictions, at most 100, non-negative for non-negative probabilities |
| HazardPrediction.Predict | lib/engines/prediction-engine.ts:47-95 | the output is a permutation of the kept hazards sorted by probability descending, with their overall risk and its level |
| HazardPrediction.PredictedHazards | lib/engines/prediction-engine.ts:47-95 | every emitted hazard passed its threshold and has probability at most 1, and every kept candidate is emitted |
| HazardPrediction.NoVehicleNoUnsafeSpeed | lib/engines/prediction-engine.ts:75-78 | without a vehicle no unsafe-speed hazard is emitted |
| HazardPrediction.OverallRiskBounds | lib/engines/prediction-engine.ts:364-381 | the output's overall risk lies in [0, 100] and is 0 when nothing is predicted |
| DrivingDecision.ShouldStop | lib/engines/driving-decision-engine.ts:119-136 | stop iff visibility is below 50, the risk is critical above 90, some prediction is critical with probability above 0.8, rain exceeds 30 or wind exceeds 60 |
| DrivingDecision.ShouldReroute | lib/engines/driving-decision-engine.ts:141-157 | reroute iff the risk is high or critical, congestion exceeds 85, or two predictions are high-risk |
| DrivingDecision.NearTermLikelyHigh | lib/engines/driving-decision-engine.ts:162-172 | filtering near-term then likely-high finds a prediction iff one is both |
| DrivingDecision.ShouldDelay | lib/engines/driving-decision-engine.ts:162-172 | delay iff the risk is medium and some prediction within 60 minutes has probability above 0.5 and severity high |
| DrivingDecision.SafeSpeed | lib/engines/driving-decision-engine.ts:187-215 | the safe speed lies in [30, 100] and is 30 below 200 m visibility |
| DrivingDecision.ShouldSlowDown | lib/engines/driving-decision-engine.ts:177-182 | slow down iff there is a vehicle faster than 1.1 times the safe speed |
| DrivingDecision.WorstPrediction | lib/engines/driving-decision-engine.ts:220-231 | the first of the sorted severe predictions has the largest timeframe |
| DrivingDecision.DelayMinutes | lib/engines/driving-decision-engine.ts:220-231 | 30 minutes without a severe prediction; otherwise the largest severe timeframe plus 15 |
| DrivingDecision.StopReasonOf | lib/engines/driving-decision-engine.ts:236-247 | the reason is the first of visibility, rain and wind that crosses its limit, else dangerous conditions |
| DrivingDecision.Decide | lib/engines/driving-decision-engine.ts:48-114 | stop, reroute, delay and slow down are tried in that order and the first that holds wins, each with its priority, confidence and details; otherwise continue, low, 0.9 |
| DrivingDecision.ExtremeWeatherStops | lib/engines/driving-decision-engine.ts:50-59 | extreme visibility, rain or wind stops the car, with a weather reason |
| DrivingDecision.HighRiskReroutesOrStops | lib/engines/driving-decision-engine.ts:48-75 | a high or critical risk always stops or reroutes |
| DrivingDecision.DecisionPreconditions | lib/engines/driving-decision-engine.ts:48-114 | slow down needs a vehicle over 1.1 times a safe speed of at least 30; delay needs a medium risk and gives a severe timeframe plus 15; continue means visibility ≥ 50, congestion ≤ 85 and a low or medium risk |
| ContextualRerouting.CheckWeather | lib/engines/contextual-rerouting.ts:87-116 | the weather reasons come in the fixed order rain, visibility, wind, temperature, sand |
| ContextualRerouting.CheckWeatherReasons | lib/engines/contextual-rerouting.ts:87-116 | each weather reason is given exactly when its threshold is crossed |
| ContextualRerouting.WeatherPriority | lib/engines/contextual-rerouting.ts:121-132 | critical iff visibility < 100, rain > 20 or wind > 50; high iff not critical and visibility < 200, rain > 10 or wind > 40; low iff visibility ≥ 500, rain ≤ 5 and wind ≤ 40 |
| ContextualRerouting.SeriousIncidents | lib/engines/contextual-rerouting.ts:60-68 | the count is positive iff some incident is high or critical |
| ContextualRerouting.Decide | lib/engines/contextual-rerouting.ts:38-82 | reroute iff there is a reason; the reasons are weather, congestion, incidents and risk in that order; the priority is the last one set |
| ContextualRerouting.RerouteIffTriggered | lib/engines/contextual-rerouting.ts:39-81 | rerouting is advised iff one of the four checks triggers; with none the priority stays low |
| ContextualRerouting.CongestionOverridesWeather | lib/engines/contextual-rerouting.ts:48-75 | congestion above 90 makes the priority high, even over a critical weather priority; a serious incident or critical risk makes it critical again |
| ContextualRerouting.WeatherPriorityNeedsReason | lib/engines/contextual-rerouting.ts:87-132 | a high or critical weather priority always comes with a rain, visibility or wind reason; without one the priority is low or medium, and low iff visibility ≥ 500 and rain ≤ 5 |
| ContextualRerouting.ReasonTexts | lib/engines/contextual-rerouting.ts:142-143 | one text per reason, in order |
| ContextualRerouting.GenerateMessage | lib/engines/contextual-rerouting.ts:137-144 | the fixed safe text without a reroute; otherwise the reroute header followed by the joined reasons |
| ContextualRerouting.MessageNamesEveryReason | lib/engines/contextual-rerouting.ts:137-144 | a reroute message contains the text of every reason |
| SevereAlerts.MapSeverity | lib/engines/severe-conditions-alerts.ts:98-106 | the severity keeps the official rank: minor low, moderate medium, severe high, extreme critical |
| SevereAlerts.MapSeverityOrder | lib/engines/severe-conditions-alerts.ts:98-106 | the mapping preserves and reflects the order, and is one-to-one |
| SevereAlerts.MapAlertType | lib/engines/severe-conditions-alerts.ts:111-119 | extreme is an official warning, and no other severity is |
| SevereAlerts.MapAlertTypeInjective | lib/engines/severe-conditions-alerts.ts:111-119 | different severities get different alert types |
| SevereAlerts.Impact | lib/engines/severe-conditions-alerts.ts:124-132 | the impact list is non-empty, with one line only for low |
| SevereAlerts.Recommendations | lib/engines/severe-conditions-alerts.ts:137-145 | the recommendation list is non-empty, with one line only for low |
| SevereAlerts.FromOfficial | lib/engines/severe-conditions-alerts.ts:25-39 | an official alert keeps its title and description, maps its severity and type, and has non-empty impact and recommendations |
| SevereAlerts.ConditionAlerts | lib/engines/severe-conditions-alerts.ts:41-90 | at most four reading-based alerts, none an official warning |
| SevereAlerts.ConditionAlertsFire | lib/engines/severe-conditions-alerts.ts:41-90 | storm iff the condition names a storm or rain > 20; heat iff > 45 °C; wind iff > 50 km/h; dust iff the condition names dust or sand; never heavy rain |
| SevereAlerts.ConditionAlertSeverities | lib/engines/severe-conditions-alerts.ts:41-90 | a storm is critical iff rain > 30, else high; heat is high; wind is critical; dust is critical iff visibility < 200 |
| SevereAlerts.MapOfficialAlerts | lib/engines/severe-conditions-alerts.ts:25-39 | one alert per official alert, in order |
| SevereAlerts.PushConditionAlerts | lib/engines/severe-conditions-alerts.ts:41-90 | the condition alerts are appended after the existing ones |
| SevereAlerts.Check | lib/engines/severe-conditions-alerts.ts:21-93 | the official alerts, in order, followed by the condition alerts |
| SevereAlerts.OfficialFirst | lib/engines/severe-conditions-alerts.ts:25-39 | no reading-based alert precedes an official one, and every official-warning alert is an extreme official alert |
| WeatherAlerts.CheckHeavyRain | lib/services/weather-alerts.ts:36-51 | fires iff precipitation exceeds 5, critical above 50, high above 25, medium above 15, else low |
| WeatherAlerts.CheckSlipperyRoads | lib/services/weather-alerts.ts:57-71 | fires iff the temperature is below 4 °C with some precipitation; the value is the temperature, at least medium, banded at 0 and 2 °C |
| WeatherAlerts.CheckHeatWave | lib/services/weather-alerts.ts:77-91 | fires iff the maximum, falling back to the temperature when it is 0 or absent, exceeds 45 °C; critical iff above 50, else high |
| WeatherAlerts.CheckColdWave | lib/services/weather-alerts.ts:97-112 | fires iff the minimum, falling back to the temperature when it is 0 or absent, is below 0 °C; at least medium, banded at −5 and −2 |
| WeatherAlerts.CheckStrongWind | lib/services/weather-alerts.ts:118-138 | fires iff a known wind, read as km/h above 20 and as m/s otherwise, exceeds 12 m/s; banded at 15, 17 and 20 m/s |
| WeatherAlerts.CheckThunderstorm | lib/services/weather-alerts.ts:144-157 | fires iff the condition mentions thunder, always high |
| WeatherAlerts.CheckLowVisibility | lib/services/weather-alerts.ts:163-178 | fires iff visibility is known and below 1000, critical below 100, high below 200, medium below 500 |
| WeatherAlerts.CheckDustStorm | lib/services/weather-alerts.ts:184-199 | fires iff the condition mentions dust or sand; critical iff it also names a storm, else high |
| WeatherAlerts.CheckSnow | lib/services/weather-alerts.ts:205-219 | fires iff the condition mentions snow; critical iff precipitation exceeds 5, else high |
| WeatherAlerts.CheckFrost | lib/services/weather-alerts.ts:225-240 | fires iff the minimum, or the temperature when the minimum is absent, is below −1 °C; at least medium, banded at −5 and −3 |
| WeatherAlerts.CheckHighHumidity | lib/services/weather-alerts.ts:246-259 | fires iff a known humidity exceeds 90%; high iff above 95, else medium |
| WeatherAlerts.CheckLowPressure | lib/services/weather-alerts.ts:265-279 | fires iff a known pressure is below 1000 hPa; high below 980, medium below 990, else low |
| WeatherAlerts.CheckSlipperyRisk | lib/services/weather-alerts.ts:289-303 | fires iff precipitation exceeds 3 with the temperature below 5 °C; at least medium, banded at 2 and 3 °C |
| WeatherAlerts.CheckDangerousDriving | lib/services/weather-alerts.ts:309-342 | fires iff visibility is below 800 or the wind exceeds 15 m/s; the value is the visibility when it is low, else the wind in m/s; the message names which held; critical iff visibility is below 200 or wind above 20 m/s |
| WeatherAlerts.CandidatesSlotted | lib/services/weather-alerts.ts:351-366 | each of the fourteen checks yields only its own alert type |
| WeatherAlerts.RoadPosition | lib/services/weather-alerts.ts:369-386 | while the loop runs, a slippery-road alert, when present, sits at its own slot's position |
| WeatherAlerts.CheckAllAlerts | lib/services/weather-alerts.ts:347-389 | the alerts are the fired checks in order, with slippery risk taking the place of slippery road |
| WeatherAlerts.AllAlertsOrdered | lib/services/weather-alerts.ts:351-388 | alerts follow the fixed check order and no type occurs twice |
| WeatherAlerts.AllAlertsMembers | lib/services/weather-alerts.ts:351-388 | slippery road appears iff it fired and slippery risk did not; slippery risk iff it fired; every other type iff its check fired |
| WeatherAlerts.NoBothSlippery | lib/services/weather-alerts.ts:369-386 | slippery road and slippery risk never appear together |
| WeatherAlerts.StrongWindUnitHeuristic | lib/services/weather-alerts.ts:118-138 | 20 km/h is read as 20 m/s and raises a high alert while 21 km/h raises none; the check fires iff the reading is in (12, 20] or above 43.2 |
| WeatherAlerts.ZeroMinimum | lib/services/weather-alerts.ts:97-112 | a minimum of exactly 0 falls back to the temperature in the cold-wave check, while frost reads the 0 |
| DrivingAssistant.AnalyzeTemperature | lib/services/weather-driving-assistant.ts:74-103 | above 45 danger, above 40 warning, below 0 danger, below 5 warning, else safe |
| DrivingAssistant.AnalyzeWind | lib/services/weather-driving-assistant.ts:108-133 | above 50 km/h danger, above 40 warning, above 30 caution, else safe |
| DrivingAssistant.AnalyzeRain | lib/services/weather-driving-assistant.ts:138-167 | the hydroplaning risk is one of 0, 10, 30, 60, 90, above 50 iff rain exceeds 10 and 0 iff there is no rain; danger only above 20 |
| DrivingAssistant.HydroplaningMonotone | lib/services/weather-driving-assistant.ts:138-167 | more rain never lowers the hydroplaning risk |
| DrivingAssistant.AnalyzeVisibility | lib/services/weather-driving-assistant.ts:172-201 | below 100 danger, below 200 warning, below 500 caution, else safe; a recommendation exactly when not safe |
| DrivingAssistant.SumWeightsBounds | lib/services/weather-driving-assistant.ts:206-216 | the weights sum lies between 20 and 100 per factor, and reaches the top iff every factor is safe |
| DrivingAssistant.SafetyScoreBounds | lib/services/weather-driving-assistant.ts:206-216 | the score lies in [20, 100] and is 100 iff every factor is safe |
| DrivingAssistant.SafetyLevel | lib/services/weather-driving-assistant.ts:221-226 | below 30 danger, below 50 warning, below 75 caution, else safe |
| DrivingAssistant.SumOfFourIsSum | lib/services/weather-driving-assistant.ts:206-216 | the four-factor score is the general mean over the four impacts |
| DrivingAssistant.LevelNeedsSeveralDangers | lib/services/weather-driving-assistant.ts:206-226 | one danger with three safe factors still gives level safe, and level danger needs at least three dangers |
| DrivingAssistant.Summary | lib/services/weather-driving-assistant.ts:231-260 | a danger summary when some factor is danger; otherwise the fixed text for the level |
| DrivingAssistant.SummaryNamesDangers | lib/services/weather-driving-assistant.ts:240-249 | the summary contains every danger message |
| DrivingAssistant.DangerMessagesMembers | lib/services/weather-driving-assistant.ts:240-249 | a factor's message is listed iff that factor is at danger |
| DrivingAssistant.GenerateRecommendations | lib/services/weather-driving-assistant.ts:265-289 | four conditional pushes collect the recommendations in the order visibility, rain, wind, temperature |
| DrivingAssistant.RecommendationsFacts | lib/services/weather-driving-assistant.ts:265-289 | the hydroplaning advice is given iff rain exceeds 10; poor visibility comes first; a dangerous temperature comes last; no item is empty |
| DrivingAssistant.RecommendationsShape | lib/services/weather-driving-assistant.ts:265-289 | for any assessments whose texts are non-empty and differ from the hydroplaning advice, that advice is present iff the hydroplaning risk exceeds 50, a shown visibility recommendation comes first and a dangerous temperature effect comes last |
| DrivingAssistant.Analyze | lib/services/weather-driving-assistant.ts:45-69 | the four impacts, a score in [20, 100], its level, the summary and the recommendations |
| DrivingAssistant.FairWeather | lib/services/weather-driving-assistant.ts:45-69 | fair weather gives score 100, level safe and no recommendations |
| WeatherService.MapSeverity | lib/services/weather.ts:404-412 | minor, severe and extreme are recognised ignoring case, and everything else is moderate |
| WeatherService.MapSeverityIgnoresCase | lib/services/weather.ts:404-412 | lower-casing the input never changes the result |
| WeatherService.ConditionOf | lib/services/weather.ts:362 | the lower-cased main condition, or clear when it is missing or empty |
| WeatherService.TransformAlert | lib/services/weather.ts:366-372 | an alert keeps its event and description, maps its severity and converts seconds to milliseconds |
| WeatherService.TransformOpenWeatherResponse | lib/services/weather.ts:347-374 | wind in m/s is multiplied by 3.6; visibility, defaulting to 10000 m, is divided by 1000; missing rain, direction and clouds become 0 |
| WeatherService.TransformOpenWeatherResponseInMetres | lib/services/weather.ts:347-374 | the corrected transform keeps visibility in metres and agrees with the original on every other field |
| WeatherService.CheckWeatherAlerts | lib/services/weather.ts:417-473 | the alerts come in the order heavy rain, low visibility, strong wind, heat, cold, at most four |
| WeatherService.CheckWeatherAlertsFire | lib/services/weather.ts:417-473 | each kind appears iff its threshold from the weather configuration is crossed |
| WeatherService.CheckWeatherAlertsLevels | lib/services/weather.ts:429-472 | heavy rain is critical iff above 20, low visibility iff below 100, strong wind iff above 70 |
| WeatherService.OpenWeatherVisibilityAlwaysCritical | lib/services/weather.ts:357 | any OpenWeather visibility below 100000 m yields a critical low-visibility alert |
| WeatherService.DefaultVisibilityRaisesAlert | lib/services/weather.ts:357 | clear weather with no visibility reported still raises a critical low-visibility alert |
| WeatherService.MetresVisibilityAlerts | lib/services/weather.ts:438-444 | with visibility kept in metres the alert fires iff it is below 200 m |
| Notifications.PriorityOf | lib/services/notifications.ts:240-255 | critical, high and low keep their level; alert is high, warning medium, info low; anything else medium |
| Notifications.GetChannels | lib/services/notifications.ts:240-255 | critical push+sms+webhook, high push+webhook, medium push, low in-app |
| Notifications.ChannelsGrowWithPriority | lib/services/notifications.ts:240-255 | a higher priority keeps every channel of a lower one except in-app |
| Notifications.IsInQuietHours | lib/services/notifications.ts:317-332 | inside start..end inclusive when start ≤ end; at or after start, or at or before end, when the window wraps midnight |
| Notifications.QuietHoursShape | lib/services/notifications.ts:317-332 | both bounds are inside the window, and a wrapped window is the complement of the open gap between end and start |
| Notifications.CheckUserPreferences | lib/services/notifications.ts:260-312 | a failed lookup, no user or no settings allows; otherwise allowed iff enabled, the category is not switched off, and a non-critical one is outside quiet hours and not silenced by driving mode |
| Notifications.CriticalNeverSilenced | lib/services/notifications.ts:289-305 | quiet hours and silent driving never block the critical category |
| Notifications.SwitchesBlock | lib/services/notifications.ts:270-288 | disabled notifications, or a category switched off, always block |
| Notifications.DefaultsAllowEveryCategory | config/notifications.ts:60-75 | the default preferences allow every category, because their low switch names no category |
| Notifications.ChannelResultsStamped | lib/services/notifications.ts:56-81 | every result is the `send` result of an enabled channel from the list, stamped with that channel |
| Notifications.SelectResult | lib/services/notifications.ts:84-87 | the first success, else the first result, else the no-channel failure |
| Notifications.SendNotification | lib/services/notifications.ts:32-95 | a declined result when the request names a non-empty user id whose preferences refuse; otherwise, including for an empty or missing id, the selection over one attempt per channel of the request's priority |
| Notifications.SendOutcome | lib/services/notifications.ts:84-87 | when some enabled listed channel succeeds, the outcome succeeds and names a listed channel |
| Notifications.SuccessNeedsSucceedingChannel | lib/services/notifications.ts:56-87 | conversely, the outcome succeeds only when some enabled listed channel succeeded |
| Notifications.ChannelReported | lib/services/notifications.ts:56-81 | every enabled listed channel has its stamped result among the results |
| Notifications.PushOnlyWithoutFcm | lib/services/notifications.ts:56-87 | a notification whose priority maps to medium (including an unknown priority name) fails when push is disabled |

## Left out

- HazardPrediction.Predict: the model's insertion sort is stable like JavaScript's `sort`, but the contract states only the permutation and the descending probability order, not that equal probabilities keep their candidate order.
- TrafficDecisions.GenerateDecisions: likewise states only the permutation and the descending score order, not the order of decisions with equal scores.
- The atan2 movement direction in `anonymizeData` is a parameter `direction`. Trigonometry is not modelled.
- The Haversine distance in emergency routing is a function parameter `dist`, and some lemmas require it to be non-negative. Its floating-point value is not modelled.
- Clocks and identifiers are integer parameters: `Date.now()`, `new Date()`, the hour and day of the week, and generated ids and timestamps. `validUntil` fields, which need clock arithmetic, are left out.
- Formatted texts are not reproduced. The Arabic messages and recommendations are opaque ASCII labels or constructor names. Messages that print numbers keep only the number, as a field or a parameter.
- Division by zero is excluded by `requires` instead of modelled, because JavaScript would give `Infinity` or `NaN`. This covers a zero free-flow speed, a zero average speed, a zero previous speed and a zero segment length. NaN and Infinity inputs are not modelled.
- Fallbacks the types make unreachable are not modelled: `|| ['push']` and `|| 100` on lookups that always succeed. The `|| 'medium'` fallback is modelled: `PriorityOf` sends unknown names to medium.
- JavaScript object-prototype keys such as `toString` in the priority lookup are not modelled. A key is either a listed priority or unknown.
- Exceptions and `catch` branches are not modelled. This covers database and HTTP failures and the sender `try/catch` in `sendNotification`. A failed preference lookup is the `LookupFailed` input, which allows the notification as the code does.
- Quiet-hour bounds are `Clock(hour, minute)` values instead of "HH:MM" strings. Parsing is not modelled.
- The database, HTTP clients, FCM, SMS, webhook, email and in-app delivery are not modelled. Each send is the `send` result parameter, and the preference lookup is the `UserLookup` input.
- Inputs that the modelled code never reads are left out: the location fields, and the driving-decision input's `timeOfDay` and `roadType`. The risk and hazard engines read `roadType`, and their vehicle keeps it. `analyzeRain` and `analyzeVisibility` read only rain rate and visibility.
- The weather-icon and forecast fields of the weather service are not modelled. Only the current conditions and alerts the core reads are kept.
- `lib/engines/route-forecast.ts` returns constants and is not part of this model. The same holds for `formatTime`/`formatDateTime` (Intl), the audio in `lib/utils/sounds.ts`, the React hooks and the HTTP client in `lib/services/google-maps.ts`.
- The minutes-until-congestion value in adaptive signals is `MinutesUntil` over integer millisecond parameters.
- Integers are unbounded. No JavaScript double rounding or precision loss is modelled.

## Findings

| source | as written | input that shows it | evidently intended | confidence | as-written member | corrected member |
|---|---|---|---|---|---|---|
| lib/services/weather.ts:357 | OpenWeather visibility is divided by 1000, but `checkWeatherAlerts` compares it with 200 and 100 metres | no visibility reported: the default 10000 m becomes 10, below 100, so a clear day raises a critical low-visibility alert | keep visibility in metres so that the 200 m and 100 m thresholds apply | not executed | WeatherService.OpenWeatherVisibilityAlwaysCritical | WeatherService.MetresVisibilityAlerts |
