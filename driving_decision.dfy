/** The driving decision engine (lib/engines/driving-decision-engine.ts): from
    the weather, the traffic, the risk assessment and the hazard predictions it
    decides, in this order of precedence, to stop, reroute, delay, slow down or
    continue. */
module DrivingDecision {
  import opened Common
  import opened WeatherService
  import RiskEngine
  import HazardPrediction

  type Hazard = HazardPrediction.Hazard

  datatype DecisionTraffic = DecisionTraffic(congestionIndex: real, avgSpeed: real)

  /** The vehicle; its road type is not read by the engine. */
  datatype DecisionVehicle = DecisionVehicle(speed: real)

  /** A route's length (km) and duration (minutes). */
  datatype RouteEstimate = RouteEstimate(distance: real, duration: real)

  /** The engine's input; the time of day it also carries is not read. */
  datatype DecisionInput = DecisionInput(weather: CurrentWeather, traffic: DecisionTraffic,
                                         vehicle: Option<DecisionVehicle>, route: RouteEstimate,
                                         risk: RiskEngine.RiskOutput,
                                         predictions: HazardPrediction.PredictionOutput)

  datatype DrivingAction = Continue | SlowDown | Reroute | Delay | Stop

  /** The four stop reasons; their texts are not modelled. */
  datatype StopReason = VeryLowVisibility | VeryHeavyRain | VeryStrongWind | DangerousConditions

  datatype Details = Details(suggestedSpeed: Option<real>, alternativeRoute: Option<RouteEstimate>,
                             delayMinutes: Option<int>, stopReason: Option<StopReason>)

  /** A decision; the reason text is not modelled. */
  datatype DrivingDecision = DrivingDecision(action: DrivingAction, confidence: real, details: Details,
                                             priority: Severity)

  function Predictions(input: DecisionInput): seq<Hazard>
  {
    input.predictions.predictions
  }

  predicate CriticalAndLikely(h: Hazard)
  {
    h.severity == Critical && h.probability > 0.8
  }

  predicate HighRisk(h: Hazard)
  {
    (h.severity == High || h.severity == Critical) && h.probability > 0.6
  }

  predicate NearTerm(h: Hazard)
  {
    h.timeframe <= 60
  }

  predicate LikelyHigh(h: Hazard)
  {
    h.probability > 0.5 && h.severity == High
  }

  predicate Severe(h: Hazard)
  {
    h.severity == High || h.severity == Critical
  }

  /** shouldStop. */
  function ShouldStop(input: DecisionInput): (r: bool)
    ensures r <==>
      input.weather.visibility < 50.0 ||
      (input.risk.riskLevel == Critical && input.risk.riskScore > 90) ||
      (exists i :: 0 <= i < |Predictions(input)| && CriticalAndLikely(Predictions(input)[i])) ||
      input.weather.rainRate > 30.0 || input.weather.windSpeed > 60.0
  {
    FilterNonEmpty(Predictions(input), CriticalAndLikely);
    if input.weather.visibility < 50.0 then true
    else if input.risk.riskLevel == Critical && input.risk.riskScore > 90 then true
    else if |Filter(Predictions(input), CriticalAndLikely)| > 0 then true
    else input.weather.rainRate > 30.0 || input.weather.windSpeed > 60.0
  }

  /** shouldReroute. */
  function ShouldReroute(input: DecisionInput): (r: bool)
    ensures r <==>
      input.risk.riskLevel == High || input.risk.riskLevel == Critical ||
      input.traffic.congestionIndex > 85.0 ||
      exists i, j :: 0 <= i < j < |Predictions(input)| &&
        HighRisk(Predictions(input)[i]) && HighRisk(Predictions(input)[j])
  {
    FilterAtLeastTwo(Predictions(input), HighRisk);
    if input.risk.riskLevel == High || input.risk.riskLevel == Critical then true
    else if input.traffic.congestionIndex > 85.0 then true
    else |Filter(Predictions(input), HighRisk)| >= 2
  }

  /** A prediction among the near-term ones is likely and high exactly when
      some prediction is both. */
  lemma NearTermLikelyHigh(ps: seq<Hazard>)
    ensures |Filter(Filter(ps, NearTerm), LikelyHigh)| > 0 <==>
      exists i :: 0 <= i < |ps| && NearTerm(ps[i]) && LikelyHigh(ps[i])
  {
    var nearTerm := Filter(ps, NearTerm);
    FilterNonEmpty(nearTerm, LikelyHigh);
    if exists i :: 0 <= i < |ps| && NearTerm(ps[i]) && LikelyHigh(ps[i]) {
      var i :| 0 <= i < |ps| && NearTerm(ps[i]) && LikelyHigh(ps[i]);
      assert ps[i] in nearTerm;
      var k :| 0 <= k < |nearTerm| && nearTerm[k] == ps[i];
      assert LikelyHigh(nearTerm[k]);
    }
    if exists i :: 0 <= i < |nearTerm| && LikelyHigh(nearTerm[i]) {
      var i :| 0 <= i < |nearTerm| && LikelyHigh(nearTerm[i]);
      assert nearTerm[i] in ps && NearTerm(nearTerm[i]);
      var k :| 0 <= k < |ps| && ps[k] == nearTerm[i];
      assert NearTerm(ps[k]) && LikelyHigh(ps[k]);
    }
  }

  /** shouldDelay. */
  function ShouldDelay(input: DecisionInput): (r: bool)
    ensures r <==>
      input.risk.riskLevel == Medium &&
      exists i :: 0 <= i < |Predictions(input)| &&
        NearTerm(Predictions(input)[i]) && LikelyHigh(Predictions(input)[i])
  {
    var ps := Predictions(input);
    NearTermLikelyHigh(ps);
    if input.risk.riskLevel == Medium && |ps| > 0 then
      |Filter(Filter(ps, NearTerm), LikelyHigh)| > 0
    else false
  }

  /** calculateSafeSpeed of the decision engine (its own rule, not the hazard
      predictions' one). */
  function SafeSpeed(input: DecisionInput): (s: real)
    ensures 30.0 <= s <= 100.0
    ensures input.weather.visibility < 200.0 ==> s == 30.0
  {
    var w := input.weather;
    var afterVisibility := if w.visibility < 200.0 then 30.0 else if w.visibility < 500.0 then 50.0 else 100.0;
    var afterRain := if w.rainRate > 10.0 then afterVisibility - 30.0
                     else if w.rainRate > 5.0 then afterVisibility - 20.0
                     else afterVisibility;
    var afterWind := if w.windSpeed > 40.0 then afterRain - 20.0 else afterRain;
    var afterCongestion := if input.traffic.congestionIndex > 70.0
                           then Min(afterWind, input.traffic.avgSpeed + 10.0) else afterWind;
    Max(afterCongestion, 30.0)
  }

  /** shouldSlowDown. */
  function ShouldSlowDown(input: DecisionInput): (r: bool)
    ensures r <==> input.vehicle.Some? && input.vehicle.value.speed > SafeSpeed(input) * 1.1
  {
    match input.vehicle
    case None => false
    case Some(v) => v.speed > SafeSpeed(input) * 1.1
  }

  function Timeframe(h: Hazard): real
  {
    h.timeframe as real
  }

  /** The head of the severe predictions sorted by decreasing time frame is a
      severe prediction with the longest time frame. */
  lemma WorstPrediction(predictions: seq<Hazard>)
    requires exists i :: 0 <= i < |predictions| && Severe(predictions[i])
    ensures |SortDesc(Filter(predictions, Severe), Timeframe)| > 0
    ensures var worst := SortDesc(Filter(predictions, Severe), Timeframe)[0];
      worst in predictions && Severe(worst) &&
      forall i :: 0 <= i < |predictions| && Severe(predictions[i]) ==> predictions[i].timeframe <= worst.timeframe
  {
    var severe := Filter(predictions, Severe);
    var sorted := SortDesc(severe, Timeframe);
    SortDescLength(severe, Timeframe);
    SameElements(sorted, severe);
    FilterNonEmpty(predictions, Severe);
    SortedHeadIsMax(sorted, Timeframe);
    assert sorted[0] in severe;
    forall i | 0 <= i < |predictions| && Severe(predictions[i])
      ensures predictions[i].timeframe <= sorted[0].timeframe
    {
      assert predictions[i] in sorted;
    }
  }

  /** calculateDelay: the longest time frame among the high and critical
      predictions plus 15 minutes, or 30 minutes when there is none. */
  function DelayMinutes(predictions: seq<Hazard>): (r: int)
    ensures (forall i :: 0 <= i < |predictions| ==> !Severe(predictions[i])) ==> r == 30
    ensures (exists i :: 0 <= i < |predictions| && Severe(predictions[i])) ==>
      (exists i :: 0 <= i < |predictions| && Severe(predictions[i]) && r == predictions[i].timeframe + 15) &&
      (forall i :: 0 <= i < |predictions| && Severe(predictions[i]) ==> predictions[i].timeframe + 15 <= r)
  {
    var sorted := SortDesc(Filter(predictions, Severe), Timeframe);
    FilterNonEmpty(predictions, Severe);
    SortDescLength(Filter(predictions, Severe), Timeframe);
    if |sorted| > 0 then
      WorstPrediction(predictions);
      var worst := sorted[0];
      assert exists i :: 0 <= i < |predictions| && predictions[i] == worst;
      worst.timeframe + 15
    else 30
  }

  /** getStopReason. */
  function StopReasonOf(input: DecisionInput): (r: StopReason)
    ensures r == VeryLowVisibility <==> input.weather.visibility < 50.0
    ensures r == VeryHeavyRain <==> input.weather.visibility >= 50.0 && input.weather.rainRate > 30.0
    ensures r == VeryStrongWind <==>
      input.weather.visibility >= 50.0 && input.weather.rainRate <= 30.0 && input.weather.windSpeed > 60.0
  {
    if input.weather.visibility < 50.0 then VeryLowVisibility
    else if input.weather.rainRate > 30.0 then VeryHeavyRain
    else if input.weather.windSpeed > 60.0 then VeryStrongWind
    else DangerousConditions
  }

  const NoDetails := Details(None, None, None, None)

  /** decide: the first of stop, reroute, delay and slow down that holds. */
  function Decide(input: DecisionInput): (r: DrivingDecision)
    ensures r.action == Stop <==> ShouldStop(input)
    ensures r.action == Reroute <==> !ShouldStop(input) && ShouldReroute(input)
    ensures r.action == Delay <==> !ShouldStop(input) && !ShouldReroute(input) && ShouldDelay(input)
    ensures r.action == SlowDown <==>
      !ShouldStop(input) && !ShouldReroute(input) && !ShouldDelay(input) && ShouldSlowDown(input)
    ensures r.action == Stop ==>
      r.priority == Critical && r.confidence == 0.95 && r.details == NoDetails.(stopReason := Some(StopReasonOf(input)))
    ensures r.action == Reroute ==>
      r.priority == High && r.confidence == 0.85 &&
      r.details == NoDetails.(alternativeRoute :=
        Some(RouteEstimate(input.route.distance * 1.2, input.route.duration * 0.9)))
    ensures r.action == Delay ==>
      r.priority == Medium && r.confidence == 0.7 &&
      r.details == NoDetails.(delayMinutes := Some(DelayMinutes(Predictions(input))))
    ensures r.action == SlowDown ==>
      r.priority == Medium && r.confidence == 0.8 && r.details == NoDetails.(suggestedSpeed := Some(SafeSpeed(input)))
    ensures r.action == Continue ==> r.priority == Low && r.confidence == 0.9 && r.details == NoDetails
  {
    if ShouldStop(input) then
      DrivingDecision(Stop, 0.95, NoDetails.(stopReason := Some(StopReasonOf(input))), Critical)
    else if ShouldReroute(input) then
      DrivingDecision(Reroute, 0.85,
                      NoDetails.(alternativeRoute :=
                        Some(RouteEstimate(input.route.distance * 1.2, input.route.duration * 0.9))), High)
    else if ShouldDelay(input) then
      DrivingDecision(Delay, 0.7, NoDetails.(delayMinutes := Some(DelayMinutes(Predictions(input)))), Medium)
    else if ShouldSlowDown(input) then
      DrivingDecision(SlowDown, 0.8, NoDetails.(suggestedSpeed := Some(SafeSpeed(input))), Medium)
    else
      DrivingDecision(Continue, 0.9, NoDetails, Low)
  }

  /** Visibility under 50, rain over 30 mm/h or wind over 60 km/h always stop
      the driver, and the stop reason names the first of them. */
  lemma ExtremeWeatherStops(input: DecisionInput)
    requires input.weather.visibility < 50.0 || input.weather.rainRate > 30.0 || input.weather.windSpeed > 60.0
    ensures Decide(input).action == Stop
    ensures Decide(input).details.stopReason.Some? && Decide(input).details.stopReason.value != DangerousConditions
  {
  }

  /** A high or critical risk level never lets the driver continue or slow down. */
  lemma HighRiskReroutesOrStops(input: DecisionInput)
    requires input.risk.riskLevel == High || input.risk.riskLevel == Critical
    ensures Decide(input).action in {Stop, Reroute}
  {
  }

  /** Slowing down needs a vehicle over 110% of the safe speed, and a delay the
      medium risk level; the suggested speed is never under 30 km/h. */
  lemma DecisionPreconditions(input: DecisionInput)
    ensures Decide(input).action == SlowDown ==>
      input.vehicle.Some? && input.vehicle.value.speed > 1.1 * SafeSpeed(input) &&
      Decide(input).details.suggestedSpeed.value >= 30.0
    ensures Decide(input).action == Delay ==> input.risk.riskLevel == Medium
    ensures Decide(input).action == Delay ==>
      exists i :: 0 <= i < |Predictions(input)| && Severe(Predictions(input)[i]) &&
        Decide(input).details.delayMinutes.value == Predictions(input)[i].timeframe + 15
    ensures Decide(input).action == Continue ==>
      input.weather.visibility >= 50.0 && input.traffic.congestionIndex <= 85.0 &&
      input.risk.riskLevel in {Low, Medium}
  {
    if Decide(input).action == Delay {
      var ps := Predictions(input);
      var i :| 0 <= i < |ps| && NearTerm(ps[i]) && LikelyHigh(ps[i]);
      assert Severe(ps[i]);
    }
  }
}
