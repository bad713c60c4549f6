/** The hazard prediction engine (lib/engines/prediction-engine.ts): six
    predictors, each giving a probability, a severity and a time frame; the
    predictions above their thresholds, most probable first; the safe speed
    the unsafe-speed predictor compares against; the overall risk. */
module HazardPrediction {
  import opened Common
  import opened WeatherService
  import RiskEngine

  type Vehicle = RiskEngine.Vehicle
  type TrafficReading = RiskEngine.TrafficReading

  /** The incident history of the location. */
  datatype History = History(accidents: real, incidents: real)

  /** The engine's input; the location it also carries is not read. */
  datatype PredictionInput = PredictionInput(weather: CurrentWeather, traffic: TrafficReading,
                                             vehicle: Option<Vehicle>, history: Option<History>)

  datatype HazardType = Hydroplaning | Fog | SuddenCongestion | TemperatureDrop | UnsafeSpeed | WindHazard

  /** One prediction; `timeframe` in minutes. */
  datatype Hazard = Hazard(hazardType: HazardType, probability: real, severity: Severity, timeframe: int)

  datatype PredictionOutput = PredictionOutput(predictions: seq<Hazard>, overallRisk: real, riskLevel: Severity)

  /** The probability a prediction must exceed to be kept. */
  function Threshold(t: HazardType): real
  {
    match t
    case SuddenCongestion => 0.4
    case UnsafeSpeed => 0.5
    case _ => 0.3
  }

  function IsHighway(vehicle: Option<Vehicle>): bool
  {
    vehicle.Some? && vehicle.value.roadType == Some(RiskEngine.Highway)
  }

  /** predictHydroplaning: the severity is judged on the sum before the cap. */
  function PredictHydroplaning(input: PredictionInput): (h: Hazard)
    ensures h.hazardType == Hydroplaning && h.timeframe == 5
    ensures 0.0 <= h.probability <= 1.0
    ensures input.weather.rainRate <= 0.0 && (input.vehicle.None? || input.vehicle.value.speed <= 60.0)
            && !IsHighway(input.vehicle)
            ==> h.probability == 0.0 && h.severity == Low
  {
    var rain := if input.weather.rainRate > 0.0 then Min(input.weather.rainRate / 20.0, 0.6) else 0.0;
    var speed := if input.vehicle.Some? && input.vehicle.value.speed > 60.0
                 then Min((input.vehicle.value.speed - 60.0) / 100.0, 0.4) else 0.0;
    var probability := rain + speed + (if IsHighway(input.vehicle) then 0.1 else 0.0);
    var severity := if probability > 0.7 then Critical
                    else if probability > 0.5 then High
                    else if probability > 0.3 then Medium
                    else Low;
    Hazard(Hydroplaning, Min(probability, 1.0), severity, 5)
  }

  /** predictFog: the severity follows the visibility alone. */
  function PredictFog(input: PredictionInput): (h: Hazard)
    ensures h.hazardType == Fog && h.timeframe == 15
    ensures 0.0 <= h.probability <= 1.0
    ensures h.severity == Critical <==> input.weather.visibility < 100.0
    ensures h.severity == High <==> 100.0 <= input.weather.visibility < 200.0
    ensures h.severity == Medium <==> 200.0 <= input.weather.visibility < 500.0
    ensures h.severity == Low <==> input.weather.visibility >= 500.0
  {
    var w := input.weather;
    var base := if w.visibility < 1000.0 then 1.0 - w.visibility / 1000.0 else 0.0;
    var probability := base + (if w.humidity > 80.0 then 0.2 else 0.0)
                            + (if w.temperature > 0.0 && w.temperature < 15.0 then 0.1 else 0.0);
    var severity := if w.visibility < 100.0 then Critical
                    else if w.visibility < 200.0 then High
                    else if w.visibility < 500.0 then Medium
                    else Low;
    Hazard(Fog, Min(probability, 1.0), severity, 15)
  }

  /** predictSuddenCongestion. */
  function PredictSuddenCongestion(input: PredictionInput): (h: Hazard)
    ensures h.hazardType == SuddenCongestion && h.timeframe == 10
    ensures 0.0 <= h.probability <= 1.0
    ensures h.severity == Critical <==> input.traffic.congestionIndex > 85.0
    ensures h.severity == High <==> 70.0 < input.traffic.congestionIndex <= 85.0
    ensures h.severity == Medium <==> 50.0 < input.traffic.congestionIndex <= 70.0
    ensures h.severity == Low <==> input.traffic.congestionIndex <= 50.0
  {
    var t := input.traffic;
    var incidents := if input.history.Some? && input.history.value.incidents > 0.0
                     then Min(input.history.value.incidents / 10.0, 0.3) else 0.0;
    var probability := (if t.congestionIndex > 70.0 then 0.4 else 0.0) + (if t.avgSpeed < 30.0 then 0.3 else 0.0)
                       + incidents;
    var severity := if t.congestionIndex > 85.0 then Critical
                    else if t.congestionIndex > 70.0 then High
                    else if t.congestionIndex > 50.0 then Medium
                    else Low;
    Hazard(SuddenCongestion, Min(probability, 1.0), severity, 10)
  }

  /** predictTemperatureDrop. */
  function PredictTemperatureDrop(input: PredictionInput): (h: Hazard)
    ensures h.hazardType == TemperatureDrop && h.timeframe == 30
    ensures 0.0 <= h.probability <= 1.0
    ensures h.severity == Critical <==> input.weather.precipitation > 0.0 && input.weather.temperature < 3.0
    ensures h.severity in {Low, Critical}
    ensures input.weather.temperature >= 10.0 ==> h.probability == 0.0
  {
    var w := input.weather;
    var base := if w.temperature < 5.0 then 0.6 else if w.temperature < 10.0 then 0.3 else 0.0;
    var freezing := w.precipitation > 0.0 && w.temperature < 3.0;
    var probability := if freezing then base + 0.3 else base;
    Hazard(TemperatureDrop, Min(probability, 1.0), if freezing then Critical else Low, 30)
  }

  /** calculateSafeSpeed for the hazard predictions. */
  function SafeSpeed(weather: CurrentWeather, traffic: TrafficReading): (s: real)
    ensures 30.0 <= s <= 100.0
    ensures weather.visibility < 100.0 ==> s == 30.0
  {
    var afterRain := if weather.rainRate > 10.0 then 70.0 else if weather.rainRate > 5.0 then 80.0 else 100.0;
    var afterVisibility := if weather.visibility < 100.0 then 30.0
                           else if weather.visibility < 200.0 then Min(afterRain, 50.0)
                           else if weather.visibility < 500.0 then Min(afterRain, 70.0)
                           else afterRain;
    var afterWind := if weather.windSpeed > 40.0 then afterVisibility - 20.0
                     else if weather.windSpeed > 30.0 then afterVisibility - 10.0
                     else afterVisibility;
    var afterCongestion := if traffic.congestionIndex > 70.0 then Min(afterWind, traffic.avgSpeed + 10.0) else afterWind;
    Max(afterCongestion, 30.0)
  }

  /** predictUnsafeSpeed: without a vehicle a zero prediction. */
  function PredictUnsafeSpeed(input: PredictionInput): (h: Hazard)
    ensures h.hazardType == UnsafeSpeed
    ensures 0.0 <= h.probability <= 1.0
    ensures input.vehicle.None? ==> h == Hazard(UnsafeSpeed, 0.0, Low, 0)
    ensures input.vehicle.Some? ==> h.timeframe == 0
    ensures input.vehicle.Some? ==>
      (h.probability > 0.0 <==> input.vehicle.value.speed > SafeSpeed(input.weather, input.traffic))
    ensures input.vehicle.Some? ==>
      var excess := input.vehicle.value.speed - SafeSpeed(input.weather, input.traffic);
      (h.severity == Critical <==> excess > 30.0) &&
      (h.severity == High <==> 20.0 < excess <= 30.0) &&
      (h.severity == Medium <==> 10.0 < excess <= 20.0) &&
      (h.severity == Low <==> excess <= 10.0)
  {
    match input.vehicle
    case None => Hazard(UnsafeSpeed, 0.0, Low, 0)
    case Some(v) =>
      var safeSpeed := SafeSpeed(input.weather, input.traffic);
      var probability := if v.speed > safeSpeed then Min((v.speed - safeSpeed) / safeSpeed, 1.0) else 0.0;
      var speedDiff := v.speed - safeSpeed;
      var severity := if speedDiff > 30.0 then Critical
                      else if speedDiff > 20.0 then High
                      else if speedDiff > 10.0 then Medium
                      else Low;
      Hazard(UnsafeSpeed, Min(probability, 1.0), severity, 0)
  }

  /** predictWindHazard. */
  function PredictWindHazard(input: PredictionInput): (h: Hazard)
    ensures h.hazardType == WindHazard && h.timeframe == 15
    ensures input.weather.windSpeed > 50.0 ==> h.probability == 0.8 && h.severity == Critical
    ensures 40.0 < input.weather.windSpeed <= 50.0 ==> h.probability == 0.6 && h.severity == High
    ensures 30.0 < input.weather.windSpeed <= 40.0 ==> h.probability == 0.4 && h.severity == Medium
    ensures input.weather.windSpeed <= 30.0 ==> h.probability == 0.0 && h.severity == Low
  {
    var wind := input.weather.windSpeed;
    var probability := if wind > 50.0 then 0.8 else if wind > 40.0 then 0.6 else if wind > 30.0 then 0.4 else 0.0;
    var severity := if wind > 50.0 then Critical else if wind > 40.0 then High else if wind > 30.0 then Medium else Low;
    Hazard(WindHazard, Min(probability, 1.0), severity, 15)
  }

  /** The six predictions in the order `predict` computes them. */
  function Candidates(input: PredictionInput): (c: seq<Hazard>)
    ensures |c| == 6
  {
    [PredictHydroplaning(input), PredictFog(input), PredictSuddenCongestion(input),
     PredictTemperatureDrop(input), PredictUnsafeSpeed(input), PredictWindHazard(input)]
  }

  predicate Kept(h: Hazard)
  {
    h.probability > Threshold(h.hazardType)
  }

  /** The predictions above their thresholds, in computation order. */
  function KeptPredictions(input: PredictionInput): (r: seq<Hazard>)
    ensures forall h :: h in r <==> h in Candidates(input) && Kept(h)
  {
    var c := Candidates(input);
    (if Kept(c[0]) then [c[0]] else []) + (if Kept(c[1]) then [c[1]] else []) +
    (if Kept(c[2]) then [c[2]] else []) + (if Kept(c[3]) then [c[3]] else []) +
    (if Kept(c[4]) then [c[4]] else []) + (if Kept(c[5]) then [c[5]] else [])
  }

  /** The weight of a severity in the overall risk. */
  function SeverityWeight(s: Severity): (w: real)
    ensures 0.2 <= w <= 1.0
  {
    match s
    case Critical => 1.0
    case High => 0.7
    case Medium => 0.4
    case Low => 0.2
  }

  function WeightedSum(predictions: seq<Hazard>): real
  {
    if predictions == [] then 0.0
    else WeightedSum(predictions[..|predictions| - 1])
         + predictions[|predictions| - 1].probability * SeverityWeight(predictions[|predictions| - 1].severity) * 100.0
  }

  lemma {:induction false} WeightedSumNonNegative(predictions: seq<Hazard>)
    requires forall i :: 0 <= i < |predictions| ==> predictions[i].probability >= 0.0
    ensures WeightedSum(predictions) >= 0.0
  {
    if predictions != [] {
      var last := predictions[|predictions| - 1];
      WeightedSumNonNegative(predictions[..|predictions| - 1]);
      assert last.probability * SeverityWeight(last.severity) >= 0.0;
    }
  }

  /** calculateOverallRisk: the mean weighted probability, in percent, capped at 100. */
  function OverallRisk(predictions: seq<Hazard>): (r: real)
    ensures predictions == [] ==> r == 0.0
    ensures r <= 100.0
    ensures (forall i :: 0 <= i < |predictions| ==> predictions[i].probability >= 0.0) ==> r >= 0.0
  {
    if predictions == [] then 0.0
    else
      var mean := WeightedSum(predictions) / |predictions| as real;
      if forall i :: 0 <= i < |predictions| ==> predictions[i].probability >= 0.0 then
        WeightedSumNonNegative(predictions);
        Min(mean, 100.0)
      else Min(mean, 100.0)
  }

  function Probability(h: Hazard): real
  {
    h.probability
  }

  /** predict. */
  function Predict(input: PredictionInput): (r: PredictionOutput)
    ensures multiset(r.predictions) == multiset(KeptPredictions(input))
    ensures SortedDesc(r.predictions, Probability)
    ensures r.overallRisk == OverallRisk(KeptPredictions(input))
    ensures r.riskLevel == RiskEngine.RiskLevel(r.overallRisk)
  {
    var kept := KeptPredictions(input);
    var overallRisk := OverallRisk(kept);
    PredictionOutput(SortDesc(kept, Probability), overallRisk, RiskEngine.RiskLevel(overallRisk))
  }

  /** Every emitted prediction clears its threshold and has a probability of
      at most 1; a prediction of each type is emitted exactly when its
      predictor clears the threshold. */
  lemma PredictedHazards(input: PredictionInput)
    ensures var ps := Predict(input).predictions;
      (forall i :: 0 <= i < |ps| ==> Kept(ps[i]) && ps[i].probability <= 1.0) &&
      (forall h :: h in ps <==> h in Candidates(input) && Kept(h))
  {
    PredictionsBounded(input);
    PredictionsMembers(input);
  }

  lemma PredictionsBounded(input: PredictionInput)
    ensures var ps := Predict(input).predictions;
      forall i :: 0 <= i < |ps| ==> Kept(ps[i]) && ps[i].probability <= 1.0
  {
    KeptInRange(input);
    BoundedByKept(Predict(input).predictions, KeptPredictions(input));
  }

  lemma BoundedByKept(ps: seq<Hazard>, kept: seq<Hazard>)
    requires multiset(ps) == multiset(kept)
    requires forall h :: h in kept ==> Kept(h) && 0.0 <= h.probability <= 1.0
    ensures forall i :: 0 <= i < |ps| ==> Kept(ps[i]) && ps[i].probability <= 1.0
  {
    SameElements(ps, kept);
    forall i | 0 <= i < |ps| ensures Kept(ps[i]) && ps[i].probability <= 1.0 {
      assert ps[i] in kept;
    }
  }

  lemma PredictionsMembers(input: PredictionInput)
    ensures forall h :: h in Predict(input).predictions <==> h in Candidates(input) && Kept(h)
  {
    SameElements(Predict(input).predictions, KeptPredictions(input));
  }

  /** A kept prediction clears its threshold and is a probability. */
  lemma KeptInRange(input: PredictionInput)
    ensures forall h :: h in KeptPredictions(input) ==> Kept(h) && 0.0 <= h.probability <= 1.0
  {
    var c := Candidates(input);
    forall k | 0 <= k < 6 ensures 0.0 <= c[k].probability <= 1.0 {
    }
    forall h | h in KeptPredictions(input) ensures Kept(h) && 0.0 <= h.probability <= 1.0 {
      assert h in c;
    }
  }

  /** The unsafe-speed prediction is kept exactly when the vehicle is more than
      half again as fast as the safe speed; the wind prediction exactly when the
      wind is over 30 km/h. */
  lemma KeptThresholds(input: PredictionInput)
    ensures input.vehicle.Some? ==>
      (Kept(PredictUnsafeSpeed(input)) <==>
       input.vehicle.value.speed > 1.5 * SafeSpeed(input.weather, input.traffic))
    ensures Kept(PredictWindHazard(input)) <==> input.weather.windSpeed > 30.0
  {
    if input.vehicle.Some? {
      var safe := SafeSpeed(input.weather, input.traffic);
      var v := input.vehicle.value.speed;
      DivAbove(v - safe, safe, 0.5);
    }
  }

  /** Without a vehicle no unsafe-speed prediction is emitted. */
  lemma NoVehicleNoUnsafeSpeed(input: PredictionInput)
    requires input.vehicle.None?
    ensures forall i :: 0 <= i < |Predict(input).predictions| ==>
      Predict(input).predictions[i].hazardType != UnsafeSpeed
  {
    UnsafeSpeedDroppedWithoutVehicle(input);
    PredictedHazards(input);
    var ps := Predict(input).predictions;
    var c := Candidates(input);
    forall i | 0 <= i < |ps| ensures ps[i].hazardType != UnsafeSpeed {
      assert ps[i] in c && Kept(ps[i]);
      var j :| 0 <= j < 6 && c[j] == ps[i];
      assert j != 4;
      OnlyOneUnsafeSpeed(input, j);
    }
  }

  lemma UnsafeSpeedDroppedWithoutVehicle(input: PredictionInput)
    requires input.vehicle.None?
    ensures !Kept(Candidates(input)[4])
  {
    assert Candidates(input)[4] == PredictUnsafeSpeed(input) == Hazard(UnsafeSpeed, 0.0, Low, 0);
  }

  /** Only the fifth candidate is an unsafe-speed prediction. */
  lemma OnlyOneUnsafeSpeed(input: PredictionInput, j: int)
    requires 0 <= j < 6 && j != 4
    ensures Candidates(input)[j].hazardType != UnsafeSpeed
  {
  }

  /** The overall risk is 0 when nothing is predicted, and in [0, 100] otherwise. */
  lemma OverallRiskBounds(input: PredictionInput)
    ensures var out := Predict(input);
      0.0 <= out.overallRisk <= 100.0 && (out.predictions == [] ==> out.overallRisk == 0.0)
  {
    var kept := KeptPredictions(input);
    KeptInRange(input);
    assert forall i :: 0 <= i < |kept| ==> kept[i] in kept;
    SortDescLength(kept, Probability);
  }
}
