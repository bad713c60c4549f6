/** The risk engine (lib/engines/risk-engine.ts): four factor scores from
    weather, traffic, visibility and the vehicle's speed, their weighted
    combination, its level, the recommended action, the dominant category,
    the confidence and the details lists. */
module RiskEngine {
  import opened Common
  import opened WeatherService

  datatype RoadType = Highway | Urban | Rural

  /** The vehicle, when one is reported: speed in km/h, heading in degrees. */
  datatype Vehicle = Vehicle(speed: real, heading: real, roadType: Option<RoadType>)

  /** Traffic on the segment: index 0-100, speed in km/h, density in vehicles/km. */
  datatype TrafficReading = TrafficReading(congestionIndex: real, avgSpeed: real, density: real)

  /** The engine's input; the location and timestamp it also carries are not read. */
  datatype RiskInput = RiskInput(weather: CurrentWeather, traffic: TrafficReading, vehicle: Option<Vehicle>)

  datatype Factors = Factors(weather: real, traffic: real, visibility: real, speed: real)

  datatype RiskCategory = WeatherCategory | TrafficCategory | RoadCategory | VisibilityCategory | CombinedCategory

  datatype Action = Continue | SlowDown | Reroute | Stop | Caution

  /** The factors a secondary risk can name, in the order they are listed. */
  datatype Factor = WeatherFactor | TrafficFactor | VisibilityFactor | SpeedFactor

  /** The mitigation advice, in the order it is listed. */
  datatype Mitigation = ReduceSpeedForVisibility | UseHeadlights | WatchForSlipperyRoads
                      | IncreaseFollowingDistance | ConsiderAlternativeRoute | ReduceSpeedForConditions

  /** The engine's output; `primaryRisk` is the category its text names. */
  datatype RiskOutput = RiskOutput(
    riskScore: int,
    riskLevel: Severity,
    riskCategory: RiskCategory,
    recommendedAction: Action,
    confidence: real,
    factors: Factors,
    combined: real,
    primaryRisk: RiskCategory,
    secondaryRisks: seq<Factor>,
    mitigation: seq<Mitigation>)

  /** The condition table; conditions outside it have no entry. */
  function ConditionRisk(condition: string): (r: Option<real>)
    ensures r.Some? ==> 0.0 <= r.value <= 70.0
    ensures condition == "clear" ==> r == Some(0.0)
  {
    if condition == "clear" then Some(0.0)
    else if condition == "partly_cloudy" then Some(5.0)
    else if condition == "cloudy" then Some(10.0)
    else if condition == "rain" then Some(30.0)
    else if condition == "heavy_rain" then Some(50.0)
    else if condition == "snow" then Some(40.0)
    else if condition == "fog" then Some(60.0)
    else if condition == "storm" then Some(70.0)
    else None
  }

  /** `conditionRisk[condition] || 20`: the table's 0 for 'clear' is falsy, so
      'clear' scores like an unknown condition. */
  function ConditionPoints(condition: string): (r: real)
    ensures 5.0 <= r <= 70.0
    ensures condition == "clear" || ConditionRisk(condition).None? ==> r == 20.0
    ensures ConditionRisk(condition).Some? && condition != "clear" ==> r == ConditionRisk(condition).value
  {
    OrElse(ConditionRisk(condition), 20.0)
  }

  function RainPoints(rainRate: real): (r: real)
    ensures 0.0 <= r <= 40.0
  {
    if rainRate > 0.0 then Min(rainRate * 2.0, 40.0) else 0.0
  }

  function WindPoints(windSpeed: real): (r: real)
    ensures 0.0 <= r <= 20.0
  {
    if windSpeed > 30.0 then Min((windSpeed - 30.0) * 0.5, 20.0) else 0.0
  }

  /** calculateWeatherRisk. */
  function WeatherRisk(weather: CurrentWeather): (r: real)
    ensures 5.0 <= r <= 100.0
  {
    var rain := RainPoints(weather.rainRate);
    var wind := WindPoints(weather.windSpeed);
    var temperature := if weather.temperature > 45.0 || weather.temperature < 0.0 then 15.0 else 0.0;
    Min(rain + wind + temperature + ConditionPoints(weather.condition), 100.0)
  }

  /** More rain or more wind never lowers the weather risk. */
  lemma WeatherRiskMonotone(w1: CurrentWeather, w2: CurrentWeather)
    requires w1.temperature == w2.temperature && w1.condition == w2.condition
    requires w1.rainRate <= w2.rainRate && w1.windSpeed <= w2.windSpeed
    ensures WeatherRisk(w1) <= WeatherRisk(w2)
  {
    assert RainPoints(w1.rainRate) <= RainPoints(w2.rainRate);
    assert WindPoints(w1.windSpeed) <= WindPoints(w2.windSpeed);
  }

  function SlowTrafficPoints(avgSpeed: real): (r: real)
  {
    if avgSpeed < 20.0 then 30.0 else if avgSpeed < 40.0 then 15.0 else 0.0
  }

  function DensityPoints(density: real): (r: real)
    ensures 0.0 <= r <= 20.0
  {
    if density > 50.0 then Min((density - 50.0) * 0.5, 20.0) else 0.0
  }

  /** calculateTrafficRisk. */
  function TrafficRisk(traffic: TrafficReading): (r: real)
    ensures r <= 100.0
    ensures traffic.congestionIndex >= 0.0 ==> r >= 0.0
  {
    Min(traffic.congestionIndex * 0.5 + SlowTrafficPoints(traffic.avgSpeed) + DensityPoints(traffic.density), 100.0)
  }

  /** Traffic risk grows with congestion and density and falls with speed. */
  lemma TrafficRiskMonotone(t1: TrafficReading, t2: TrafficReading)
    requires t1.congestionIndex <= t2.congestionIndex && t1.density <= t2.density
    requires t2.avgSpeed <= t1.avgSpeed
    ensures TrafficRisk(t1) <= TrafficRisk(t2)
  {
    assert SlowTrafficPoints(t1.avgSpeed) <= SlowTrafficPoints(t2.avgSpeed);
    assert DensityPoints(t1.density) <= DensityPoints(t2.density);
  }

  /** calculateVisibilityRisk: a step function of the visibility in metres. */
  function VisibilityRisk(visibility: real): (r: real)
    ensures r == 0.0 <==> visibility >= 1000.0
    ensures r == 20.0 <==> 500.0 <= visibility < 1000.0
    ensures r == 40.0 <==> 200.0 <= visibility < 500.0
    ensures r == 60.0 <==> 100.0 <= visibility < 200.0
    ensures r == 80.0 <==> 50.0 <= visibility < 100.0
    ensures r == 100.0 <==> visibility < 50.0
  {
    if visibility >= 1000.0 then 0.0
    else if visibility >= 500.0 then 20.0
    else if visibility >= 200.0 then 40.0
    else if visibility >= 100.0 then 60.0
    else if visibility >= 50.0 then 80.0
    else 100.0
  }

  /** Better visibility never raises the visibility risk. */
  lemma VisibilityRiskNonIncreasing(v1: real, v2: real)
    requires v1 <= v2
    ensures VisibilityRisk(v2) <= VisibilityRisk(v1)
  {
  }

  /** calculateSpeedRisk. */
  function SpeedRisk(vehicle: Option<Vehicle>, traffic: TrafficReading): (r: real)
    ensures 0.0 <= r <= 100.0
    ensures vehicle.None? ==> r == 0.0
  {
    match vehicle
    case None => 0.0
    case Some(v) =>
      var speedDiff := v.speed - traffic.avgSpeed;
      var relative := if speedDiff > 20.0 then 30.0 else if speedDiff < -20.0 then 20.0 else 0.0;
      var absolute := if v.speed > 120.0 then 40.0 else if v.speed > 100.0 then 20.0 else 0.0;
      var road := if v.roadType == Some(Highway) && v.speed < 60.0 then 15.0 else 0.0;
      Min(relative + absolute + road, 100.0)
  }

  /** The cap of 100 on the speed risk never binds: the largest sum is 70. */
  lemma SpeedRiskAtMostSeventy(vehicle: Option<Vehicle>, traffic: TrafficReading)
    ensures SpeedRisk(vehicle, traffic) <= 70.0
  {
  }

  /** The weighted sum of the factors; the weights sum to 1. */
  function WeightedSum(f: Factors): real
  {
    f.weather * 0.25 + f.traffic * 0.20 + f.visibility * 0.35 + f.speed * 0.20
  }

  /** How many factors exceed 50. */
  function HighRiskCount(f: Factors): (n: nat)
    ensures n <= 4
  {
    (if f.weather > 50.0 then 1 else 0) + (if f.traffic > 50.0 then 1 else 0) +
    (if f.visibility > 50.0 then 1 else 0) + (if f.speed > 50.0 then 1 else 0)
  }

  predicate InScoreRange(f: Factors)
  {
    0.0 <= f.weather <= 100.0 && 0.0 <= f.traffic <= 100.0 &&
    0.0 <= f.visibility <= 100.0 && 0.0 <= f.speed <= 100.0
  }

  /** combineRisks: the weighted sum, raised by 20% when at least two factors
      exceed 50, capped at 100. */
  function CombineRisks(f: Factors): (r: real)
    ensures r <= 100.0
    ensures InScoreRange(f) ==> 0.0 <= r
    ensures HighRiskCount(f) < 2 ==> r == Min(WeightedSum(f), 100.0)
    ensures HighRiskCount(f) >= 2 ==> r == Min(WeightedSum(f) * 1.2, 100.0)
  {
    var combined := WeightedSum(f);
    if HighRiskCount(f) >= 2 then Min(combined * 1.2, 100.0) else Min(combined, 100.0)
  }

  /** When all four factors agree, the combination is that value, raised by the
      penalty when it exceeds 50: the weights sum to 1. */
  lemma CombineUniform(x: real)
    requires 0.0 <= x <= 100.0
    ensures CombineRisks(Factors(x, x, x, x)) == if x > 50.0 then Min(x * 1.2, 100.0) else x
  {
    assert WeightedSum(Factors(x, x, x, x)) == x;
  }

  /** Raising any factor never lowers the combined risk. */
  lemma CombineMonotone(f1: Factors, f2: Factors)
    requires InScoreRange(f1)
    requires f1.weather <= f2.weather && f1.traffic <= f2.traffic
    requires f1.visibility <= f2.visibility && f1.speed <= f2.speed
    ensures CombineRisks(f1) <= CombineRisks(f2)
  {
    assert HighRiskCount(f1) <= HighRiskCount(f2);
    assert 0.0 <= WeightedSum(f1) <= WeightedSum(f2);
  }

  /** getRiskLevel (the same breakpoints serve the hazard predictions). */
  function RiskLevel(score: real): (level: Severity)
    ensures level == Critical <==> score >= 80.0
    ensures level == High <==> 60.0 <= score < 80.0
    ensures level == Medium <==> 30.0 <= score < 60.0
    ensures level == Low <==> score < 30.0
  {
    if score >= 80.0 then Critical
    else if score >= 60.0 then High
    else if score >= 30.0 then Medium
    else Low
  }

  lemma RiskLevelMonotone(s1: real, s2: real)
    requires s1 <= s2
    ensures Rank(RiskLevel(s1)) <= Rank(RiskLevel(s2))
  {
  }

  /** getRecommendedAction. */
  function RecommendedAction(score: real, level: Severity): (a: Action)
    ensures a == Stop <==> level == Critical && score > 90.0
    ensures a == Reroute <==> (level == Critical && score <= 90.0) || level == High
    ensures a == SlowDown <==> level == Medium
    ensures a == Caution <==> level == Low && score > 20.0
    ensures a == Continue <==> level == Low && score <= 20.0
  {
    match level
    case Critical => if score > 90.0 then Stop else Reroute
    case High => Reroute
    case Medium => SlowDown
    case Low => if score > 20.0 then Caution else Continue
  }

  /** The action for a score and its own level, as bands of the score. */
  lemma ActionBands(score: real)
    ensures var a := RecommendedAction(score, RiskLevel(score));
      (a == Stop <==> score > 90.0) &&
      (a == Reroute <==> 60.0 <= score <= 90.0) &&
      (a == SlowDown <==> 30.0 <= score < 60.0) &&
      (a == Caution <==> 20.0 < score < 30.0) &&
      (a == Continue <==> score <= 20.0)
  {
  }

  function Max4(f: Factors): (m: real)
    ensures m >= f.weather && m >= f.traffic && m >= f.visibility && m >= f.speed
    ensures m == f.weather || m == f.traffic || m == f.visibility || m == f.speed
  {
    Max(Max(Max(f.weather, f.traffic), f.visibility), f.speed)
  }

  /** getRiskCategory (getPrimaryRisk uses the same tests): the largest factor,
      ties broken visibility, weather, traffic, speed. */
  function Category(f: Factors): (c: RiskCategory)
    ensures c != CombinedCategory
    ensures c == VisibilityCategory <==> f.visibility == Max4(f)
    ensures c == WeatherCategory <==> f.weather == Max4(f) && f.visibility != Max4(f)
    ensures c == TrafficCategory <==> f.traffic == Max4(f) && f.visibility != Max4(f) && f.weather != Max4(f)
    ensures c == RoadCategory <==>
      f.speed == Max4(f) && f.visibility != Max4(f) && f.weather != Max4(f) && f.traffic != Max4(f)
  {
    var maxFactor := Max4(f);
    if f.visibility == maxFactor then VisibilityCategory
    else if f.weather == maxFactor then WeatherCategory
    else if f.traffic == maxFactor then TrafficCategory
    else if f.speed == maxFactor then RoadCategory
    else CombinedCategory
  }

  /** calculateConfidence; a visibility of 0 is the missing reading. */
  function Confidence(input: RiskInput): (c: real)
    ensures 0.7 <= c <= 1.0
    ensures c == 1.0 <==> input.vehicle.Some? && input.weather.visibility != 0.0
    ensures input.vehicle.None? <==> c <= 0.8
  {
    var withoutVehicle := if input.vehicle.None? then 1.0 - 0.2 else 1.0;
    var withoutVisibility := if input.weather.visibility == 0.0 then withoutVehicle - 0.1 else withoutVehicle;
    Max(withoutVisibility, 0.5)
  }

  function FactorValue(f: Factors, which: Factor): real
  {
    match which
    case WeatherFactor => f.weather
    case TrafficFactor => f.traffic
    case VisibilityFactor => f.visibility
    case SpeedFactor => f.speed
  }

  function FactorRank(which: Factor): int
  {
    match which
    case WeatherFactor => 0
    case TrafficFactor => 1
    case VisibilityFactor => 2
    case SpeedFactor => 3
  }

  /** A factor getSecondaryRisks lists: above 30 and not the largest. */
  predicate IsSecondary(f: Factors, which: Factor)
  {
    FactorValue(f, which) > 30.0 && FactorValue(f, which) != Max4(f)
  }

  function SecondaryIf(f: Factors, which: Factor): (r: seq<Factor>)
    ensures forall x :: x in r <==> x == which && IsSecondary(f, which)
    ensures RankedWithin(r, FactorRank, FactorRank(which), FactorRank(which) + 1)
  {
    if IsSecondary(f, which) then [which] else []
  }

  /** getSecondaryRisks: every factor above 30 that is not the largest. */
  function SecondaryRisks(f: Factors): (r: seq<Factor>)
    ensures forall i, j :: 0 <= i < j < |r| ==> FactorRank(r[i]) < FactorRank(r[j])
  {
    var weather := SecondaryIf(f, WeatherFactor);
    var traffic := SecondaryIf(f, TrafficFactor);
    var visibility := SecondaryIf(f, VisibilityFactor);
    var speed := SecondaryIf(f, SpeedFactor);
    RankedAppend(weather, traffic, FactorRank, 0, 1, 2);
    RankedAppend(weather + traffic, visibility, FactorRank, 0, 2, 3);
    RankedAppend(weather + traffic + visibility, speed, FactorRank, 0, 3, 4);
    weather + traffic + visibility + speed
  }

  /** A factor is listed as secondary exactly when it exceeds 30 and is not the largest. */
  lemma SecondaryRisksMembers(f: Factors, which: Factor)
    ensures which in SecondaryRisks(f) <==> FactorValue(f, which) > 30.0 && FactorValue(f, which) != Max4(f)
  {
    assert SecondaryRisks(f) == SecondaryIf(f, WeatherFactor) + SecondaryIf(f, TrafficFactor) +
      SecondaryIf(f, VisibilityFactor) + SecondaryIf(f, SpeedFactor);
  }

  /** The position of a mitigation in the list getMitigation builds. */
  function MitigationRank(m: Mitigation): int
  {
    match m
    case ReduceSpeedForVisibility => 0
    case UseHeadlights => 1
    case WatchForSlipperyRoads => 2
    case IncreaseFollowingDistance => 3
    case ConsiderAlternativeRoute => 4
    case ReduceSpeedForConditions => 5
  }

  /** The runs of mitigations that getMitigation pushes for each factor. */
  function VisibilityMitigations(c: bool): (r: seq<Mitigation>)
    ensures RankedWithin(r, MitigationRank, 0, 2)
  {
    if c then [ReduceSpeedForVisibility, UseHeadlights] else []
  }

  function WeatherMitigations(c: bool): (r: seq<Mitigation>)
    ensures RankedWithin(r, MitigationRank, 2, 4)
  {
    if c then [WatchForSlipperyRoads, IncreaseFollowingDistance] else []
  }

  function TrafficMitigations(c: bool): (r: seq<Mitigation>)
    ensures RankedWithin(r, MitigationRank, 4, 5)
  {
    if c then [ConsiderAlternativeRoute] else []
  }

  function SpeedMitigations(c: bool): (r: seq<Mitigation>)
    ensures RankedWithin(r, MitigationRank, 5, 6)
  {
    if c then [ReduceSpeedForConditions] else []
  }

  /** getMitigation: the mitigations of every factor above 50. */
  function Mitigations(input: RiskInput, f: Factors): (r: seq<Mitigation>)
    ensures ReduceSpeedForVisibility in r <==> f.visibility > 50.0
    ensures UseHeadlights in r <==> f.visibility > 50.0
    ensures WatchForSlipperyRoads in r <==> f.weather > 50.0
    ensures IncreaseFollowingDistance in r <==> f.weather > 50.0
    ensures ConsiderAlternativeRoute in r <==> f.traffic > 50.0
    ensures ReduceSpeedForConditions in r <==> f.speed > 50.0 && input.vehicle.Some?
    ensures |r| <= 6
  {
    (if f.visibility > 50.0 then [ReduceSpeedForVisibility, UseHeadlights] else []) +
    (if f.weather > 50.0 then [WatchForSlipperyRoads, IncreaseFollowingDistance] else []) +
    (if f.traffic > 50.0 then [ConsiderAlternativeRoute] else []) +
    (if f.speed > 50.0 && input.vehicle.Some? then [ReduceSpeedForConditions] else [])
  }

  /** Mitigations is the four runs, one per factor. */
  lemma MitigationsRuns(input: RiskInput, f: Factors)
    ensures Mitigations(input, f) ==
      VisibilityMitigations(f.visibility > 50.0) + WeatherMitigations(f.weather > 50.0) +
      TrafficMitigations(f.traffic > 50.0) + SpeedMitigations(f.speed > 50.0 && input.vehicle.Some?)
  {
  }

  /** The mitigations come in the order getMitigation pushes them, each at most once. */
  lemma MitigationsOrdered(input: RiskInput, f: Factors)
    ensures var r := Mitigations(input, f);
      forall i, j :: 0 <= i < j < |r| ==> MitigationRank(r[i]) < MitigationRank(r[j])
  {
    MitigationsRuns(input, f);
    RankedAppend4(VisibilityMitigations(f.visibility > 50.0), WeatherMitigations(f.weather > 50.0),
                  TrafficMitigations(f.traffic > 50.0), SpeedMitigations(f.speed > 50.0 && input.vehicle.Some?),
                  MitigationRank, 0, 2, 4, 5, 6);
  }

  /** The factor scores of an input. */
  function FactorsOf(input: RiskInput): (f: Factors)
    ensures 5.0 <= f.weather <= 100.0 && f.traffic <= 100.0
    ensures 0.0 <= f.visibility <= 100.0 && 0.0 <= f.speed <= 100.0
    ensures input.traffic.congestionIndex >= 0.0 ==> InScoreRange(f)
  {
    Factors(WeatherRisk(input.weather), TrafficRisk(input.traffic),
            VisibilityRisk(input.weather.visibility), SpeedRisk(input.vehicle, input.traffic))
  }

  /** Rounding keeps a combined risk at most 100, and non-negative when it is. */
  lemma ScoreBounds(x: real)
    requires x <= 100.0
    ensures Round(x) <= 100
    ensures x >= 0.0 ==> Round(x) >= 0
  {
    RoundMonotone(x, 100.0);
    RoundOfInt(100);
    if x >= 0.0 {
      RoundWithin(x, 0, 100);
    }
  }

  /** calculateRisk. The level and the action are taken from the unrounded
      combination; the score is its rounding. */
  function CalculateRisk(input: RiskInput): (r: RiskOutput)
    ensures r.factors == FactorsOf(input) && r.combined == CombineRisks(r.factors)
    ensures r.riskScore == Round(r.combined) && r.riskScore <= 100
    ensures input.traffic.congestionIndex >= 0.0 ==> 0 <= r.riskScore
    ensures r.riskLevel == RiskLevel(r.combined)
    ensures r.recommendedAction == RecommendedAction(r.combined, r.riskLevel)
    ensures r.riskCategory == Category(r.factors) && r.primaryRisk == r.riskCategory
    ensures r.confidence == Confidence(input)
    ensures r.secondaryRisks == SecondaryRisks(r.factors) && r.mitigation == Mitigations(input, r.factors)
  {
    var factors := FactorsOf(input);
    var combined := CombineRisks(factors);
    ScoreBounds(combined);
    var level := RiskLevel(combined);
    RiskOutput(Round(combined), level, Category(factors), RecommendedAction(combined, level),
               Confidence(input), factors, combined, Category(factors),
               SecondaryRisks(factors), Mitigations(input, factors))
  }
}
