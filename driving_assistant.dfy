/** The weather driving assistant (lib/services/weather-driving-assistant.ts):
    four classifiers turn the current weather into an impact on driving, an
    overall safety score and level, a summary and a list of recommendations.
    The Arabic texts are replaced by ASCII labels of the same roles. */
module DrivingAssistant {
  import opened Common
  import WeatherService

  type CurrentWeather = WeatherService.CurrentWeather

  datatype Impact = Safe | Caution | Warning | Danger

  datatype TemperatureImpact = TemperatureImpact(value: real, impact: Impact, message: string, roadEffect: string)
  datatype WindImpact = WindImpact(speed: real, impact: Impact, message: string, controlEffect: string)
  datatype RainImpact = RainImpact(rate: real, impact: Impact, message: string, hydroplaningRisk: int)
  datatype VisibilityImpact = VisibilityImpact(distance: real, impact: Impact, message: string, recommendation: string)

  datatype Overall = Overall(safetyScore: real, level: Impact, summary: string, recommendations: seq<string>)

  datatype DrivingImpact = DrivingImpact(
    temperature: TemperatureImpact,
    wind: WindImpact,
    rain: RainImpact,
    visibility: VisibilityImpact,
    overall: Overall)

  /** analyzeTemperature. */
  function AnalyzeTemperature(temp: real): (t: TemperatureImpact)
    ensures t.value == temp
    ensures t.impact == Danger <==> temp > 45.0 || temp < 0.0
    ensures t.impact == Warning <==> 40.0 < temp <= 45.0 || 0.0 <= temp < 5.0
    ensures t.impact == Safe <==> 5.0 <= temp <= 40.0
    ensures t.impact != Caution
    ensures |t.roadEffect| > 0
  {
    if temp > 45.0 then TemperatureImpact(temp, Danger, "very high heat", "tyres and brakes at risk of blow-out")
    else if temp > 40.0 then TemperatureImpact(temp, Warning, "high heat", "vehicle performance may suffer")
    else if temp < 0.0 then TemperatureImpact(temp, Danger, "below freezing", "road may freeze, use winter tyres")
    else if temp < 5.0 then TemperatureImpact(temp, Warning, "low temperature", "watch for ice on the road")
    else TemperatureImpact(temp, Safe, "suitable temperature", "normal road conditions")
  }

  /** analyzeWind; the direction is not read. */
  function AnalyzeWind(speed: real): (w: WindImpact)
    ensures w.speed == speed
    ensures w.impact == Danger <==> speed > 50.0
    ensures w.impact == Warning <==> 40.0 < speed <= 50.0
    ensures w.impact == Caution <==> 30.0 < speed <= 40.0
    ensures w.impact == Safe <==> speed <= 30.0
    ensures |w.controlEffect| > 0
  {
    if speed > 50.0 then WindImpact(speed, Danger, "very strong wind", "severe effect on control, risk for high vehicles")
    else if speed > 40.0 then WindImpact(speed, Warning, "strong wind", "affects control, reduce speed")
    else if speed > 30.0 then WindImpact(speed, Caution, "moderate wind", "slight effect on control")
    else WindImpact(speed, Safe, "light wind", "no effect on control")
  }

  /** analyzeRain; the precipitation is not read. */
  function AnalyzeRain(rate: real): (r: RainImpact)
    ensures r.rate == rate
    ensures r.hydroplaningRisk in {0, 10, 30, 60, 90}
    ensures r.impact == Danger <==> rate > 20.0
    ensures r.impact == Warning <==> 10.0 < rate <= 20.0
    ensures r.impact == Caution <==> 5.0 < rate <= 10.0
    ensures r.hydroplaningRisk > 50 <==> rate > 10.0
    ensures r.hydroplaningRisk == 0 <==> rate <= 0.0
  {
    if rate > 20.0 then RainImpact(rate, Danger, "very heavy rain", 90)
    else if rate > 10.0 then RainImpact(rate, Warning, "heavy rain", 60)
    else if rate > 5.0 then RainImpact(rate, Caution, "moderate rain", 30)
    else if rate > 0.0 then RainImpact(rate, Safe, "light rain", 10)
    else RainImpact(rate, Safe, "no rain", 0)
  }

  /** The hydroplaning risk never falls as the rain gets heavier. */
  lemma HydroplaningMonotone(rate1: real, rate2: real)
    requires rate1 <= rate2
    ensures AnalyzeRain(rate1).hydroplaningRisk <= AnalyzeRain(rate2).hydroplaningRisk
  {
  }

  /** analyzeVisibility; the condition is not read. A safe visibility has an
      empty recommendation. */
  function AnalyzeVisibility(distance: real): (v: VisibilityImpact)
    ensures v.distance == distance
    ensures v.impact == Danger <==> distance < 100.0
    ensures v.impact == Warning <==> 100.0 <= distance < 200.0
    ensures v.impact == Caution <==> 200.0 <= distance < 500.0
    ensures v.impact == Safe <==> distance >= 500.0
    ensures v.recommendation == "" <==> v.impact == Safe
  {
    if distance < 50.0 then VisibilityImpact(distance, Danger, "very dangerous visibility", "stop now, do not drive")
    else if distance < 100.0 then VisibilityImpact(distance, Danger, "dangerous visibility", "below 30 km/h, use headlights")
    else if distance < 200.0 then VisibilityImpact(distance, Warning, "low visibility", "reduce speed, use fog lights")
    else if distance < 500.0 then VisibilityImpact(distance, Caution, "moderate visibility", "watch for falling visibility")
    else VisibilityImpact(distance, Safe, "excellent visibility", "")
  }

  /** The score weight of an impact. */
  function Weight(i: Impact): real
  {
    match i
    case Danger => 20.0
    case Warning => 50.0
    case Caution => 75.0
    case Safe => 100.0
  }

  function SumWeights(impacts: seq<Impact>): real
  {
    if impacts == [] then 0.0 else Weight(impacts[0]) + SumWeights(impacts[1..])
  }

  /** calculateSafetyScore: the mean weight of the impacts. */
  function SafetyScore(impacts: seq<Impact>): real
    requires |impacts| > 0
  {
    SumWeights(impacts) / (|impacts| as real)
  }

  lemma {:induction false} SumWeightsBounds(impacts: seq<Impact>)
    ensures 20.0 * (|impacts| as real) <= SumWeights(impacts) <= 100.0 * (|impacts| as real)
    ensures SumWeights(impacts) == 100.0 * (|impacts| as real) <==> forall i :: 0 <= i < |impacts| ==> impacts[i] == Safe
  {
    if impacts != [] {
      SumWeightsBounds(impacts[1..]);
      if forall i :: 0 <= i < |impacts[1..]| ==> impacts[1..][i] == Safe {
        if impacts[0] == Safe {
          forall i | 0 <= i < |impacts| ensures impacts[i] == Safe {
            if i > 0 { assert impacts[i] == impacts[1..][i - 1]; }
          }
        }
      }
    }
  }

  /** The score of four factors lies between 20 and 100, and is 100 exactly
      when all four are safe. */
  lemma SafetyScoreBounds(impacts: seq<Impact>)
    requires |impacts| == 4
    ensures 20.0 <= SafetyScore(impacts) <= 100.0
    ensures SafetyScore(impacts) == 100.0 <==> forall i :: 0 <= i < 4 ==> impacts[i] == Safe
  {
    SumWeightsBounds(impacts);
  }

  /** getSafetyLevel. */
  function SafetyLevel(score: real): (l: Impact)
    ensures l == Danger <==> score < 30.0
    ensures l == Warning <==> 30.0 <= score < 50.0
    ensures l == Caution <==> 50.0 <= score < 75.0
    ensures l == Safe <==> score >= 75.0
  {
    if score < 30.0 then Danger
    else if score < 50.0 then Warning
    else if score < 75.0 then Caution
    else Safe
  }

  function SumOfFour(a: Impact, b: Impact, c: Impact, d: Impact): real
  {
    Weight(a) + Weight(b) + Weight(c) + Weight(d)
  }

  lemma SumOfFourIsSum(a: Impact, b: Impact, c: Impact, d: Impact)
    ensures SafetyScore([a, b, c, d]) == SumOfFour(a, b, c, d) / 4.0
  {
    assert [a, b, c, d][1..] == [b, c, d];
    assert [b, c, d][1..] == [c, d];
    assert [c, d][1..] == [d];
    assert SumWeights([d]) == Weight(d) + SumWeights([]);
    assert SumWeights([c, d]) == Weight(c) + SumWeights([d]);
    assert SumWeights([b, c, d]) == Weight(b) + SumWeights([c, d]);
  }

  /** One dangerous factor with the other three safe still gives a safe level;
      the overall level is danger only with at least three dangerous factors. */
  lemma LevelNeedsSeveralDangers(a: Impact, b: Impact, c: Impact, d: Impact)
    ensures a == Danger && b == Safe && c == Safe && d == Safe ==> SafetyLevel(SafetyScore([a, b, c, d])) == Safe
    ensures SafetyLevel(SafetyScore([a, b, c, d])) == Danger ==>
      (a == Danger && b == Danger && c == Danger) || (a == Danger && b == Danger && d == Danger) ||
      (a == Danger && c == Danger && d == Danger) || (b == Danger && c == Danger && d == Danger)
  {
    SumOfFourIsSum(a, b, c, d);
  }

  /** The messages of the factors at danger level, in factor order. */
  function DangerMessages(t: TemperatureImpact, w: WindImpact, r: RainImpact, v: VisibilityImpact): seq<string>
  {
    (if t.impact == Danger then [t.message] else []) +
    (if w.impact == Danger then [w.message] else []) +
    (if r.impact == Danger then [r.message] else []) +
    (if v.impact == Danger then [v.message] else [])
  }

  const DangerPrefix: string := "dangerous conditions: "
  const SummarySeparator: string := "\U{060C} "
  const HardSummary: string := "hard driving conditions, take care"
  const ModerateSummary: string := "moderate driving conditions, pay attention"
  const SafeSummary: string := "safe driving conditions"

  /** generateSummary. */
  function Summary(level: Impact, t: TemperatureImpact, w: WindImpact, r: RainImpact, v: VisibilityImpact): (s: string)
    ensures |DangerMessages(t, w, r, v)| > 0 ==> DangerPrefix <= s
    ensures |DangerMessages(t, w, r, v)| == 0 ==>
      s == (if level == Warning then HardSummary else if level == Caution then ModerateSummary else SafeSummary)
  {
    var critical := DangerMessages(t, w, r, v);
    if |critical| > 0 then DangerPrefix + Join(critical, SummarySeparator)
    else if level == Warning then HardSummary
    else if level == Caution then ModerateSummary
    else SafeSummary
  }

  /** Every factor at danger level is named in the summary. */
  lemma SummaryNamesDangers(level: Impact, t: TemperatureImpact, w: WindImpact, r: RainImpact, v: VisibilityImpact,
                            i: nat)
    requires i < |DangerMessages(t, w, r, v)|
    ensures Contains(Summary(level, t, w, r, v), DangerMessages(t, w, r, v)[i])
  {
    var critical := DangerMessages(t, w, r, v);
    JoinContainsParts(critical, SummarySeparator, i);
    ContainsInSuffix(DangerPrefix, Join(critical, SummarySeparator), critical[i]);
  }

  /** Each factor's message is among the danger messages exactly when that
      factor is at danger level. */
  lemma DangerMessagesMembers(t: TemperatureImpact, w: WindImpact, r: RainImpact, v: VisibilityImpact)
    ensures t.impact == Danger ==> t.message in DangerMessages(t, w, r, v)
    ensures w.impact == Danger ==> w.message in DangerMessages(t, w, r, v)
    ensures r.impact == Danger ==> r.message in DangerMessages(t, w, r, v)
    ensures v.impact == Danger ==> v.message in DangerMessages(t, w, r, v)
    ensures |DangerMessages(t, w, r, v)| > 0 <==>
      t.impact == Danger || w.impact == Danger || r.impact == Danger || v.impact == Danger
  {
  }

  const HydroplaningAdvice: string := "reduce speed to avoid hydroplaning"

  /** The recommendations in the order they are pushed: visibility, rain,
      wind, temperature. */
  function Recommendations(t: TemperatureImpact, w: WindImpact, r: RainImpact, v: VisibilityImpact): seq<string>
  {
    (if v.impact == Danger || v.impact == Warning then [v.recommendation] else []) +
    (if r.hydroplaningRisk > 50 then [HydroplaningAdvice] else []) +
    (if w.impact == Danger || w.impact == Warning then [w.controlEffect] else []) +
    (if t.impact == Danger then [t.roadEffect] else [])
  }

  /** generateRecommendations. */
  method GenerateRecommendations(t: TemperatureImpact, w: WindImpact, r: RainImpact, v: VisibilityImpact)
    returns (recommendations: seq<string>)
    ensures recommendations == Recommendations(t, w, r, v)
  {
    recommendations := [];
    if v.impact == Danger || v.impact == Warning {
      recommendations := recommendations + [v.recommendation];
    }
    if r.hydroplaningRisk > 50 {
      recommendations := recommendations + [HydroplaningAdvice];
    }
    if w.impact == Danger || w.impact == Warning {
      recommendations := recommendations + [w.controlEffect];
    }
    if t.impact == Danger {
      recommendations := recommendations + [t.roadEffect];
    }
  }

  /** The hydroplaning advice is unlike every other recommendation text. */
  lemma HydroplaningAdviceDistinct(t: TemperatureImpact, w: WindImpact, v: VisibilityImpact)
    requires t == AnalyzeTemperature(t.value) && w == AnalyzeWind(w.speed) && v == AnalyzeVisibility(v.distance)
    ensures HydroplaningAdvice != v.recommendation
    ensures HydroplaningAdvice != w.controlEffect
    ensures HydroplaningAdvice != t.roadEffect
  {
    assert |HydroplaningAdvice| == 34;
  }

  /** The list for any impacts whose texts are non-empty when shown and differ
      from the hydroplaning advice: the advice is in it exactly for a high
      hydroplaning risk, a shown visibility recommendation is first, a shown
      temperature effect is last, and no item is empty. */
  lemma RecommendationsShape(t: TemperatureImpact, w: WindImpact, r: RainImpact, v: VisibilityImpact)
    requires HydroplaningAdvice != v.recommendation && HydroplaningAdvice != w.controlEffect
    requires HydroplaningAdvice != t.roadEffect
    requires |t.roadEffect| > 0 && |w.controlEffect| > 0
    requires v.impact in {Danger, Warning} ==> |v.recommendation| > 0
    ensures var recs := Recommendations(t, w, r, v);
      (HydroplaningAdvice in recs <==> r.hydroplaningRisk > 50) &&
      (v.impact in {Danger, Warning} ==> |recs| > 0 && recs[0] == v.recommendation) &&
      (t.impact == Danger ==> |recs| > 0 && recs[|recs| - 1] == t.roadEffect) &&
      (forall i :: 0 <= i < |recs| ==> |recs[i]| > 0)
  {
    assert |HydroplaningAdvice| > 0;
  }

  /** On the assistant's own classifications: the hydroplaning advice is given
      exactly when the rain rate is over 10; a visibility recommendation, when
      given, comes first and a temperature one last; and every recommendation
      given is a non-empty text. */
  lemma RecommendationsFacts(weather: CurrentWeather)
    ensures var t := AnalyzeTemperature(weather.temperature);
      var w := AnalyzeWind(weather.windSpeed);
      var r := AnalyzeRain(weather.rainRate);
      var v := AnalyzeVisibility(weather.visibility);
      var recs := Recommendations(t, w, r, v);
      (HydroplaningAdvice in recs <==> weather.rainRate > 10.0) &&
      (weather.visibility < 200.0 ==> |recs| > 0 && recs[0] == v.recommendation) &&
      (weather.temperature > 45.0 || weather.temperature < 0.0 ==> |recs| > 0 && recs[|recs| - 1] == t.roadEffect) &&
      (forall i :: 0 <= i < |recs| ==> |recs[i]| > 0)
  {
    var t := AnalyzeTemperature(weather.temperature);
    var w := AnalyzeWind(weather.windSpeed);
    var r := AnalyzeRain(weather.rainRate);
    var v := AnalyzeVisibility(weather.visibility);
    HydroplaningAdviceDistinct(t, w, v);
    RecommendationsShape(t, w, r, v);
  }

  /** analyze. */
  method Analyze(weather: CurrentWeather) returns (d: DrivingImpact)
    ensures d.temperature == AnalyzeTemperature(weather.temperature)
    ensures d.wind == AnalyzeWind(weather.windSpeed)
    ensures d.rain == AnalyzeRain(weather.rainRate)
    ensures d.visibility == AnalyzeVisibility(weather.visibility)
    ensures 20.0 <= d.overall.safetyScore <= 100.0
    ensures d.overall.safetyScore ==
      SafetyScore([d.temperature.impact, d.wind.impact, d.rain.impact, d.visibility.impact])
    ensures d.overall.level == SafetyLevel(d.overall.safetyScore)
    ensures d.overall.summary == Summary(d.overall.level, d.temperature, d.wind, d.rain, d.visibility)
    ensures d.overall.recommendations == Recommendations(d.temperature, d.wind, d.rain, d.visibility)
  {
    var temperature := AnalyzeTemperature(weather.temperature);
    var wind := AnalyzeWind(weather.windSpeed);
    var rain := AnalyzeRain(weather.rainRate);
    var visibility := AnalyzeVisibility(weather.visibility);
    var impacts := [temperature.impact, wind.impact, rain.impact, visibility.impact];
    SafetyScoreBounds(impacts);
    var safetyScore := SafetyScore(impacts);
    var level := SafetyLevel(safetyScore);
    var summary := Summary(level, temperature, wind, rain, visibility);
    var recommendations := GenerateRecommendations(temperature, wind, rain, visibility);
    d := DrivingImpact(temperature, wind, rain, visibility, Overall(safetyScore, level, summary, recommendations));
  }

  /** Fair weather gives a perfect score, a safe level, the safe summary and no
      recommendations. */
  lemma FairWeather(weather: CurrentWeather)
    requires 5.0 <= weather.temperature <= 40.0 && weather.windSpeed <= 30.0 &&
             weather.rainRate <= 5.0 && weather.visibility >= 500.0
    ensures var t := AnalyzeTemperature(weather.temperature);
      var w := AnalyzeWind(weather.windSpeed);
      var r := AnalyzeRain(weather.rainRate);
      var v := AnalyzeVisibility(weather.visibility);
      var score := SafetyScore([t.impact, w.impact, r.impact, v.impact]);
      score == 100.0 && SafetyLevel(score) == Safe &&
      Summary(SafetyLevel(score), t, w, r, v) == SafeSummary &&
      Recommendations(t, w, r, v) == []
  {
    var t := AnalyzeTemperature(weather.temperature);
    var w := AnalyzeWind(weather.windSpeed);
    var r := AnalyzeRain(weather.rainRate);
    var v := AnalyzeVisibility(weather.visibility);
    SafetyScoreBounds([t.impact, w.impact, r.impact, v.impact]);
  }
}
