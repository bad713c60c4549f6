/** Contextual rerouting (lib/engines/contextual-rerouting.ts): rerouting is
    advised for weather, heavy congestion, serious incidents or a critical risk,
    with a priority that the later checks override; and the message that tells
    the driver why. */
module ContextualRerouting {
  import opened Common
  import WeatherService
  import RiskEngine

  type CurrentWeather = WeatherService.CurrentWeather

  datatype IncidentType = Accident | Construction | Event | WeatherIncident

  /** An incident near the route; its location is not read. */
  datatype Incident = Incident(incidentType: IncidentType, severity: Severity)

  datatype ReroutingTraffic = ReroutingTraffic(congestionIndex: real, avgSpeed: real)

  datatype ReroutingContext = ReroutingContext(weather: CurrentWeather, traffic: ReroutingTraffic,
                                               incidents: Option<seq<Incident>>,
                                               risk: Option<RiskEngine.RiskOutput>)

  /** The reasons the engine gives, in place of their texts. */
  datatype Reason =
    | HeavyRain | LowVisibility | StrongWind | ExtremeTemperature | SandStorm
    | SevereCongestion
    | CriticalIncidents(count: nat)
    | CriticalRisk

  datatype ReroutingDecision = ReroutingDecision(shouldReroute: bool, reasons: seq<Reason>, priority: Severity)

  /** The position of a weather reason in checkWeather's order. */
  function WeatherRank(r: Reason): int
  {
    match r
    case HeavyRain => 0
    case LowVisibility => 1
    case StrongWind => 2
    case ExtremeTemperature => 3
    case SandStorm => 4
    case _ => 5
  }

  ghost predicate InWeatherOrder(reasons: seq<Reason>)
  {
    forall i, j :: 0 <= i < j < |reasons| ==> WeatherRank(reasons[i]) < WeatherRank(reasons[j])
  }

  function ReasonIf(fires: bool, reason: Reason): (r: seq<Reason>)
    ensures |r| <= 1 && forall i :: 0 <= i < |r| ==> r[i] == reason
    ensures forall x :: x in r <==> fires && x == reason
  {
    if fires then [reason] else []
  }

  /** The reason of each weather threshold of checkWeather. */
  function RainReason(weather: CurrentWeather): (r: seq<Reason>)
    ensures RankedWithin(r, WeatherRank, 0, 1)
  {
    ReasonIf(weather.rainRate > 10.0, HeavyRain)
  }

  function VisibilityReason(weather: CurrentWeather): (r: seq<Reason>)
    ensures RankedWithin(r, WeatherRank, 1, 2)
  {
    ReasonIf(weather.visibility < 200.0, LowVisibility)
  }

  function WindReason(weather: CurrentWeather): (r: seq<Reason>)
    ensures RankedWithin(r, WeatherRank, 2, 3)
  {
    ReasonIf(weather.windSpeed > 40.0, StrongWind)
  }

  function TemperatureReason(weather: CurrentWeather): (r: seq<Reason>)
    ensures RankedWithin(r, WeatherRank, 3, 4)
  {
    ReasonIf(weather.temperature > 45.0 || weather.temperature < 0.0, ExtremeTemperature)
  }

  function SandReason(weather: CurrentWeather): (r: seq<Reason>)
    ensures RankedWithin(r, WeatherRank, 4, 5)
  {
    ReasonIf(MentionsDustOrSand(weather.condition), SandStorm)
  }

  /** checkWeather. */
  function CheckWeather(weather: CurrentWeather): (r: seq<Reason>)
    ensures forall i :: 0 <= i < |r| ==> WeatherRank(r[i]) < 5
    ensures InWeatherOrder(r)
  {
    var rain := RainReason(weather);
    var visibility := VisibilityReason(weather);
    var wind := WindReason(weather);
    var temperature := TemperatureReason(weather);
    var sand := SandReason(weather);
    RankedAppend(rain, visibility, WeatherRank, 0, 1, 2);
    RankedAppend(rain + visibility, wind, WeatherRank, 0, 2, 3);
    RankedAppend(rain + visibility + wind, temperature, WeatherRank, 0, 3, 4);
    RankedAppend(rain + visibility + wind + temperature, sand, WeatherRank, 0, 4, 5);
    rain + visibility + wind + temperature + sand
  }

  /** Each weather reason is given exactly when its condition holds. */
  lemma CheckWeatherReasons(weather: CurrentWeather)
    ensures HeavyRain in CheckWeather(weather) <==> weather.rainRate > 10.0
    ensures LowVisibility in CheckWeather(weather) <==> weather.visibility < 200.0
    ensures StrongWind in CheckWeather(weather) <==> weather.windSpeed > 40.0
    ensures ExtremeTemperature in CheckWeather(weather) <==> weather.temperature > 45.0 || weather.temperature < 0.0
    ensures SandStorm in CheckWeather(weather) <==> MentionsDustOrSand(weather.condition)
  {
    InCheckWeather(weather, HeavyRain);
    InCheckWeather(weather, LowVisibility);
    InCheckWeather(weather, StrongWind);
    InCheckWeather(weather, ExtremeTemperature);
    InCheckWeather(weather, SandStorm);
  }

  /** A reason is in checkWeather's list exactly when one of its pieces holds it. */
  lemma InCheckWeather(weather: CurrentWeather, x: Reason)
    ensures x in CheckWeather(weather) <==>
      x in RainReason(weather) || x in VisibilityReason(weather) || x in WindReason(weather) ||
      x in TemperatureReason(weather) || x in SandReason(weather)
  {
    assert CheckWeather(weather) == RainReason(weather) + VisibilityReason(weather) + WindReason(weather) +
      TemperatureReason(weather) + SandReason(weather);
  }

  /** getWeatherPriority. */
  function WeatherPriority(weather: CurrentWeather): (p: Severity)
    ensures p == Critical <==> weather.visibility < 100.0 || weather.rainRate > 20.0 || weather.windSpeed > 50.0
    ensures p == High <==>
      !(weather.visibility < 100.0 || weather.rainRate > 20.0 || weather.windSpeed > 50.0) &&
      (weather.visibility < 200.0 || weather.rainRate > 10.0 || weather.windSpeed > 40.0)
    ensures p == Low <==> weather.visibility >= 500.0 && weather.rainRate <= 5.0 && weather.windSpeed <= 40.0
  {
    if weather.visibility < 100.0 || weather.rainRate > 20.0 || weather.windSpeed > 50.0 then Critical
    else if weather.visibility < 200.0 || weather.rainRate > 10.0 || weather.windSpeed > 40.0 then High
    else if weather.visibility < 500.0 || weather.rainRate > 5.0 then Medium
    else Low
  }

  predicate Serious(i: Incident)
  {
    i.severity == Critical || i.severity == High
  }

  /** The number of high and critical incidents. */
  function SeriousIncidents(incidents: Option<seq<Incident>>): (n: nat)
    ensures n > 0 <==> incidents.Some? && exists i :: 0 <= i < |incidents.value| && Serious(incidents.value[i])
  {
    match incidents
    case None => 0
    case Some(list) =>
      FilterNonEmpty(list, Serious);
      |Filter(list, Serious)|
  }

  predicate RiskIsCritical(risk: Option<RiskEngine.RiskOutput>)
  {
    risk.Some? && risk.value.riskLevel == Critical
  }

  /** The reasons decide gives, in order: weather, congestion, incidents, risk. */
  function ReroutingReasons(context: ReroutingContext): seq<Reason>
  {
    CheckWeather(context.weather)
    + ReasonIf(context.traffic.congestionIndex > 80.0, SevereCongestion)
    + ReasonIf(SeriousIncidents(context.incidents) > 0, CriticalIncidents(SeriousIncidents(context.incidents)))
    + ReasonIf(RiskIsCritical(context.risk), CriticalRisk)
  }

  /** The priority decide ends with: critical for a serious incident or a
      critical risk; otherwise high above 90% congestion; otherwise the weather
      priority when the weather gave a reason; otherwise low. */
  function FinalPriority(context: ReroutingContext): Severity
  {
    if SeriousIncidents(context.incidents) > 0 || RiskIsCritical(context.risk) then Critical
    else if context.traffic.congestionIndex > 90.0 then High
    else if |CheckWeather(context.weather)| > 0 then WeatherPriority(context.weather)
    else Low
  }

  /** decide: each later check may override the priority set by an earlier one. */
  method Decide(context: ReroutingContext) returns (d: ReroutingDecision)
    ensures d.shouldReroute <==> |d.reasons| > 0
    ensures d.reasons == ReroutingReasons(context)
    ensures d.priority == FinalPriority(context)
  {
    var reasons: seq<Reason> := [];
    var priority := Low;
    var shouldReroute := false;

    var weatherReasons := CheckWeather(context.weather);
    if |weatherReasons| > 0 {
      reasons := reasons + weatherReasons;
      shouldReroute := true;
      priority := WeatherPriority(context.weather);
    }
    assert reasons == weatherReasons;

    if context.traffic.congestionIndex > 80.0 {
      reasons := reasons + [SevereCongestion];
      shouldReroute := true;
      if context.traffic.congestionIndex > 90.0 {
        priority := High;
      }
    }
    ghost var afterTraffic := weatherReasons + ReasonIf(context.traffic.congestionIndex > 80.0, SevereCongestion);
    assert reasons == afterTraffic;
    ghost var serious := SeriousIncidents(context.incidents);

    if context.incidents.Some? && |context.incidents.value| > 0 {
      var criticalIncidents := Filter(context.incidents.value, Serious);
      if |criticalIncidents| > 0 {
        reasons := reasons + [CriticalIncidents(|criticalIncidents|)];
        shouldReroute := true;
        priority := Critical;
      }
    }
    assert reasons == afterTraffic + ReasonIf(serious > 0, CriticalIncidents(serious));

    if context.risk.Some? && context.risk.value.riskLevel == Critical {
      reasons := reasons + [CriticalRisk];
      shouldReroute := true;
      priority := Critical;
    }

    d := ReroutingDecision(shouldReroute, reasons, priority);
  }

  /** Rerouting is advised exactly when one of the four checks triggers; with
      none the priority stays low. */
  lemma RerouteIffTriggered(context: ReroutingContext)
    ensures |ReroutingReasons(context)| > 0 <==>
      |CheckWeather(context.weather)| > 0 || context.traffic.congestionIndex > 80.0 ||
      SeriousIncidents(context.incidents) > 0 || RiskIsCritical(context.risk)
    ensures |ReroutingReasons(context)| == 0 ==> FinalPriority(context) == Low
  {
  }

  /** Congestion over 90% turns even a critical weather priority into high,
      unless an incident or the risk makes it critical again. */
  lemma CongestionOverridesWeather(context: ReroutingContext)
    requires context.traffic.congestionIndex > 90.0
    ensures SeriousIncidents(context.incidents) == 0 && !RiskIsCritical(context.risk) ==>
      FinalPriority(context) == High
    ensures SeriousIncidents(context.incidents) > 0 || RiskIsCritical(context.risk) ==>
      FinalPriority(context) == Critical
  {
  }

  /** A weather priority above medium always comes with a rain, visibility or
      wind reason; without one the priority is low or medium, and low exactly
      when visibility is at least 500 m and rain at most 5 mm/h. */
  lemma WeatherPriorityNeedsReason(weather: CurrentWeather)
    ensures WeatherPriority(weather) in {High, Critical} ==>
      HeavyRain in CheckWeather(weather) || LowVisibility in CheckWeather(weather) ||
      StrongWind in CheckWeather(weather)
    ensures !(HeavyRain in CheckWeather(weather) || LowVisibility in CheckWeather(weather) ||
              StrongWind in CheckWeather(weather)) ==>
      WeatherPriority(weather) in {Low, Medium} &&
      (WeatherPriority(weather) == Low <==> weather.visibility >= 500.0 && weather.rainRate <= 5.0)
  {
  }

  /** The text of a reason: a fixed label per kind, the incident count in front
      of its label. */
  function ReasonText(r: Reason): (t: string)
    ensures |t| > 0
  {
    match r
    case HeavyRain => "heavy rain"
    case LowVisibility => "low visibility"
    case StrongWind => "strong wind"
    case ExtremeTemperature => "extreme temperature"
    case SandStorm => "sand storm"
    case SevereCongestion => "severe congestion"
    case CriticalIncidents(n) => NatToString(n) + " critical incidents"
    case CriticalRisk => "critical risk on the route"
  }

  function ReasonTexts(reasons: seq<Reason>): (ts: seq<string>)
    ensures |ts| == |reasons|
    ensures forall i :: 0 <= i < |reasons| ==> ts[i] == ReasonText(reasons[i])
  {
    seq(|reasons|, i requires 0 <= i < |reasons| => ReasonText(reasons[i]))
  }

  const SafeRouteMessage: string := "current route is safe"
  const RerouteHeader: string := "route changed because:\n"
  const ReasonSeparator: string := " – "

  /** generateMessage. */
  function GenerateMessage(decision: ReroutingDecision): (m: string)
    ensures !decision.shouldReroute ==> m == SafeRouteMessage
    ensures decision.shouldReroute ==> RerouteHeader <= m
  {
    if !decision.shouldReroute then SafeRouteMessage
    else RerouteHeader + Join(ReasonTexts(decision.reasons), ReasonSeparator)
  }

  /** A reroute message names every reason of the decision. */
  lemma MessageNamesEveryReason(decision: ReroutingDecision, i: nat)
    requires decision.shouldReroute && i < |decision.reasons|
    ensures Contains(GenerateMessage(decision), ReasonText(decision.reasons[i]))
  {
    var texts := ReasonTexts(decision.reasons);
    JoinContainsParts(texts, ReasonSeparator, i);
    ContainsInSuffix(RerouteHeader, Join(texts, ReasonSeparator), texts[i]);
  }
}
