/** Severe-condition alerts (lib/engines/severe-conditions-alerts.ts): the
    official alerts of the weather provider, mapped to the app's types and
    severities, followed by the alerts the current conditions call for. */
module SevereAlerts {
  import opened Common
  import WeatherService

  type CurrentWeather = WeatherService.CurrentWeather
  type ApiAlert = WeatherService.ApiAlert
  type AlertSeverity = WeatherService.AlertSeverity

  datatype SevereAlertType = Storm | HeavyRain | ExtremeHeat | StrongWind | DustStorm | OfficialWarning

  /** What an alert says: the provider's own title and description, or the
      reading a condition alert reports. */
  datatype AlertText = Official(title: string, description: string) | Reading(value: real)

  /** One alert; its validity end is not modelled. */
  datatype SevereAlert = SevereAlert(alertType: SevereAlertType, severity: Severity, text: AlertText,
                                     impact: seq<string>, recommendations: seq<string>)

  function AlertRank(s: AlertSeverity): nat
  {
    match s
    case Minor => 0
    case Moderate => 1
    case Severe => 2
    case Extreme => 3
  }

  /** mapSeverity: minor, moderate, severe, extreme become low, medium, high,
      critical. */
  function MapSeverity(s: AlertSeverity): (r: Severity)
    ensures Rank(r) == AlertRank(s)
  {
    match s
    case Minor => Low
    case Moderate => Medium
    case Severe => High
    case Extreme => Critical
  }

  /** The mapping keeps the order of the provider's severities and tells them
      apart. */
  lemma MapSeverityOrder(a: AlertSeverity, b: AlertSeverity)
    ensures AlertRank(a) <= AlertRank(b) <==> Rank(MapSeverity(a)) <= Rank(MapSeverity(b))
    ensures MapSeverity(a) == MapSeverity(b) ==> a == b
  {
    if MapSeverity(a) == MapSeverity(b) {
      assert AlertRank(a) == AlertRank(b);
    }
  }

  /** mapAlertType. */
  function MapAlertType(s: AlertSeverity): (r: SevereAlertType)
    ensures r == OfficialWarning <==> s == WeatherService.Extreme
    ensures r in {OfficialWarning, Storm, HeavyRain, StrongWind}
  {
    match s
    case Extreme => OfficialWarning
    case Severe => Storm
    case Moderate => HeavyRain
    case Minor => StrongWind
  }

  /** Different provider severities give different alert types. */
  lemma MapAlertTypeInjective(a: AlertSeverity, b: AlertSeverity)
    ensures MapAlertType(a) == MapAlertType(b) ==> a == b
  {
  }

  /** getImpact for the four mapped severities. */
  function Impact(s: Severity): (r: seq<string>)
    ensures 1 <= |r| <= 2
    ensures |r| == 1 <==> s == Low
  {
    match s
    case Critical => ["severe danger", "stop at once"]
    case High => ["high danger", "take care"]
    case Medium => ["difficult conditions", "pay attention"]
    case Low => ["moderate conditions"]
  }

  /** getRecommendations for the four mapped severities. */
  function Recommendations(s: Severity): (r: seq<string>)
    ensures 1 <= |r| <= 2
    ensures |r| == 1 <==> s == Low
  {
    match s
    case Critical => ["stop in a safe place", "do not drive"]
    case High => ["reduce speed", "take care"]
    case Medium => ["pay attention", "reduce speed"]
    case Low => ["take care"]
  }

  /** The alert an official provider alert becomes. */
  function FromOfficial(a: ApiAlert): (r: SevereAlert)
    ensures r.severity == MapSeverity(a.severity) && r.alertType == MapAlertType(a.severity)
    ensures r.text == Official(a.title, a.description)
    ensures |r.impact| > 0 && |r.recommendations| > 0
  {
    var severity := MapSeverity(a.severity);
    SevereAlert(MapAlertType(a.severity), severity, Official(a.title, a.description),
                Impact(severity), Recommendations(severity))
  }

  predicate MentionsStorm(condition: string)
  {
    Contains(condition, "storm")
  }

  function AlertIf(fires: bool, a: SevereAlert): (r: seq<SevereAlert>)
    ensures |r| <= 1 && forall i :: 0 <= i < |r| ==> r[i] == a
    ensures fires <==> a in r
  {
    if fires then [a] else []
  }

  function StormAlert(weather: CurrentWeather): SevereAlert
  {
    SevereAlert(Storm, if weather.rainRate > 30.0 then Critical else High, Reading(weather.rainRate),
                ["reduced visibility", "risk of skidding", "strong wind"],
                ["stop in a safe place", "do not drive in these conditions"])
  }

  function HeatAlert(weather: CurrentWeather): SevereAlert
  {
    SevereAlert(ExtremeHeat, High, Reading(weather.temperature),
                ["danger to the tyres", "effect on vehicle performance"],
                ["avoid long drives", "check the tyres"])
  }

  function WindAlert(weather: CurrentWeather): SevereAlert
  {
    SevereAlert(StrongWind, Critical, Reading(weather.windSpeed),
                ["severe effect on control", "danger for trucks"],
                ["reduce speed", "trucks should avoid driving"])
  }

  function DustAlert(weather: CurrentWeather): SevereAlert
  {
    SevereAlert(DustStorm, if weather.visibility < 200.0 then Critical else High, Reading(weather.visibility),
                ["severe loss of visibility", "risk of collision"],
                ["stop at once", "do not drive in these conditions"])
  }

  /** The alert of each condition, given exactly when the condition holds. */
  function StormAlerts(weather: CurrentWeather): (r: seq<SevereAlert>)
    ensures forall t :: HasType(r, t) <==> (MentionsStorm(weather.condition) || weather.rainRate > 20.0) && t == Storm
    ensures forall a :: a in r ==> a == StormAlert(weather)
  {
    AlertIf(MentionsStorm(weather.condition) || weather.rainRate > 20.0, StormAlert(weather))
  }

  function HeatAlerts(weather: CurrentWeather): (r: seq<SevereAlert>)
    ensures forall t :: HasType(r, t) <==> weather.temperature > 45.0 && t == ExtremeHeat
    ensures forall a :: a in r ==> a == HeatAlert(weather)
  {
    AlertIf(weather.temperature > 45.0, HeatAlert(weather))
  }

  function WindAlerts(weather: CurrentWeather): (r: seq<SevereAlert>)
    ensures forall t :: HasType(r, t) <==> weather.windSpeed > 50.0 && t == StrongWind
    ensures forall a :: a in r ==> a == WindAlert(weather)
  {
    AlertIf(weather.windSpeed > 50.0, WindAlert(weather))
  }

  function DustAlerts(weather: CurrentWeather): (r: seq<SevereAlert>)
    ensures forall t :: HasType(r, t) <==> MentionsDustOrSand(weather.condition) && t == DustStorm
    ensures forall a :: a in r ==> a == DustAlert(weather)
  {
    AlertIf(MentionsDustOrSand(weather.condition), DustAlert(weather))
  }

  /** The alerts the current conditions call for, in the order storm, heat,
      wind, dust. */
  function ConditionAlerts(weather: CurrentWeather): (r: seq<SevereAlert>)
    ensures |r| <= 4
    ensures forall i :: 0 <= i < |r| ==> r[i].alertType != OfficialWarning && r[i].text.Reading?
  {
    StormAlerts(weather) + HeatAlerts(weather) + WindAlerts(weather) + DustAlerts(weather)
  }

  predicate HasType(alerts: seq<SevereAlert>, t: SevereAlertType)
  {
    exists i :: 0 <= i < |alerts| && alerts[i].alertType == t
  }

  /** Each condition alert is raised exactly when its condition holds. */
  lemma ConditionAlertsFire(weather: CurrentWeather)
    ensures var r := ConditionAlerts(weather);
      (HasType(r, Storm) <==> MentionsStorm(weather.condition) || weather.rainRate > 20.0) &&
      (HasType(r, ExtremeHeat) <==> weather.temperature > 45.0) &&
      (HasType(r, StrongWind) <==> weather.windSpeed > 50.0) &&
      (HasType(r, DustStorm) <==> MentionsDustOrSand(weather.condition)) &&
      !HasType(r, HeavyRain)
  {
    var storm := StormAlerts(weather);
    var heat := HeatAlerts(weather);
    var wind := WindAlerts(weather);
    var dust := DustAlerts(weather);
    forall t ensures HasType(ConditionAlerts(weather), t) <==>
      HasType(storm, t) || HasType(heat, t) || HasType(wind, t) || HasType(dust, t)
    {
      HasTypeConcat(storm, heat, t);
      HasTypeConcat(storm + heat, wind, t);
      HasTypeConcat(storm + heat + wind, dust, t);
    }
  }

  /** Every condition alert carries the severity its rule gives. */
  lemma ConditionAlertSeverities(weather: CurrentWeather)
    ensures forall a :: a in ConditionAlerts(weather) ==>
      (a.alertType == Storm ==> (a.severity == Critical <==> weather.rainRate > 30.0)) &&
      (a.alertType == DustStorm ==> (a.severity == Critical <==> weather.visibility < 200.0)) &&
      (a.alertType == ExtremeHeat ==> a.severity == High) &&
      (a.alertType == StrongWind ==> a.severity == Critical)
  {
    forall a | a in ConditionAlerts(weather)
      ensures a == StormAlert(weather) || a == HeatAlert(weather) || a == WindAlert(weather) || a == DustAlert(weather)
    {
    }
  }

  lemma HasTypeConcat(a: seq<SevereAlert>, b: seq<SevereAlert>, t: SevereAlertType)
    ensures HasType(a + b, t) <==> HasType(a, t) || HasType(b, t)
  {
    if HasType(a + b, t) {
      var i :| 0 <= i < |a + b| && (a + b)[i].alertType == t;
      if i >= |a| {
        assert b[i - |a|] == (a + b)[i];
      }
    }
    if HasType(a, t) {
      var i :| 0 <= i < |a| && a[i].alertType == t;
      assert (a + b)[i] == a[i];
    }
    if HasType(b, t) {
      var i :| 0 <= i < |b| && b[i].alertType == t;
      assert (a + b)[|a| + i] == b[i];
    }
  }

  /** The forEach over the provider's alerts: one mapped alert each, in order. */
  method MapOfficialAlerts(official: seq<ApiAlert>) returns (r: seq<SevereAlert>)
    ensures |r| == |official|
    ensures forall i :: 0 <= i < |official| ==> r[i] == FromOfficial(official[i])
  {
    r := [];
    for k := 0 to |official|
      invariant |r| == k
      invariant forall i :: 0 <= i < k ==> r[i] == FromOfficial(official[i])
    {
      r := r + [FromOfficial(official[k])];
    }
  }

  /** The condition checks of check: each pushes its alert onto the list. */
  method PushConditionAlerts(before: seq<SevereAlert>, weather: CurrentWeather) returns (r: seq<SevereAlert>)
    ensures r == before + ConditionAlerts(weather)
  {
    r := before;
    var storm := AlertIf(MentionsStorm(weather.condition) || weather.rainRate > 20.0, StormAlert(weather));
    var heat := AlertIf(weather.temperature > 45.0, HeatAlert(weather));
    var wind := AlertIf(weather.windSpeed > 50.0, WindAlert(weather));
    var dust := AlertIf(MentionsDustOrSand(weather.condition), DustAlert(weather));
    if MentionsStorm(weather.condition) || weather.rainRate > 20.0 {
      r := r + [StormAlert(weather)];
    }
    assert r == before + storm;
    if weather.temperature > 45.0 {
      r := r + [HeatAlert(weather)];
    }
    AppendAssoc(before, storm, heat);
    assert r == before + (storm + heat);
    if weather.windSpeed > 50.0 {
      r := r + [WindAlert(weather)];
    }
    AppendAssoc(before, storm + heat, wind);
    assert r == before + (storm + heat + wind);
    if MentionsDustOrSand(weather.condition) {
      r := r + [DustAlert(weather)];
    }
    AppendAssoc(before, storm + heat + wind, dust);
    assert ConditionAlerts(weather) == storm + heat + wind + dust;
  }

  /** check: one alert per official alert, in the provider's order, then the
      condition alerts. */
  method Check(weather: CurrentWeather, alerts: Option<seq<ApiAlert>>) returns (r: seq<SevereAlert>)
    ensures var official := if alerts.Some? then alerts.value else [];
      |r| == |official| + |ConditionAlerts(weather)| &&
      (forall i :: 0 <= i < |official| ==> r[i] == FromOfficial(official[i])) &&
      r[|official|..] == ConditionAlerts(weather)
  {
    r := [];
    if alerts.Some? && |alerts.value| > 0 {
      r := MapOfficialAlerts(alerts.value);
    }
    ghost var official := r;
    r := PushConditionAlerts(r, weather);
    assert r[|official|..] == ConditionAlerts(weather);
  }

  /** Every official alert comes before every condition alert, and an official
      warning only ever comes from an extreme provider alert. */
  lemma OfficialFirst(weather: CurrentWeather, official: seq<ApiAlert>, r: seq<SevereAlert>)
    requires |r| == |official| + |ConditionAlerts(weather)|
    requires forall i :: 0 <= i < |official| ==> r[i] == FromOfficial(official[i])
    requires r[|official|..] == ConditionAlerts(weather)
    ensures forall i, j :: 0 <= i < j < |r| && r[j].text.Official? ==> r[i].text.Official?
    ensures forall i :: 0 <= i < |r| && r[i].alertType == OfficialWarning ==>
      i < |official| && official[i].severity == WeatherService.Extreme
  {
    forall i | |official| <= i < |r| ensures r[i].text.Reading? && r[i].alertType != OfficialWarning {
      assert r[i] == r[|official|..][i - |official|];
    }
  }
}
