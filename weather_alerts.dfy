/** The day-by-day weather alert rules (lib/services/weather-alerts.ts): twelve
    basic and two compound checks on a day's readings, and checkAllAlerts,
    which runs all fourteen in order and lets the compound slippery-risk alert
    take the place of the simple slippery-road one. */
module WeatherAlerts {
  import opened Common

  /** A day's readings; the optional ones may be absent. */
  datatype WeatherDay = WeatherDay(
    temperature: real,
    tempMin: Option<real>,
    tempMax: Option<real>,
    humidity: Option<real>,
    pressure: Option<real>,
    windSpeed: Option<real>,
    visibility: Option<real>,
    precipitation: real,
    rainRate: Option<real>,
    condition: string)

  datatype AlertType =
    | HeavyRain | SlipperyRoad | HeatWave | ColdWave | StrongWind | Thunderstorm | LowVisibility
    | DustStorm | Snow | Frost | HighHumidity | LowPressure | SlipperyRisk | DangerousDriving

  /** The message of an alert: every type has one fixed message, except
      dangerous driving, whose message names what makes it dangerous. */
  datatype Message = Standard | VeryDangerous | DangerousLowVisibility | DangerousWind

  /** An alert; its icon is not modelled. */
  datatype Alert = Alert(alertType: AlertType, severity: Severity, value: real, message: Message)

  /** A severity that rises as `x` rises past three thresholds. */
  function Above(x: real, critical: real, high: real, medium: real): (s: Severity)
    requires critical >= high >= medium
    ensures s == Critical <==> x > critical
    ensures s == High <==> high < x <= critical
    ensures s == Medium <==> medium < x <= high
    ensures s == Low <==> x <= medium
  {
    if x > critical then Critical else if x > high then High else if x > medium then Medium else Low
  }

  /** A severity that rises as `x` falls below three thresholds. */
  function Below(x: real, critical: real, high: real, medium: real): (s: Severity)
    requires critical <= high <= medium
    ensures s == Critical <==> x < critical
    ensures s == High <==> critical <= x < high
    ensures s == Medium <==> high <= x < medium
    ensures s == Low <==> x >= medium
  {
    if x < critical then Critical else if x < high then High else if x < medium then Medium else Low
  }

  /** A wind speed in m/s: readings above 20 are taken to be km/h. */
  function WindMs(w: real): real
  {
    if w > 20.0 then w / 3.6 else w
  }

  predicate MentionsThunder(condition: string)
  {
    var c := ToLower(condition);
    Contains(c, "thunder") || Contains(c, "storm") || Contains(c, "thunderstorm")
  }

  predicate MentionsDust(condition: string)
  {
    var c := ToLower(condition);
    Contains(c, "dust") || Contains(c, "sand") || Contains(c, "haze") || Contains(c, "sandstorm")
  }

  predicate MentionsStormWord(condition: string)
  {
    Contains(ToLower(condition), "storm")
  }

  predicate MentionsSnow(condition: string)
  {
    var c := ToLower(condition);
    Contains(c, "snow") || Contains(c, "sleet")
  }

  /** checkHeavyRain. */
  function CheckHeavyRain(day: WeatherDay): (r: Option<Alert>)
    ensures r.Some? <==> day.precipitation > 5.0
    ensures r.Some? ==> (r.value.alertType == HeavyRain && r.value.value == day.precipitation &&
      r.value.severity == Above(day.precipitation, 50.0, 25.0, 15.0))
  {
    if day.precipitation > 5.0 then
      Some(Alert(HeavyRain, Above(day.precipitation, 50.0, 25.0, 15.0), day.precipitation, Standard))
    else None
  }

  /** checkSlipperyRoads. */
  function CheckSlipperyRoads(day: WeatherDay): (r: Option<Alert>)
    ensures r.Some? <==> day.temperature < 4.0 && day.precipitation > 0.0
    ensures r.Some? ==> (r.value.alertType == SlipperyRoad && r.value.value == day.temperature &&
      r.value.severity == Below(day.temperature, 0.0, 2.0, 4.0) && r.value.severity != Low)
  {
    if day.temperature < 4.0 && day.precipitation > 0.0 then
      Some(Alert(SlipperyRoad, Below(day.temperature, 0.0, 2.0, 4.0), day.temperature, Standard))
    else None
  }

  /** checkHeatWave: the day's maximum, or the temperature when the maximum is
      absent or 0. */
  function CheckHeatWave(day: WeatherDay): (r: Option<Alert>)
    ensures r.Some? <==> OrElse(day.tempMax, day.temperature) > 45.0
    ensures r.Some? ==> (r.value.alertType == HeatWave && r.value.value == OrElse(day.tempMax, day.temperature) &&
      (r.value.severity == Critical <==> r.value.value > 50.0) && r.value.severity in {High, Critical})
  {
    var temp := OrElse(day.tempMax, day.temperature);
    if temp > 45.0 then Some(Alert(HeatWave, Above(temp, 50.0, 45.0, 45.0), temp, Standard))
    else None
  }

  /** checkColdWave: the day's minimum, or the temperature when the minimum is
      absent or 0. */
  function CheckColdWave(day: WeatherDay): (r: Option<Alert>)
    ensures r.Some? <==> OrElse(day.tempMin, day.temperature) < 0.0
    ensures r.Some? ==> (r.value.alertType == ColdWave && r.value.value == OrElse(day.tempMin, day.temperature) &&
      r.value.severity == Below(r.value.value, -5.0, -2.0, 0.0) && r.value.severity != Low)
  {
    var temp := OrElse(day.tempMin, day.temperature);
    if temp < 0.0 then Some(Alert(ColdWave, Below(temp, -5.0, -2.0, 0.0), temp, Standard))
    else None
  }

  /** checkStrongWind: judged on the wind in m/s; the value is the raw reading. */
  function CheckStrongWind(day: WeatherDay): (r: Option<Alert>)
    ensures r.Some? <==> day.windSpeed.Some? && WindMs(day.windSpeed.value) > 12.0
    ensures r.Some? ==> (r.value.alertType == StrongWind && r.value.value == day.windSpeed.value &&
      r.value.severity == Above(WindMs(day.windSpeed.value), 20.0, 17.0, 15.0))
  {
    match day.windSpeed
    case None => None
    case Some(w) =>
      var ms := WindMs(w);
      if ms > 12.0 then Some(Alert(StrongWind, Above(ms, 20.0, 17.0, 15.0), w, Standard)) else None
  }

  /** checkThunderstorm. */
  function CheckThunderstorm(day: WeatherDay): (r: Option<Alert>)
    ensures r.Some? <==> MentionsThunder(day.condition)
    ensures r.Some? ==> r.value == Alert(Thunderstorm, High, 1.0, Standard)
  {
    if MentionsThunder(day.condition) then Some(Alert(Thunderstorm, High, 1.0, Standard)) else None
  }

  /** checkLowVisibility. */
  function CheckLowVisibility(day: WeatherDay): (r: Option<Alert>)
    ensures r.Some? <==> day.visibility.Some? && day.visibility.value < 1000.0
    ensures r.Some? ==> (r.value.alertType == LowVisibility && r.value.value == day.visibility.value &&
      r.value.severity == Below(day.visibility.value, 100.0, 200.0, 500.0))
  {
    match day.visibility
    case None => None
    case Some(v) =>
      if v < 1000.0 then Some(Alert(LowVisibility, Below(v, 100.0, 200.0, 500.0), v, Standard)) else None
  }

  /** checkDustStorm. */
  function CheckDustStorm(day: WeatherDay): (r: Option<Alert>)
    ensures r.Some? <==> MentionsDust(day.condition)
    ensures r.Some? ==> (r.value.alertType == DustStorm && r.value.value == 1.0 &&
      (r.value.severity == Critical <==> MentionsStormWord(day.condition)) && r.value.severity in {High, Critical})
  {
    if MentionsDust(day.condition) then
      Some(Alert(DustStorm, if MentionsStormWord(day.condition) then Critical else High, 1.0, Standard))
    else None
  }

  /** checkSnow. */
  function CheckSnow(day: WeatherDay): (r: Option<Alert>)
    ensures r.Some? <==> MentionsSnow(day.condition)
    ensures r.Some? ==> (r.value.alertType == Snow && r.value.value == day.precipitation &&
      (r.value.severity == Critical <==> day.precipitation > 5.0) && r.value.severity in {High, Critical})
  {
    if MentionsSnow(day.condition) then
      Some(Alert(Snow, if day.precipitation > 5.0 then Critical else High, day.precipitation, Standard))
    else None
  }

  /** checkFrost: the day's minimum whenever it is present, even when it is 0. */
  function CheckFrost(day: WeatherDay): (r: Option<Alert>)
    ensures var tempMin := if day.tempMin.Some? then day.tempMin.value else day.temperature;
      (r.Some? <==> tempMin < -1.0) &&
      (r.Some? ==> r.value.alertType == Frost && r.value.value == tempMin &&
                   r.value.severity == Below(tempMin, -5.0, -3.0, -1.0) && r.value.severity != Low)
  {
    var tempMin := if day.tempMin.Some? then day.tempMin.value else day.temperature;
    if tempMin < -1.0 then Some(Alert(Frost, Below(tempMin, -5.0, -3.0, -1.0), tempMin, Standard)) else None
  }

  /** checkHighHumidity. */
  function CheckHighHumidity(day: WeatherDay): (r: Option<Alert>)
    ensures r.Some? <==> day.humidity.Some? && day.humidity.value > 90.0
    ensures r.Some? ==> (r.value.alertType == HighHumidity && r.value.value == day.humidity.value &&
      (r.value.severity == High <==> day.humidity.value > 95.0) && r.value.severity in {Medium, High})
  {
    match day.humidity
    case None => None
    case Some(h) =>
      if h > 90.0 then Some(Alert(HighHumidity, if h > 95.0 then High else Medium, h, Standard)) else None
  }

  /** checkLowPressure. */
  function CheckLowPressure(day: WeatherDay): (r: Option<Alert>)
    ensures r.Some? <==> day.pressure.Some? && day.pressure.value < 1000.0
    ensures r.Some? ==> (r.value.alertType == LowPressure && r.value.value == day.pressure.value &&
      (r.value.severity == High <==> day.pressure.value < 980.0) &&
      (r.value.severity == Medium <==> 980.0 <= day.pressure.value < 990.0) &&
      r.value.severity != Critical)
  {
    match day.pressure
    case None => None
    case Some(p) =>
      if p < 1000.0 then
        Some(Alert(LowPressure, if p < 980.0 then High else if p < 990.0 then Medium else Low, p, Standard))
      else None
  }

  /** checkSlipperyRisk, the compound slippery check. */
  function CheckSlipperyRisk(day: WeatherDay): (r: Option<Alert>)
    ensures r.Some? <==> day.precipitation > 3.0 && day.temperature < 5.0
    ensures r.Some? ==> (r.value.alertType == SlipperyRisk && r.value.value == day.temperature &&
      r.value.severity == Below(day.temperature, 2.0, 3.0, 5.0) && r.value.severity != Low)
  {
    if day.precipitation > 3.0 && day.temperature < 5.0 then
      Some(Alert(SlipperyRisk, Below(day.temperature, 2.0, 3.0, 5.0), day.temperature, Standard))
    else None
  }

  /** The wind the dangerous-driving check uses: in m/s, 0 when absent. */
  function DrivingWind(day: WeatherDay): real
  {
    if day.windSpeed.Some? then WindMs(day.windSpeed.value) else 0.0
  }

  predicate VisibilityBelow(day: WeatherDay, limit: real)
  {
    day.visibility.Some? && day.visibility.value < limit
  }

  /** checkDangerousDriving, the compound visibility-or-wind check. */
  function CheckDangerousDriving(day: WeatherDay): (r: Option<Alert>)
    ensures r.Some? <==> VisibilityBelow(day, 800.0) || DrivingWind(day) > 15.0
    ensures r.Some? ==> r.value.alertType == DangerousDriving
    ensures r.Some? ==>
      (r.value.message == VeryDangerous <==> VisibilityBelow(day, 800.0) && DrivingWind(day) > 15.0) &&
      (r.value.message == DangerousLowVisibility <==> VisibilityBelow(day, 800.0) && DrivingWind(day) <= 15.0) &&
      (r.value.message == DangerousWind <==> !VisibilityBelow(day, 800.0))
    ensures r.Some? ==>
      (r.value.value == if VisibilityBelow(day, 800.0) then day.visibility.value else DrivingWind(day))
    ensures r.Some? ==>
      (r.value.severity == Critical <==> VisibilityBelow(day, 200.0) || DrivingWind(day) > 20.0) &&
      (r.value.severity == Medium <==> !VisibilityBelow(day, 500.0) && DrivingWind(day) <= 17.0)
  {
    var windSpeedMs := DrivingWind(day);
    var lowVisibility := VisibilityBelow(day, 800.0);
    var strongWind := windSpeedMs > 15.0;
    if lowVisibility || strongWind then
      var message := if lowVisibility && strongWind then VeryDangerous
                     else if lowVisibility then DangerousLowVisibility
                     else DangerousWind;
      var severity := if (lowVisibility && day.visibility.value < 200.0) || windSpeedMs > 20.0 then Critical
                      else if (lowVisibility && day.visibility.value < 500.0) || windSpeedMs > 17.0 then High
                      else Medium;
      Some(Alert(DangerousDriving, severity, if lowVisibility then day.visibility.value else windSpeedMs, message))
    else None
  }

  /** The fourteen checks in the order checkAllAlerts runs them. */
  const Checks: seq<WeatherDay -> Option<Alert>> :=
    [CheckHeavyRain, CheckSlipperyRoads, CheckHeatWave, CheckColdWave, CheckStrongWind, CheckThunderstorm,
     CheckLowVisibility, CheckDustStorm, CheckSnow, CheckFrost, CheckHighHumidity, CheckLowPressure,
     CheckSlipperyRisk, CheckDangerousDriving]

  /** The position of each alert type's check. */
  function Slot(t: AlertType): int
  {
    match t
    case HeavyRain => 0
    case SlipperyRoad => 1
    case HeatWave => 2
    case ColdWave => 3
    case StrongWind => 4
    case Thunderstorm => 5
    case LowVisibility => 6
    case DustStorm => 7
    case Snow => 8
    case Frost => 9
    case HighHumidity => 10
    case LowPressure => 11
    case SlipperyRisk => 12
    case DangerousDriving => 13
  }

  /** What each check gives for the day. */
  function Candidates(day: WeatherDay): (c: seq<Option<Alert>>)
    ensures |c| == 14
  {
    seq(|Checks|, k requires 0 <= k < |Checks| => Checks[k](day))
  }

  /** Every alert a check gives has the check's own type. */
  ghost predicate Slotted(c: seq<Option<Alert>>)
  {
    |c| == 14 && forall p :: 0 <= p < 14 && c[p].Some? ==> Slot(c[p].value.alertType) == p
  }

  lemma CandidatesSlotted(day: WeatherDay)
    ensures Slotted(Candidates(day))
  {
    var c := Candidates(day);
    forall p | 0 <= p < 14 && c[p].Some? ensures Slot(c[p].value.alertType) == p {
      if p < 7 { EarlyCandidateSlotted(day, p); } else { LateCandidateSlotted(day, p); }
    }
  }

  lemma EarlyCandidateSlotted(day: WeatherDay, p: int)
    requires 0 <= p < 7 && Candidates(day)[p].Some?
    ensures Slot(Candidates(day)[p].value.alertType) == p
  {
    var c := Candidates(day);
    if p == 0 { assert c[p] == CheckHeavyRain(day); }
    else if p == 1 { assert c[p] == CheckSlipperyRoads(day); }
    else if p == 2 { assert c[p] == CheckHeatWave(day); }
    else if p == 3 { assert c[p] == CheckColdWave(day); }
    else if p == 4 { assert c[p] == CheckStrongWind(day); }
    else if p == 5 { assert c[p] == CheckThunderstorm(day); }
    else { assert c[p] == CheckLowVisibility(day); }
  }

  lemma LateCandidateSlotted(day: WeatherDay, p: int)
    requires 7 <= p < 14 && Candidates(day)[p].Some?
    ensures Slot(Candidates(day)[p].value.alertType) == p
  {
    var c := Candidates(day);
    if p == 7 { assert c[p] == CheckDustStorm(day); }
    else if p == 8 { assert c[p] == CheckSnow(day); }
    else if p == 9 { assert c[p] == CheckFrost(day); }
    else if p == 10 { assert c[p] == CheckHighHumidity(day); }
    else if p == 11 { assert c[p] == CheckLowPressure(day); }
    else if p == 12 { assert c[p] == CheckSlipperyRisk(day); }
    else { assert c[p] == CheckDangerousDriving(day); }
  }

  /** Both slippery checks fired: the compound alert takes the simple one's place. */
  predicate RiskReplacesRoad(c: seq<Option<Alert>>)
    requires |c| == 14
  {
    c[1].Some? && c[12].Some?
  }

  /** The checks' results after the first k checks, with the replacement made
      once the compound slippery check has run. */
  function Stage(c: seq<Option<Alert>>, k: int): (s: seq<Option<Alert>>)
    requires |c| == 14 && 0 <= k <= 14
    ensures |s| == k
  {
    if k <= 12 || !RiskReplacesRoad(c) then c[..k] else c[..k][1 := c[12]][12 := None]
  }

  /** The alerts the similar-alert search looks for. */
  predicate Similar(existing: Alert, incoming: Alert)
  {
    (existing.alertType == SlipperyRoad && incoming.alertType == SlipperyRisk) ||
    (existing.alertType == SlipperyRisk && incoming.alertType == SlipperyRoad)
  }

  lemma StageStep(c: seq<Option<Alert>>, k: int)
    requires |c| == 14 && 0 <= k < 14 && !(k == 12 && RiskReplacesRoad(c))
    ensures Somes(Stage(c, k + 1)) == Somes(Stage(c, k)) + (if c[k].Some? then [c[k].value] else [])
  {
    assert Stage(c, k + 1)[..k] == Stage(c, k);
    assert Stage(c, k + 1)[k] == c[k];
  }

  /** Before the compound slippery check runs, nothing collected is similar to
      an incoming alert, unless it is the compound one and the simple one fired. */
  lemma NothingSimilar(c: seq<Option<Alert>>, k: int, a: Alert)
    requires Slotted(c) && 0 <= k < 14 && c[k].Some? && !(k == 12 && c[1].Some?)
    requires a in Somes(Stage(c, k))
    ensures !Similar(a, c[k].value)
  {
    SomesMember(Stage(c, k), a);
    var p :| 0 <= p < k && Stage(c, k)[p] == Some(a);
    if k > 12 && RiskReplacesRoad(c) {
      assert p != 12;
      if p == 1 {
        assert a == c[12].value;
      } else {
        assert a == c[p].value;
      }
    } else {
      assert a == c[p].value;
    }
  }

  /** The alerts collected around the simple slippery alert, before and after
      the compound one takes its place. */
  lemma RoadSplit(c: seq<Option<Alert>>)
    requires |c| == 14 && RiskReplacesRoad(c)
    ensures Somes(Stage(c, 12)) == Somes(c[..1]) + [c[1].value] + Somes(c[2..12])
    ensures Somes(Stage(c, 13)) == Somes(c[..1]) + [c[12].value] + Somes(c[2..12])
  {
    assert Stage(c, 12) == c[..1] + [c[1]] + c[2..12];
    SomesAppend(c[..1] + [c[1]], c[2..12]);
    SomesAppend(c[..1], [c[1]]);
    assert Somes([c[1]]) == [c[1].value];
    var none: seq<Option<Alert>> := [None];
    assert Stage(c, 13) == c[..1] + [c[12]] + c[2..12] + none;
    SomesAppend(c[..1] + [c[12]] + c[2..12], none);
    SomesAppend(c[..1] + [c[12]], c[2..12]);
    SomesAppend(c[..1], [c[12]]);
    assert Somes([c[12]]) == [c[12].value];
    assert Somes(none) == [];
  }

  /** When both slippery checks fired, the first alert similar to the compound
      one is the simple one, at its place among the alerts collected so far. */
  lemma RoadPosition(c: seq<Option<Alert>>)
    requires Slotted(c) && RiskReplacesRoad(c)
    ensures var alerts := Somes(Stage(c, 12));
      var idx := IndexOf(alerts, c[1].value);
      FindFirst(alerts, (a: Alert) => Similar(a, c[12].value)) == Some(c[1].value) &&
      0 <= idx < |alerts| &&
      alerts[idx := c[12].value] == Somes(Stage(c, 13))
  {
    RoadSplit(c);
    var alerts := Somes(Stage(c, 12));
    var head := Somes(c[..1]);
    assert |head| <= 1;
    forall a | a in head ensures a.alertType == HeavyRain {
      SomesMember(c[..1], a);
      assert c[0] == Some(a);
    }
    var p := (a: Alert) => Similar(a, c[12].value);
    assert alerts[|head|] == c[1].value;
    forall j | 0 <= j < |head| ensures !p(alerts[j]) && alerts[j] != alerts[|head|] {
      assert alerts[j] == head[j];
      assert head[j] in head;
    }
    FirstMatchAt(alerts, p, |head|);
  }

  /** checkAllAlerts: every check in order; an alert is added unless a similar
      one is already there, in which case a compound alert replaces it. */
  method CheckAllAlerts(day: WeatherDay) returns (alerts: seq<Alert>)
    ensures alerts == Somes(Stage(Candidates(day), 14))
  {
    ghost var c := Candidates(day);
    CandidatesSlotted(day);
    alerts := [];
    for k := 0 to |Checks|
      invariant alerts == Somes(Stage(c, k))
    {
      var alert := Checks[k](day);
      assert alert == c[k];
      if k == 12 && RiskReplacesRoad(c) {
        RoadPosition(c);
      } else {
        StageStep(c, k);
        if alert.Some? {
          forall a | a in alerts ensures !Similar(a, alert.value) {
            NothingSimilar(c, k, a);
          }
        }
      }
      if alert.Some? {
        var existingSimilar := FindFirst(alerts, (a: Alert) => Similar(a, alert.value));
        if existingSimilar.None? {
          alerts := alerts + [alert.value];
        } else if alert.value.alertType == SlipperyRisk || alert.value.alertType == DangerousDriving {
          var index := IndexOf(alerts, existingSimilar.value);
          alerts := alerts[index := alert.value];
        }
      }
    }
  }

  /** An alert of type `t` is among the alerts. */
  predicate HasType(alerts: seq<Alert>, t: AlertType)
  {
    exists i :: 0 <= i < |alerts| && alerts[i].alertType == t
  }

  lemma HasTypeSomes(s: seq<Option<Alert>>, t: AlertType)
    ensures HasType(Somes(s), t) <==> exists p :: 0 <= p < |s| && s[p].Some? && s[p].value.alertType == t
  {
    if HasType(Somes(s), t) {
      var i :| 0 <= i < |Somes(s)| && Somes(s)[i].alertType == t;
      SomesMember(s, Somes(s)[i]);
    }
    if exists p :: 0 <= p < |s| && s[p].Some? && s[p].value.alertType == t {
      var p :| 0 <= p < |s| && s[p].Some? && s[p].value.alertType == t;
      SomesMember(s, s[p].value);
      var i :| 0 <= i < |Somes(s)| && Somes(s)[i] == s[p].value;
    }
  }

  /** The place an alert type ends up at: the compound slippery alert sits
      where the simple one would have been when that one fired. */
  function FinalSlot(t: AlertType, roadFired: bool): int
  {
    if t == SlipperyRisk && roadFired then 1 else Slot(t)
  }

  /** checkAllAlerts gives its alerts in check order with no type twice. */
  lemma AllAlertsOrdered(day: WeatherDay)
    ensures var c := Candidates(day);
      var alerts := Somes(Stage(c, 14));
      (forall i, j :: 0 <= i < j < |alerts| ==>
         FinalSlot(alerts[i].alertType, c[1].Some?) < FinalSlot(alerts[j].alertType, c[1].Some?)) &&
      (forall i, j :: 0 <= i < j < |alerts| ==> alerts[i].alertType != alerts[j].alertType)
  {
    var c := Candidates(day);
    CandidatesSlotted(day);
    var s := Stage(c, 14);
    var f := (a: Alert) => FinalSlot(a.alertType, c[1].Some?);
    forall p | 0 <= p < 14 && s[p].Some? ensures f(s[p].value) == p {
      if RiskReplacesRoad(c) && p == 1 {
        assert s[p] == c[12];
      } else {
        assert s[p] == c[p];
      }
    }
    SomesIncreasing(s, f);
  }

  /** Which alerts checkAllAlerts gives: the simple slippery alert only when
      the compound one did not fire, the compound one whenever it fired, and
      every other alert exactly when its own check fired. */
  lemma AllAlertsMembers(day: WeatherDay)
    ensures var alerts := Somes(Stage(Candidates(day), 14));
      (HasType(alerts, SlipperyRoad) <==> CheckSlipperyRoads(day).Some? && CheckSlipperyRisk(day).None?) &&
      (HasType(alerts, SlipperyRisk) <==> CheckSlipperyRisk(day).Some?) &&
      (forall t :: t != SlipperyRoad && t != SlipperyRisk ==> (HasType(alerts, t) <==> Checks[Slot(t)](day).Some?))
  {
    SlipperyRoadMember(day);
    SlipperyRiskMember(day);
    forall t | t != SlipperyRoad && t != SlipperyRisk
      ensures HasType(Somes(Stage(Candidates(day), 14)), t) <==> Checks[Slot(t)](day).Some?
    {
      OtherTypeMember(day, t);
    }
  }

  lemma SlipperyRoadMember(day: WeatherDay)
    ensures HasType(Somes(Stage(Candidates(day), 14)), SlipperyRoad) <==>
      CheckSlipperyRoads(day).Some? && CheckSlipperyRisk(day).None?
  {
    var c := Candidates(day);
    CandidatesSlotted(day);
    var s := Stage(c, 14);
    assert c[1] == CheckSlipperyRoads(day) && c[12] == CheckSlipperyRisk(day);
    HasTypeSomes(s, SlipperyRoad);
    if HasType(Somes(s), SlipperyRoad) {
      var p :| 0 <= p < 14 && s[p].Some? && s[p].value.alertType == SlipperyRoad;
      if !(RiskReplacesRoad(c) && p == 1) {
        assert s[p] == c[p];
      }
    }
    if c[1].Some? && c[12].None? {
      assert s[1] == c[1];
    }
  }

  lemma SlipperyRiskMember(day: WeatherDay)
    ensures HasType(Somes(Stage(Candidates(day), 14)), SlipperyRisk) <==> CheckSlipperyRisk(day).Some?
  {
    var c := Candidates(day);
    CandidatesSlotted(day);
    var s := Stage(c, 14);
    assert c[12] == CheckSlipperyRisk(day);
    HasTypeSomes(s, SlipperyRisk);
    if HasType(Somes(s), SlipperyRisk) {
      var p :| 0 <= p < 14 && s[p].Some? && s[p].value.alertType == SlipperyRisk;
      if RiskReplacesRoad(c) && p == 1 {
        assert s[p] == c[12];
      } else {
        assert s[p] == c[p];
      }
    }
    if c[12].Some? {
      if c[1].Some? { assert s[1] == c[12]; } else { assert s[12] == c[12]; }
    }
  }

  lemma OtherTypeMember(day: WeatherDay, t: AlertType)
    requires t != SlipperyRoad && t != SlipperyRisk
    ensures HasType(Somes(Stage(Candidates(day), 14)), t) <==> Checks[Slot(t)](day).Some?
  {
    var c := Candidates(day);
    CandidatesSlotted(day);
    var s := Stage(c, 14);
    HasTypeSomes(s, t);
    var k := Slot(t);
    assert c[k] == Checks[k](day);
    if HasType(Somes(s), t) {
      var p :| 0 <= p < 14 && s[p].Some? && s[p].value.alertType == t;
      if !(RiskReplacesRoad(c) && p == 1) {
        assert s[p] == c[p];
      }
    }
    if c[k].Some? {
      assert s[k] == c[k];
    }
  }

  /** The two slippery alerts never appear together. */
  lemma NoBothSlippery(day: WeatherDay)
    ensures var alerts := Somes(Stage(Candidates(day), 14));
      !(HasType(alerts, SlipperyRoad) && HasType(alerts, SlipperyRisk))
  {
    AllAlertsMembers(day);
  }

  /** Wind is converted by a heuristic: 20 is read as m/s and gives a high alert,
      while 21 is read as km/h, under 12 m/s, and gives no alert. */
  lemma StrongWindUnitHeuristic(day: WeatherDay)
    ensures CheckStrongWind(day.(windSpeed := Some(20.0))) ==
            Some(Alert(StrongWind, High, 20.0, Standard))
    ensures CheckStrongWind(day.(windSpeed := Some(21.0))).None?
    ensures forall w: real :: CheckStrongWind(day.(windSpeed := Some(w))).Some? <==> (12.0 < w <= 20.0 || w > 43.2)
  {
    forall w: real ensures CheckStrongWind(day.(windSpeed := Some(w))).Some? <==> (12.0 < w <= 20.0 || w > 43.2) {
      DivAbove(w, 3.6, 12.0);
    }
  }

  /** A minimum of exactly 0 counts as missing for the cold-wave check, which
      falls back on the temperature, but not for the frost check. */
  lemma ZeroMinimum(day: WeatherDay)
    requires day.tempMin == Some(0.0) && day.temperature < 0.0
    ensures CheckColdWave(day).Some? && CheckColdWave(day).value.value == day.temperature
    ensures CheckFrost(day).None?
  {
  }
}
