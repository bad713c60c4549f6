/** The pure parts of the weather service (lib/services/weather.ts): the
    current-conditions record every engine reads, the unit conversions of the
    OpenWeather transform, the severity mapping of provider alerts and the
    threshold check that raises alerts from current conditions
    (thresholds from config/weather.ts). */
module WeatherService {
  import opened Common

  /** Severities of provider alerts. */
  datatype AlertSeverity = Minor | Moderate | Severe | Extreme

  /** Current conditions: temperature in Celsius, wind in km/h, visibility as
      the provider delivers it, rain in mm/h; `timestamp` in milliseconds. */
  datatype CurrentWeather = CurrentWeather(
    temperature: real,
    humidity: real,
    windSpeed: real,
    windDirection: real,
    visibility: real,
    pressure: real,
    precipitation: real,
    rainRate: real,
    condition: string,
    cloudCover: real,
    timestamp: int)

  /** A provider alert; times in milliseconds. */
  datatype ApiAlert = ApiAlert(title: string, description: string, severity: AlertSeverity,
                               startTime: int, endTime: int)

  /** The current part of a weather response and its provider alerts. */
  datatype WeatherReport = WeatherReport(current: CurrentWeather, alerts: Option<seq<ApiAlert>>)

  /** An alert as OpenWeather sends it; times in seconds. */
  datatype OpenWeatherAlert = OpenWeatherAlert(event: string, description: string, severity: string,
                                               start: int, end: int)

  /** The fields of an OpenWeather current-weather payload the transform reads;
      optional fields are the ones the source reads through `?.` or `||`.
      Wind in m/s, visibility in metres, `dt` in seconds. */
  datatype OpenWeatherData = OpenWeatherData(
    temp: real,
    humidity: real,
    pressure: real,
    windSpeed: Option<real>,
    windDeg: Option<real>,
    visibility: Option<real>,
    rainLastHour: Option<real>,
    mainCondition: Option<string>,
    clouds: Option<real>,
    dt: int,
    alerts: Option<seq<OpenWeatherAlert>>)

  const HeavyRainThreshold: real := 10.0
  const LowVisibilityThreshold: real := 200.0
  const StrongWindThreshold: real := 50.0
  const ExtremeHeatThreshold: real := 45.0
  const ExtremeColdThreshold: real := 0.0
  const DefaultVisibilityMetres: real := 10000.0

  /** mapSeverity: case-insensitive, unknown strings give moderate. */
  function MapSeverity(severity: string): (r: AlertSeverity)
    ensures r == Minor <==> ToLower(severity) == "minor"
    ensures r == Severe <==> ToLower(severity) == "severe"
    ensures r == Extreme <==> ToLower(severity) == "extreme"
    ensures r == Moderate <==> ToLower(severity) !in {"minor", "severe", "extreme"}
  {
    var key := ToLower(severity);
    if key == "minor" then Minor
    else if key == "moderate" then Moderate
    else if key == "severe" then Severe
    else if key == "extreme" then Extreme
    else Moderate
  }

  /** The mapping ignores case. */
  lemma MapSeverityIgnoresCase(severity: string)
    ensures MapSeverity(ToLower(severity)) == MapSeverity(severity)
  {
    ToLowerIdempotent(severity);
  }

  /** The weather condition: the lower-cased main condition, 'clear' when it is
      absent or empty. */
  function ConditionOf(mainCondition: Option<string>): (r: string)
    ensures r != ""
    ensures mainCondition.Some? && mainCondition.value != "" ==> r == ToLower(mainCondition.value)
    ensures mainCondition.None? || mainCondition.value == "" ==> r == "clear"
  {
    match mainCondition
    case Some(main) => if ToLower(main) != "" then ToLower(main) else "clear"
    case None => "clear"
  }

  function TransformAlert(alert: OpenWeatherAlert): (r: ApiAlert)
    ensures r.title == alert.event && r.description == alert.description
    ensures r.severity == MapSeverity(alert.severity)
    ensures r.startTime == alert.start * 1000 && r.endTime == alert.end * 1000
  {
    ApiAlert(alert.event, alert.description, MapSeverity(alert.severity), alert.start * 1000, alert.end * 1000)
  }

  /** transformOpenWeatherResponse as written: visibility divided by 1000. */
  function TransformOpenWeatherResponse(data: OpenWeatherData): (r: WeatherReport)
    ensures r.current.windSpeed == OrElse(data.windSpeed, 0.0) * 3.6
    ensures r.current.visibility == OrElse(data.visibility, DefaultVisibilityMetres) / 1000.0
    ensures r.current.precipitation == OrElse(data.rainLastHour, 0.0) == r.current.rainRate
    ensures r.current.windDirection == OrElse(data.windDeg, 0.0)
    ensures r.current.cloudCover == OrElse(data.clouds, 0.0)
    ensures r.current.condition == ConditionOf(data.mainCondition)
    ensures r.current.temperature == data.temp && r.current.humidity == data.humidity
    ensures r.current.pressure == data.pressure && r.current.timestamp == data.dt * 1000
    ensures data.alerts.None? <==> r.alerts.None?
    ensures data.alerts.Some? ==>
      |r.alerts.value| == |data.alerts.value| &&
      forall i :: 0 <= i < |data.alerts.value| ==> r.alerts.value[i] == TransformAlert(data.alerts.value[i])
  {
    var current := CurrentWeather(
      data.temp, data.humidity,
      OrElse(data.windSpeed, 0.0) * 3.6,
      OrElse(data.windDeg, 0.0),
      OrElse(data.visibility, DefaultVisibilityMetres) / 1000.0,
      data.pressure,
      OrElse(data.rainLastHour, 0.0),
      OrElse(data.rainLastHour, 0.0),
      ConditionOf(data.mainCondition),
      OrElse(data.clouds, 0.0),
      data.dt * 1000);
    var alerts := match data.alerts
      case None => None
      case Some(list) => Some(seq(|list|, i requires 0 <= i < |list| => TransformAlert(list[i])));
    WeatherReport(current, alerts)
  }

  /** The transform with visibility kept in metres, the unit the other providers
      deliver and every consumer of the record compares against. */
  function TransformOpenWeatherResponseInMetres(data: OpenWeatherData): (r: WeatherReport)
    ensures r.current.visibility == OrElse(data.visibility, DefaultVisibilityMetres)
    ensures r == TransformOpenWeatherResponse(data).(current :=
      TransformOpenWeatherResponse(data).current.(visibility := OrElse(data.visibility, DefaultVisibilityMetres)))
  {
    var report := TransformOpenWeatherResponse(data);
    report.(current := report.current.(visibility := OrElse(data.visibility, DefaultVisibilityMetres)))
  }

  datatype WeatherAlertKind = HeavyRain | LowVisibility | StrongWind | ExtremeHeat | ExtremeCold

  /** An alert raised from current conditions; `reading` is the value its
      message shows. */
  datatype WeatherAlert = WeatherAlert(kind: WeatherAlertKind, level: Severity, reading: real)

  /** The position of each kind in checkWeatherAlerts. */
  function KindRank(kind: WeatherAlertKind): int
  {
    match kind
    case HeavyRain => 0
    case LowVisibility => 1
    case StrongWind => 2
    case ExtremeHeat => 3
    case ExtremeCold => 4
  }

  function AlertRank(a: WeatherAlert): int
  {
    KindRank(a.kind)
  }

  predicate HasKind(alerts: seq<WeatherAlert>, kind: WeatherAlertKind)
  {
    exists a :: a in alerts && a.kind == kind
  }

  /** The alert checkWeatherAlerts raises for one threshold, if it fires. */
  function AlertIf(fires: bool, kind: WeatherAlertKind, level: Severity, reading: real): (r: seq<WeatherAlert>)
    ensures |r| <= 1
    ensures forall k :: HasKind(r, k) <==> fires && k == kind
    ensures forall i :: 0 <= i < |r| ==> r[i] == WeatherAlert(kind, level, reading)
  {
    if fires then AlertOne(WeatherAlert(kind, level, reading)) else []
  }

  function AlertOne(a: WeatherAlert): (r: seq<WeatherAlert>)
    ensures r == [a] && forall k :: HasKind(r, k) <==> k == a.kind
  {
    assert [a][0] == a;
    [a]
  }

  /** The alert of each threshold of checkWeatherAlerts. */
  function RainAlert(weather: CurrentWeather): (r: seq<WeatherAlert>)
    ensures RankedWithin(r, AlertRank, 0, 1)
  {
    AlertIf(weather.rainRate > HeavyRainThreshold, HeavyRain,
            if weather.rainRate > 20.0 then Critical else High, weather.rainRate)
  }

  function VisibilityAlert(weather: CurrentWeather): (r: seq<WeatherAlert>)
    ensures RankedWithin(r, AlertRank, 1, 2)
  {
    AlertIf(weather.visibility < LowVisibilityThreshold, LowVisibility,
            if weather.visibility < 100.0 then Critical else High, weather.visibility)
  }

  function WindAlert(weather: CurrentWeather): (r: seq<WeatherAlert>)
    ensures RankedWithin(r, AlertRank, 2, 3)
  {
    AlertIf(weather.windSpeed > StrongWindThreshold, StrongWind,
            if weather.windSpeed > 70.0 then Critical else High, weather.windSpeed)
  }

  function HeatAlert(weather: CurrentWeather): (r: seq<WeatherAlert>)
    ensures RankedWithin(r, AlertRank, 3, 4)
  {
    AlertIf(weather.temperature > ExtremeHeatThreshold, ExtremeHeat, High, weather.temperature)
  }

  function ColdAlert(weather: CurrentWeather): (r: seq<WeatherAlert>)
    ensures RankedWithin(r, AlertRank, 4, 5)
  {
    AlertIf(weather.temperature < ExtremeColdThreshold, ExtremeCold, High, weather.temperature)
  }

  /** checkWeatherAlerts. */
  function CheckWeatherAlerts(weather: CurrentWeather): (r: seq<WeatherAlert>)
    ensures forall i, j :: 0 <= i < j < |r| ==> KindRank(r[i].kind) < KindRank(r[j].kind)
    ensures |r| <= 4
  {
    var rain := RainAlert(weather);
    var visibility := VisibilityAlert(weather);
    var wind := WindAlert(weather);
    var heat := HeatAlert(weather);
    var cold := ColdAlert(weather);
    RankedAppend(rain, visibility, AlertRank, 0, 1, 2);
    RankedAppend(rain + visibility, wind, AlertRank, 0, 2, 3);
    RankedAppend(rain + visibility + wind, heat, AlertRank, 0, 3, 4);
    RankedAppend(rain + visibility + wind + heat, cold, AlertRank, 0, 4, 5);
    assert |heat| + |cold| <= 1;
    rain + visibility + wind + heat + cold
  }

  predicate Fires(weather: CurrentWeather, kind: WeatherAlertKind)
  {
    match kind
    case HeavyRain => weather.rainRate > HeavyRainThreshold
    case LowVisibility => weather.visibility < LowVisibilityThreshold
    case StrongWind => weather.windSpeed > StrongWindThreshold
    case ExtremeHeat => weather.temperature > ExtremeHeatThreshold
    case ExtremeCold => weather.temperature < ExtremeColdThreshold
  }

  lemma CheckWeatherAlertsFire(weather: CurrentWeather, kind: WeatherAlertKind)
    ensures HasKind(CheckWeatherAlerts(weather), kind) <==> Fires(weather, kind)
  {
    var rain := RainAlert(weather);
    var visibility := VisibilityAlert(weather);
    var wind := WindAlert(weather);
    var heat := HeatAlert(weather);
    var cold := ColdAlert(weather);
    HasKindConcat(rain, visibility, kind);
    HasKindConcat(rain + visibility, wind, kind);
    HasKindConcat(rain + visibility + wind, heat, kind);
    HasKindConcat(rain + visibility + wind + heat, cold, kind);
  }

  lemma HasKindConcat(a: seq<WeatherAlert>, b: seq<WeatherAlert>, kind: WeatherAlertKind)
    ensures HasKind(a + b, kind) <==> HasKind(a, kind) || HasKind(b, kind)
  {
    if HasKind(a + b, kind) {
      var x :| x in a + b && x.kind == kind;
    }
  }

  /** The level and reading of each alert. */
  lemma CheckWeatherAlertsLevels(weather: CurrentWeather)
    ensures var r := CheckWeatherAlerts(weather);
      forall i :: 0 <= i < |r| ==>
        (r[i].kind == HeavyRain ==>
           r[i].reading == weather.rainRate && r[i].level == (if weather.rainRate > 20.0 then Critical else High)) &&
        (r[i].kind == LowVisibility ==>
           r[i].reading == weather.visibility && r[i].level == (if weather.visibility < 100.0 then Critical else High)) &&
        (r[i].kind == StrongWind ==>
           r[i].reading == weather.windSpeed && r[i].level == (if weather.windSpeed > 70.0 then Critical else High)) &&
        (r[i].kind in {ExtremeHeat, ExtremeCold} ==> r[i].reading == weather.temperature && r[i].level == High)
  {
  }

  /** As written, any OpenWeather visibility below 100 km, including the
      10 km default, reaches the check as fewer than 100 "metres" and raises a
      critical low-visibility alert. */
  lemma OpenWeatherVisibilityAlwaysCritical(data: OpenWeatherData)
    requires OrElse(data.visibility, DefaultVisibilityMetres) < 100000.0
    ensures var alerts := CheckWeatherAlerts(TransformOpenWeatherResponse(data).current);
      exists i :: 0 <= i < |alerts| && alerts[i].kind == LowVisibility && alerts[i].level == Critical
  {
    var alerts := CheckWeatherAlerts(TransformOpenWeatherResponse(data).current);
    CheckWeatherAlertsFire(TransformOpenWeatherResponse(data).current, LowVisibility);
    CheckWeatherAlertsLevels(TransformOpenWeatherResponse(data).current);
  }

  /** A clear day with the default visibility: the as-written transform raises a
      critical low-visibility alert. */
  lemma DefaultVisibilityRaisesAlert()
    ensures var data := OpenWeatherData(25.0, 40.0, 1013.0, None, None, None, None, Some("Clear"), None, 0, None);
      var alerts := CheckWeatherAlerts(TransformOpenWeatherResponse(data).current);
      alerts == [WeatherAlert(LowVisibility, Critical, 10.0)]
  {
    var data := OpenWeatherData(25.0, 40.0, 1013.0, None, None, None, None, Some("Clear"), None, 0, None);
    assert TransformOpenWeatherResponse(data).current.visibility == 10.0;
  }

  /** With visibility kept in metres, the low-visibility alert fires exactly for
      a reported visibility below 200 m, and is critical exactly below 100 m. */
  lemma MetresVisibilityAlerts(data: OpenWeatherData)
    ensures var v := OrElse(data.visibility, DefaultVisibilityMetres);
      var alerts := CheckWeatherAlerts(TransformOpenWeatherResponseInMetres(data).current);
      (HasKind(alerts, LowVisibility) <==> v < 200.0) &&
      (forall i :: 0 <= i < |alerts| && alerts[i].kind == LowVisibility ==>
         (alerts[i].level == Critical <==> v < 100.0)) &&
      (data.visibility.None? ==> !HasKind(alerts, LowVisibility))
  {
    CheckWeatherAlertsFire(TransformOpenWeatherResponseInMetres(data).current, LowVisibility);
    CheckWeatherAlertsLevels(TransformOpenWeatherResponseInMetres(data).current);
  }
}
