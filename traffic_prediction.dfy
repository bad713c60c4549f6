/** Multi-horizon congestion prediction (lib/core/prediction-engine.ts): a
    temporal trend model for 5 and 10 minutes ahead, a weighted-feature model for
    30 minutes, and a rush-hour seasonal model for 60 minutes. */
module TrafficPrediction {
  import opened Common
  import TrafficIntelligence

  type TrafficAnalysis = TrafficIntelligence.TrafficAnalysis

  datatype Trend = Increasing | Decreasing | Stable

  datatype ModelType = Temporal | MachineLearning | Seasonal

  datatype Factors = Factors(
    currentCongestion: int,
    historicalPattern: real,
    timeOfDay: real,
    dayOfWeek: real,
    trend: Trend)

  datatype Prediction = Prediction(
    segmentId: string,
    predictedAt: int,
    predictedFor: int,
    predictedIndex: int,
    predictedDelayMinutes: real,
    confidence: real,
    modelType: ModelType,
    seasonalityFactor: real,
    factors: Factors)

  /** A point in time: milliseconds since the epoch, local hour (0-23) and day
      of the week (0 = Sunday). */
  datatype Instant = Instant(millis: int, hour: int, day: int)

  /** The prediction horizons, in minutes. */
  const Horizons: seq<int> := [5, 10, 30, 60]

  const MillisPerMinute: int := 60000

  /** The morning (7-9) and evening (17-19) rush hours. */
  predicate IsRushHour(hour: int)
  {
    (7 <= hour <= 9) || (17 <= hour <= 19)
  }

  /** getTimeOfDayFactor. */
  function TimeOfDayFactor(hour: int): (r: real)
    ensures r == (if IsRushHour(hour) then 1.3 else 1.0)
  {
    if (hour >= 7 && hour <= 9) || (hour >= 17 && hour <= 19) then 1.3 else 1.0
  }

  /** getDayOfWeekFactor: weekends (Sunday 0 and Saturday 6) are lighter. */
  function DayOfWeekFactor(day: int): (r: real)
    ensures r == 0.8 <==> day == 0 || day == 6
    ensures r == 0.8 || r == 1.0
  {
    if day == 0 || day == 6 then 0.8 else 1.0
  }

  /** calculateSeasonalityFactor; the horizon is accepted and unused, as in the
      source. */
  function SeasonalityFactor(hour: int, horizon: int): (r: real)
    ensures r == (if IsRushHour(hour) then 1.2 else 1.0)
  {
    var isRushHour := (hour >= 7 && hour <= 9) || (hour >= 17 && hour <= 19);
    if isRushHour then 1.2 else 1.0
  }

  /** Seasonality and time of day single out the same hours. */
  lemma RushHourFactorsAgree(hour: int, horizon: int)
    ensures SeasonalityFactor(hour, horizon) > 1.0 <==> TimeOfDayFactor(hour) > 1.0
  {
  }

  /** calculateTrend: the change of the index from the first to the last point. */
  function CalculateTrend(data: seq<TrafficAnalysis>): Trend
  {
    if |data| < 2 then Stable
    else
      var first := data[0].congestionIndex;
      var last := data[|data| - 1].congestionIndex;
      var diff := last - first;
      if diff > 5 then Increasing
      else if diff < -5 then Decreasing
      else Stable
  }

  function Reversed<T>(s: seq<T>): (r: seq<T>)
    ensures |r| == |s|
  {
    seq(|s|, i requires 0 <= i < |s| => s[|s| - 1 - i])
  }

  function Opposite(t: Trend): Trend
  {
    match t
    case Increasing => Decreasing
    case Decreasing => Increasing
    case Stable => Stable
  }

  /** The trend only depends on the end points: reading the window backwards
      turns an increase into a decrease and the other way round. */
  lemma TrendOfReversedWindow(data: seq<TrafficAnalysis>)
    ensures CalculateTrend(Reversed(data)) == Opposite(CalculateTrend(data))
  {
    if |data| >= 2 {
      assert Reversed(data)[0] == data[|data| - 1];
      assert Reversed(data)[|data| - 1] == data[0];
    }
  }

  /** The trend's thresholds: more than 5 points up or down over at least two
      samples. */
  lemma TrendThresholds(data: seq<TrafficAnalysis>)
    ensures CalculateTrend(data) == Increasing <==>
      |data| >= 2 && data[|data| - 1].congestionIndex - data[0].congestionIndex > 5
    ensures CalculateTrend(data) == Decreasing <==>
      |data| >= 2 && data[|data| - 1].congestionIndex - data[0].congestionIndex < -5
  {
  }

  function CongestionSum(historical: seq<TrafficAnalysis>): int
  {
    if historical == [] then 0
    else historical[0].congestionIndex + CongestionSum(historical[1..])
  }

  /** calculateHistoricalPattern: the mean index of the history, 50 without any;
      the horizon is unused, as in the source. */
  function HistoricalPattern(historical: seq<TrafficAnalysis>, horizon: int): (r: real)
    ensures |historical| == 0 ==> r == 50.0
    ensures |historical| > 0 ==> r * |historical| as real == CongestionSum(historical) as real
  {
    if |historical| == 0 then 50.0
    else CongestionSum(historical) as real / |historical| as real
  }

  lemma {:induction false} CongestionSumBounds(historical: seq<TrafficAnalysis>, lo: int, hi: int)
    requires forall i :: 0 <= i < |historical| ==> lo <= historical[i].congestionIndex <= hi
    ensures |historical| * lo <= CongestionSum(historical) <= |historical| * hi
  {
    if historical != [] {
      CongestionSumBounds(historical[1..], lo, hi);
    }
  }

  /** The historical pattern lies in any range that holds every historical index. */
  lemma HistoricalPatternBounds(historical: seq<TrafficAnalysis>, horizon: int, lo: int, hi: int)
    requires lo <= 50 <= hi
    requires forall i :: 0 <= i < |historical| ==> lo <= historical[i].congestionIndex <= hi
    ensures lo as real <= HistoricalPattern(historical, horizon) <= hi as real
  {
    if |historical| > 0 {
      CongestionSumBounds(historical, lo, hi);
      IntMeanBounds(CongestionSum(historical), |historical|, lo, hi);
    }
  }

  /** The last five points of the history (`slice(-5)`). */
  function Recent(historical: seq<TrafficAnalysis>): (r: seq<TrafficAnalysis>)
    ensures |r| == if |historical| <= 5 then |historical| else 5
    ensures r == historical[|historical| - |r|..]
  {
    if |historical| <= 5 then historical else historical[|historical| - 5..]
  }

  /** temporalModelPrediction. `clock` is the wall clock the source reads. */
  function TemporalPrediction(current: TrafficAnalysis, historical: seq<TrafficAnalysis>,
                              horizon: int, clock: Instant): (r: Prediction)
    ensures r.modelType == Temporal && r.seasonalityFactor == 1.0 && r.segmentId == current.segmentId
    ensures r.predictedAt == clock.millis && r.predictedFor == clock.millis + horizon * MillisPerMinute
    ensures 0.5 <= r.confidence <= 1.0
    ensures r.factors == Factors(current.congestionIndex, HistoricalPattern(historical, horizon),
                                 TimeOfDayFactor(clock.hour), DayOfWeekFactor(clock.day),
                                 CalculateTrend(Recent(historical)))
    ensures r.factors.trend == Stable ==>
      r.predictedIndex == current.congestionIndex && r.predictedDelayMinutes == Round1(current.delayMinutes)
    ensures r.factors.trend == Increasing ==>
      r.predictedIndex <= 100 && (horizon >= 0 && current.congestionIndex <= 100 ==> r.predictedIndex >= current.congestionIndex)
    ensures r.factors.trend == Decreasing ==>
      r.predictedIndex >= 0 && r.predictedDelayMinutes >= 0.0 &&
      (horizon >= 0 && current.congestionIndex >= 0 ==> r.predictedIndex <= current.congestionIndex)
  {
    var trend := CalculateTrend(Recent(historical));
    var predictedIndex := TrendIndex(current.congestionIndex, horizon, trend);
    var predictedDelay := TrendDelay(current.delayMinutes, horizon, trend);
    var confidence := 0.85 - horizon as real / 100.0;
    var factors := Factors(current.congestionIndex, HistoricalPattern(historical, horizon),
                           TimeOfDayFactor(clock.hour), DayOfWeekFactor(clock.day), trend);
    TrendRounding(current.congestionIndex, current.delayMinutes, horizon, trend);
    Prediction(current.segmentId, clock.millis, clock.millis + horizon * MillisPerMinute,
               Round(predictedIndex), Round1(predictedDelay), Max(0.5, Min(1.0, confidence)),
               Temporal, 1.0, factors)
  }

  /** The temporal model's step for an increasing trend: the index goes up by the
      horizon (at most 100) and the delay by 3% per minute of horizon, both
      then rounded. */
  lemma TemporalIncreasingStep(current: TrafficAnalysis, historical: seq<TrafficAnalysis>, horizon: int, clock: Instant)
    requires CalculateTrend(Recent(historical)) == Increasing
    ensures var r := TemporalPrediction(current, historical, horizon, clock);
      r.predictedIndex == Round(Min(100.0, current.congestionIndex as real + horizon as real)) &&
      r.predictedDelayMinutes == Round1(current.delayMinutes * (1.0 + 0.03 * horizon as real))
  {
    var r := TemporalPrediction(current, historical, horizon, clock);
    assert r.predictedIndex == Round(TrendIndex(current.congestionIndex, horizon, Increasing));
    assert r.predictedDelayMinutes == Round1(TrendDelay(current.delayMinutes, horizon, Increasing));
    var i := TrendIndex(current.congestionIndex, horizon, Increasing);
    var d := TrendDelay(current.delayMinutes, horizon, Increasing);
    assert i == Min(100.0, current.congestionIndex as real + horizon as real);
    assert d == current.delayMinutes * (1.0 + 0.03 * horizon as real);
  }

  /** The temporal model's step for a decreasing trend: the index goes down by a
      third of the horizon and the delay by 1/75 per minute of horizon, each at
      least 0, both then rounded. */
  lemma TemporalDecreasingStep(current: TrafficAnalysis, historical: seq<TrafficAnalysis>, horizon: int, clock: Instant)
    requires CalculateTrend(Recent(historical)) == Decreasing
    ensures var r := TemporalPrediction(current, historical, horizon, clock);
      r.predictedIndex == Round(Max(0.0, current.congestionIndex as real - horizon as real / 3.0)) &&
      r.predictedDelayMinutes == Round1(Max(0.0, current.delayMinutes * (1.0 - horizon as real / 75.0)))
  {
    var r := TemporalPrediction(current, historical, horizon, clock);
    assert r.predictedIndex == Round(TrendIndex(current.congestionIndex, horizon, Decreasing));
    assert r.predictedDelayMinutes == Round1(TrendDelay(current.delayMinutes, horizon, Decreasing));
    var i := TrendIndex(current.congestionIndex, horizon, Decreasing);
    var d := TrendDelay(current.delayMinutes, horizon, Decreasing);
    assert i == Max(0.0, current.congestionIndex as real - horizon as real / 3.0);
    assert d == Max(0.0, current.delayMinutes * (1.0 - horizon as real / 75.0));
  }

  /** The index the temporal model expects before rounding: up by the horizon in
      tenths of ten points when increasing (at most 100), down by the horizon in
      fifteenths of five points when decreasing (at least 0), else unchanged. */
  function TrendIndex(congestionIndex: int, horizon: int, trend: Trend): (r: real)
    ensures trend == Increasing ==> r == Min(100.0, congestionIndex as real + horizon as real)
    ensures trend == Decreasing ==> r == Max(0.0, congestionIndex as real - horizon as real / 3.0)
  {
    var ci := congestionIndex as real;
    match trend
    case Increasing =>
      var increaseRate := horizon as real / 10.0;
      Min(100.0, ci + increaseRate * 10.0)
    case Decreasing =>
      var decreaseRate := horizon as real / 15.0;
      Max(0.0, ci - decreaseRate * 5.0)
    case Stable => ci
  }

  /** The delay the temporal model expects before rounding: 3% more per minute
      of horizon when increasing, 1/75 less per minute (at least 0) when
      decreasing, else unchanged. */
  function TrendDelay(delayMinutes: real, horizon: int, trend: Trend): (r: real)
    ensures trend == Increasing ==> r == delayMinutes * (1.0 + 0.03 * horizon as real)
    ensures trend == Decreasing ==> r == Max(0.0, delayMinutes * (1.0 - horizon as real / 75.0))
  {
    match trend
    case Increasing =>
      var increaseRate := horizon as real / 10.0;
      assert 1.0 + increaseRate * 0.3 == 1.0 + 0.03 * horizon as real;
      delayMinutes * (1.0 + increaseRate * 0.3)
    case Decreasing =>
      var decreaseRate := horizon as real / 15.0;
      assert 1.0 - decreaseRate * 0.2 == 1.0 - horizon as real / 75.0;
      Max(0.0, delayMinutes * (1.0 - decreaseRate * 0.2))
    case Stable => delayMinutes
  }

  lemma TrendRounding(congestionIndex: int, delayMinutes: real, horizon: int, trend: Trend)
    ensures var i := Round(TrendIndex(congestionIndex, horizon, trend));
      var d := Round1(TrendDelay(delayMinutes, horizon, trend));
      (trend == Stable ==> i == congestionIndex && d == Round1(delayMinutes)) &&
      (trend == Increasing ==> i <= 100 && (horizon >= 0 && congestionIndex <= 100 ==> i >= congestionIndex)) &&
      (trend == Decreasing ==> i >= 0 && d >= 0.0 && (horizon >= 0 && congestionIndex >= 0 ==> i <= congestionIndex))
  {
    var x := TrendIndex(congestionIndex, horizon, trend);
    var ci := congestionIndex as real;
    RoundOfInt(congestionIndex);
    match trend
    case Stable =>
    case Increasing =>
      RoundMonotone(x, 100.0);
      RoundOfInt(100);
      if horizon >= 0 && congestionIndex <= 100 {
        RoundMonotone(ci, x);
      }
    case Decreasing =>
      RoundMonotone(0.0, x);
      RoundOfInt(0);
      Round1AtLeast(TrendDelay(delayMinutes, horizon, trend), 0);
      if horizon >= 0 && congestionIndex >= 0 {
        RoundMonotone(x, ci);
      }
  }

  datatype Feature = Feature(value: real, weight: real)

  /** extractFeatures: index, density, speed and the last historical index
      (50 without history). */
  function ExtractFeatures(current: TrafficAnalysis, historical: seq<TrafficAnalysis>): (r: seq<Feature>)
    ensures |r| == 4
    ensures r[0].value == current.congestionIndex as real && r[1].value == current.density
    ensures r[2].value == current.avgSpeed
    ensures r[3].value == if |historical| > 0 then historical[|historical| - 1].congestionIndex as real else 50.0
  {
    [Feature(current.congestionIndex as real, 0.4), Feature(current.density, 0.3),
     Feature(current.avgSpeed, 0.2),
     Feature(if |historical| > 0 then historical[|historical| - 1].congestionIndex as real else 50.0, 0.1)]
  }

  function WeightedSum(features: seq<Feature>): real
  {
    if features == [] then 0.0 else WeightedSum(features[..|features| - 1]) + features[|features| - 1].weight * features[|features| - 1].value
  }

  function WeightTotal(features: seq<Feature>): real
  {
    if features == [] then 0.0 else WeightTotal(features[..|features| - 1]) + features[|features| - 1].weight
  }

  /** The feature weights form a convex combination. */
  lemma FeatureWeightsSumToOne(current: TrafficAnalysis, historical: seq<TrafficAnalysis>)
    ensures WeightTotal(ExtractFeatures(current, historical)) == 1.0
  {
    var f := ExtractFeatures(current, historical);
    assert f[..1][..0] == [];
    assert WeightTotal(f[..1]) == 0.4;
    assert f[..2][..1] == f[..1];
    assert WeightTotal(f[..2]) == 0.7;
    assert f[..3][..2] == f[..2];
    assert WeightTotal(f[..3]) == 0.9;
    assert f[..4][..3] == f[..3] && f[..4] == f;
  }

  /** machineLearningPrediction. */
  function MachineLearningPrediction(current: TrafficAnalysis, historical: seq<TrafficAnalysis>,
                                     horizon: int, clock: Instant): (r: Prediction)
    ensures r.modelType == MachineLearning && r.confidence == 0.75 && r.seasonalityFactor == 1.0
    ensures r.segmentId == current.segmentId && r.predictedAt == clock.millis
    ensures r.predictedFor == clock.millis + horizon * MillisPerMinute
    ensures 0 <= r.predictedIndex <= 100 && 0.0 <= r.predictedDelayMinutes <= 15.0
    ensures r.factors == Factors(current.congestionIndex, HistoricalPattern(historical, horizon),
                                 TimeOfDayFactor(clock.hour), DayOfWeekFactor(clock.day), Stable)
  {
    var features := ExtractFeatures(current, historical);
    var mlPrediction := WeightedSum(features);
    var predictedIndex := Min(100.0, Max(0.0, current.congestionIndex as real + mlPrediction));
    var predictedDelay := (predictedIndex / 100.0) * 15.0;
    RoundWithin(predictedIndex, 0, 100);
    Round1Within(predictedDelay, 0, 150);
    Prediction(current.segmentId, clock.millis, clock.millis + horizon * MillisPerMinute,
               Round(predictedIndex), Round1(predictedDelay), 0.75, MachineLearning, 1.0,
               Factors(current.congestionIndex, HistoricalPattern(historical, horizon),
                       TimeOfDayFactor(clock.hour), DayOfWeekFactor(clock.day), Stable))
  }

  /** seasonalPrediction: the seasonality and the factors come from the
      requested `timestamp`, the prediction times from the wall clock. */
  function SeasonalPrediction(current: TrafficAnalysis, historical: seq<TrafficAnalysis>,
                              horizon: int, timestamp: Instant, clock: Instant): (r: Prediction)
    ensures r.modelType == Seasonal && r.confidence == 0.65
    ensures r.seasonalityFactor == SeasonalityFactor(timestamp.hour, horizon)
    ensures r.segmentId == current.segmentId && r.predictedAt == clock.millis
    ensures r.predictedFor == clock.millis + horizon * MillisPerMinute
    ensures 0 <= r.predictedIndex <= 100 && 0.0 <= r.predictedDelayMinutes <= 20.0
    ensures r.factors == Factors(current.congestionIndex, HistoricalPattern(historical, horizon),
                                 TimeOfDayFactor(timestamp.hour), DayOfWeekFactor(timestamp.day), Stable)
  {
    var seasonalityFactor := SeasonalityFactor(timestamp.hour, horizon);
    var basePrediction := current.congestionIndex as real * seasonalityFactor;
    var predictedIndex := Min(100.0, Max(0.0, basePrediction));
    var predictedDelay := (predictedIndex / 100.0) * 20.0;
    RoundWithin(predictedIndex, 0, 100);
    Round1Within(predictedDelay, 0, 200);
    Prediction(current.segmentId, clock.millis, clock.millis + horizon * MillisPerMinute,
               Round(predictedIndex), Round1(predictedDelay), 0.65, Seasonal, seasonalityFactor,
               Factors(current.congestionIndex, HistoricalPattern(historical, horizon),
                       TimeOfDayFactor(timestamp.hour), DayOfWeekFactor(timestamp.day), Stable))
  }

  /** The model chosen for one horizon. */
  function PredictionFor(current: TrafficAnalysis, historical: seq<TrafficAnalysis>,
                         horizon: int, timestamp: Instant, clock: Instant): (r: Prediction)
    ensures r.modelType == Temporal <==> horizon <= 10
    ensures r.modelType == MachineLearning <==> 10 < horizon <= 30
    ensures r.modelType == Seasonal <==> 30 < horizon
    ensures r.predictedFor == clock.millis + horizon * MillisPerMinute
  {
    if horizon <= 10 then TemporalPrediction(current, historical, horizon, clock)
    else if horizon <= 30 then MachineLearningPrediction(current, historical, horizon, clock)
    else SeasonalPrediction(current, historical, horizon, timestamp, clock)
  }

  /** generatePredictions: one prediction per horizon, in horizon order. */
  method GeneratePredictions(current: TrafficAnalysis, historical: seq<TrafficAnalysis>,
                             timestamp: Instant, clock: Instant) returns (predictions: seq<Prediction>)
    ensures |predictions| == |Horizons|
    ensures forall i :: 0 <= i < |Horizons| ==>
      predictions[i] == PredictionFor(current, historical, Horizons[i], timestamp, clock)
  {
    predictions := [];
    for k := 0 to |Horizons|
      invariant |predictions| == k
      invariant forall i :: 0 <= i < k ==>
        predictions[i] == PredictionFor(current, historical, Horizons[i], timestamp, clock)
    {
      var horizon := Horizons[k];
      var prediction: Prediction;
      if horizon <= 10 {
        prediction := TemporalPrediction(current, historical, horizon, clock);
      } else if horizon <= 30 {
        prediction := MachineLearningPrediction(current, historical, horizon, clock);
      } else {
        prediction := SeasonalPrediction(current, historical, horizon, timestamp, clock);
      }
      predictions := predictions + [prediction];
    }
  }

  /** Four predictions, 5, 10, 30 and 60 minutes ahead, from the temporal,
      temporal, feature and seasonal models. */
  lemma GeneratedHorizonsAndModels(current: TrafficAnalysis, historical: seq<TrafficAnalysis>,
                                   timestamp: Instant, clock: Instant, predictions: seq<Prediction>)
    requires |predictions| == |Horizons|
    requires forall i :: 0 <= i < |Horizons| ==>
      predictions[i] == PredictionFor(current, historical, Horizons[i], timestamp, clock)
    ensures |predictions| == 4
    ensures forall i :: 0 <= i < 4 ==> predictions[i].predictedFor == clock.millis + Horizons[i] * MillisPerMinute
    ensures predictions[0].modelType == Temporal && predictions[1].modelType == Temporal
    ensures predictions[2].modelType == MachineLearning && predictions[3].modelType == Seasonal
  {
    assert Horizons[0] == 5 && Horizons[1] == 10 && Horizons[2] == 30 && Horizons[3] == 60;
  }

  /** Every predicted index lies in [0, 100] when the current one does. */
  lemma PredictedIndexInRange(current: TrafficAnalysis, historical: seq<TrafficAnalysis>,
                              horizon: int, timestamp: Instant, clock: Instant)
    requires 0 <= current.congestionIndex <= 100 && horizon >= 0
    ensures 0 <= PredictionFor(current, historical, horizon, timestamp, clock).predictedIndex <= 100
  {
  }

  /** For an analysis produced by analyzeTraffic, whose delay is already rounded,
      a stable trend keeps both the index and the delay unchanged. */
  lemma StableTrendKeepsAnalysis(data: TrafficIntelligence.Anonymization.AnonymizedTrafficData, freeFlowSpeed: real,
                                 historical: seq<TrafficAnalysis>, horizon: int, clock: Instant)
    requires freeFlowSpeed != 0.0 && data.avgSpeed != 0.0
    requires CalculateTrend(Recent(historical)) == Stable
    ensures var current := TrafficIntelligence.AnalyzeTraffic(data, freeFlowSpeed);
      var r := TemporalPrediction(current, historical, horizon, clock);
      r.predictedIndex == current.congestionIndex && r.predictedDelayMinutes == current.delayMinutes
  {
    var current := TrafficIntelligence.AnalyzeTraffic(data, freeFlowSpeed);
    var d := TrafficIntelligence.RawDelay(data.avgSpeed, freeFlowSpeed);
    Round1Idempotent(d);
    RoundOfInt(0);
  }
}
