/** Adaptive signal timing (lib/core/adaptive-signals.ts): green and cycle times
    recommended from the current congestion and from a predicted one, and the
    feasibility check a recommendation must pass. */
module AdaptiveSignals {
  import opened Common
  import TrafficIntelligence
  import TrafficPrediction

  type TrafficAnalysis = TrafficIntelligence.TrafficAnalysis
  type Prediction = TrafficPrediction.Prediction

  datatype SignalPriority = Normal | High | Emergency

  datatype Impact = Impact(delayReduction: real, throughputIncrease: real, queueLengthReduction: real)

  datatype SignalRecommendation = SignalRecommendation(
    segmentId: string,
    recommendedAt: int,
    greenTimeSeconds: int,
    cycleTimeSeconds: int,
    priority: SignalPriority,
    expectedImpact: Impact,
    implemented: bool)

  /** Why a recommendation is rejected (Arabic texts in the source). */
  datatype Rejection = GreenBelowMinimum | GreenAboveMaximum | CycleTooShort

  datatype Validation = Valid | Invalid(reason: Rejection)

  const DefaultGreenTime: real := 30.0
  const DefaultCycleTime: real := 90.0
  const MinGreenTime: int := 15
  const MaxGreenTime: int := 60

  /** The green time for the current congestion: 30 s plus up to 20 s for
      density and up to 10 s for congestion, clamped to [15, 60]. */
  function GreenTime(analysis: TrafficAnalysis): (g: real)
    ensures MinGreenTime as real <= g <= MaxGreenTime as real
    ensures analysis.density >= 0.0 && analysis.congestionIndex >= 0 ==> g >= DefaultGreenTime
  {
    var densityFactor := Min(analysis.density / 50.0, 1.0);
    var congestionFactor := analysis.congestionIndex as real / 100.0;
    Min(MaxGreenTime as real, Max(MinGreenTime as real, DefaultGreenTime + densityFactor * 20.0 + congestionFactor * 10.0))
  }

  /** The priority of a recommendation for the current congestion. */
  function CongestionPriority(congestionIndex: int): (p: SignalPriority)
    ensures p == SignalPriority.Emergency <==> congestionIndex >= 80
    ensures p == SignalPriority.High <==> 60 <= congestionIndex < 80
    ensures p == SignalPriority.Normal <==> congestionIndex < 60
  {
    if congestionIndex >= 80 then SignalPriority.Emergency
    else if congestionIndex >= 60 then SignalPriority.High
    else SignalPriority.Normal
  }

  /** calculateDelayReduction: half of the relative green-time extension, applied
      to the current delay. */
  function DelayReduction(analysis: TrafficAnalysis, greenTime: real): (r: real)
    ensures greenTime == DefaultGreenTime ==> r == 0.0
    ensures analysis.delayMinutes >= 0.0 && greenTime >= DefaultGreenTime ==> r >= 0.0
  {
    var greenTimeIncrease := (greenTime - DefaultGreenTime) / DefaultGreenTime;
    analysis.delayMinutes * greenTimeIncrease * 0.5
  }

  /** calculateThroughputIncrease: the relative extension in percent, at most 30. */
  function ThroughputIncrease(analysis: TrafficAnalysis, greenTime: real): (r: real)
    ensures r <= 30.0
    ensures greenTime == DefaultGreenTime ==> r == 0.0
  {
    var greenTimeIncrease := (greenTime - DefaultGreenTime) / DefaultGreenTime;
    Min(30.0, greenTimeIncrease * 100.0)
  }

  /** calculateQueueReduction: the extension weighted by congestion, in percent,
      at most 40. */
  function QueueReduction(analysis: TrafficAnalysis, greenTime: real): (r: real)
    ensures r <= 40.0
    ensures greenTime == DefaultGreenTime ==> r == 0.0
  {
    var congestionFactor := analysis.congestionIndex as real / 100.0;
    var greenTimeFactor := (greenTime - DefaultGreenTime) / DefaultGreenTime;
    Min(40.0, congestionFactor * greenTimeFactor * 100.0)
  }

  /** generateCurrentCongestionRecommendation; `now` is the recommendation time. */
  function CurrentCongestionRecommendation(analysis: TrafficAnalysis, now: int): (r: SignalRecommendation)
    ensures MinGreenTime <= r.greenTimeSeconds <= MaxGreenTime
    ensures 2 * r.greenTimeSeconds + 19 <= r.cycleTimeSeconds <= 2 * r.greenTimeSeconds + 21
    ensures r.priority == CongestionPriority(analysis.congestionIndex)
    ensures r.expectedImpact.throughputIncrease <= 30.0 && r.expectedImpact.queueLengthReduction <= 40.0
    ensures r.segmentId == analysis.segmentId && r.recommendedAt == now && !r.implemented
  {
    var greenTime := GreenTime(analysis);
    var cycleTime := greenTime * 2.0 + 20.0;
    var priority := CongestionPriority(analysis.congestionIndex);
    var delayReduction := DelayReduction(analysis, greenTime);
    var throughputIncrease := ThroughputIncrease(analysis, greenTime);
    var queueLengthReduction := QueueReduction(analysis, greenTime);
    CycleRounding(greenTime);
    RoundWithin(greenTime, MinGreenTime, MaxGreenTime);
    Round1AtMost(throughputIncrease, 300);
    Round1AtMost(queueLengthReduction, 400);
    SignalRecommendation(analysis.segmentId, now, Round(greenTime), Round(cycleTime), priority,
                         Impact(Round1(delayReduction), Round1(throughputIncrease), Round1(queueLengthReduction)),
                         false)
  }

  /** Rounding the cycle `2g + 20` lands within one second of twice the rounded
      green time plus 20. */
  lemma CycleRounding(g: real)
    ensures 2 * Round(g) + 19 <= Round(g * 2.0 + 20.0) <= 2 * Round(g) + 21
  {
    var k := Round(g);
    RoundMonotone((2 * k + 19) as real, g * 2.0 + 20.0);
    RoundMonotone(g * 2.0 + 20.0, (2 * k + 21) as real);
    RoundOfInt(2 * k + 19);
    RoundOfInt(2 * k + 21);
  }

  /** generatePredictiveRecommendation: the green time grows with the predicted
      index; the recommendation is urgent when the congestion is at most 10
      minutes away from `now`. */
  function PredictiveRecommendation(analysis: TrafficAnalysis, prediction: Prediction, now: int)
    : (r: SignalRecommendation)
    ensures r.greenTimeSeconds <= MaxGreenTime
    ensures 0 <= prediction.predictedIndex <= 100 ==>
      30 <= r.greenTimeSeconds <= 50 && 2 * r.greenTimeSeconds + 19 <= r.cycleTimeSeconds <= 2 * r.greenTimeSeconds + 21
    ensures r.priority == SignalPriority.High <==> MinutesUntil(prediction.predictedFor, now) <= 10
    ensures r.priority != SignalPriority.Emergency
    ensures r.expectedImpact == Impact(prediction.predictedDelayMinutes * 0.4, 15.0, 25.0)
    ensures r.segmentId == analysis.segmentId && r.recommendedAt == now && !r.implemented
  {
    var minutesUntilCongestion := MinutesUntil(prediction.predictedFor, now);
    var predictiveGreenTime := DefaultGreenTime + (prediction.predictedIndex as real / 100.0) * 20.0;
    RoundMonotone(Min(MaxGreenTime as real, predictiveGreenTime), MaxGreenTime as real);
    RoundOfInt(MaxGreenTime);
    if 0 <= prediction.predictedIndex <= 100 then
      RoundWithin(predictiveGreenTime, 30, 50);
      CycleRounding(predictiveGreenTime);
      PredictiveRecommendationRecord(analysis, prediction, now, minutesUntilCongestion, predictiveGreenTime)
    else
      PredictiveRecommendationRecord(analysis, prediction, now, minutesUntilCongestion, predictiveGreenTime)
  }

  function PredictiveRecommendationRecord(analysis: TrafficAnalysis, prediction: Prediction, now: int,
                                          minutesUntilCongestion: int, predictiveGreenTime: real)
    : SignalRecommendation
  {
    SignalRecommendation(analysis.segmentId, now,
                         Round(Min(MaxGreenTime as real, predictiveGreenTime)),
                         Round(predictiveGreenTime * 2.0 + 20.0),
                         if minutesUntilCongestion <= 10 then SignalPriority.High else SignalPriority.Normal,
                         Impact(prediction.predictedDelayMinutes * 0.4, 15.0, 25.0),
                         false)
  }

  /** Whole minutes from `now` to the predicted time, both in milliseconds. */
  function MinutesUntil(predictedFor: int, now: int): int
  {
    Round((predictedFor - now) as real / 60000.0)
  }

  predicate PredictsHeavyCongestion(p: Prediction)
  {
    p.predictedIndex >= 70
  }

  /** generateSignalRecommendations: a recommendation for the current congestion
      when its index is at least 50, then one for the first prediction of an
      index of at least 70, if any. */
  function GenerateSignalRecommendations(analysis: TrafficAnalysis, predictions: seq<Prediction>, now: int)
    : (r: seq<SignalRecommendation>)
    ensures var heavy := FindFirst(predictions, PredictsHeavyCongestion);
      |r| == (if analysis.congestionIndex >= 50 then 1 else 0) + (if heavy.Some? then 1 else 0) &&
      (analysis.congestionIndex >= 50 ==> r[0] == CurrentCongestionRecommendation(analysis, now)) &&
      (heavy.Some? ==> r[|r| - 1] == PredictiveRecommendation(analysis, heavy.value, now)) &&
      (heavy.None? <==> forall i :: 0 <= i < |predictions| ==> predictions[i].predictedIndex < 70)
    ensures |r| <= 2
  {
    var current := if analysis.congestionIndex >= 50 then [CurrentCongestionRecommendation(analysis, now)] else [];
    var heavy := FindFirst(predictions, PredictsHeavyCongestion);
    current + (if heavy.Some? then [PredictiveRecommendation(analysis, heavy.value, now)] else [])
  }

  /** validateRecommendation: green time within [15, 60] and a cycle of at least
      twice the green time, checked in that order. */
  function ValidateRecommendation(recommendation: SignalRecommendation): (v: Validation)
    ensures v.Valid? <==>
      MinGreenTime <= recommendation.greenTimeSeconds <= MaxGreenTime &&
      recommendation.cycleTimeSeconds >= recommendation.greenTimeSeconds * 2
    ensures v == Invalid(GreenBelowMinimum) <==> recommendation.greenTimeSeconds < MinGreenTime
    ensures v == Invalid(GreenAboveMaximum) <==> recommendation.greenTimeSeconds > MaxGreenTime
  {
    if recommendation.greenTimeSeconds < MinGreenTime then Invalid(GreenBelowMinimum)
    else if recommendation.greenTimeSeconds > MaxGreenTime then Invalid(GreenAboveMaximum)
    else if recommendation.cycleTimeSeconds < recommendation.greenTimeSeconds * 2 then Invalid(CycleTooShort)
    else Valid
  }

  /** Every recommendation for the current congestion is feasible. */
  lemma CurrentRecommendationIsValid(analysis: TrafficAnalysis, now: int)
    ensures ValidateRecommendation(CurrentCongestionRecommendation(analysis, now)) == Valid
  {
  }

  /** So is every predictive one for an index within [0, 100]. */
  lemma PredictiveRecommendationIsValid(analysis: TrafficAnalysis, prediction: Prediction, now: int)
    requires 0 <= prediction.predictedIndex <= 100
    ensures ValidateRecommendation(PredictiveRecommendation(analysis, prediction, now)) == Valid
  {
  }

  /** Hence every generated recommendation is feasible, provided the predicted
      indices lie in [0, 100]. */
  lemma GeneratedRecommendationsAreValid(analysis: TrafficAnalysis, predictions: seq<Prediction>, now: int)
    requires forall i :: 0 <= i < |predictions| ==> 0 <= predictions[i].predictedIndex <= 100
    ensures forall rec :: rec in GenerateSignalRecommendations(analysis, predictions, now) ==>
      ValidateRecommendation(rec) == Valid
  {
    var r := GenerateSignalRecommendations(analysis, predictions, now);
    var heavy := FindFirst(predictions, PredictsHeavyCongestion);
    CurrentRecommendationIsValid(analysis, now);
    if heavy.Some? {
      PredictiveRecommendationIsValid(analysis, heavy.value, now);
    }
  }
}
