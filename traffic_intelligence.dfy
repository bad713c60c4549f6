/** The traffic analysis of one anonymised segment sample
    (lib/core/traffic-intelligence.ts): congestion index and delay in minutes. */
module TrafficIntelligence {
  import opened Common
  import Congestion
  import Anonymization

  datatype TrafficAnalysis = TrafficAnalysis(
    segmentId: string,
    timestamp: int,
    density: real,
    avgSpeed: real,
    congestionIndex: int,
    delayMinutes: real,
    movementDirection: real,
    freeFlowSpeed: real)

  /** The default free-flow speed of a road, km/h. */
  const DefaultFreeFlowSpeed: real := 60.0

  /** analyzeTraffic. The delay is the relative speed loss times the travel
      time of a segment that takes 5 minutes at free flow. */
  function AnalyzeTraffic(data: Anonymization.AnonymizedTrafficData, freeFlowSpeed: real): (r: TrafficAnalysis)
    requires freeFlowSpeed != 0.0 && data.avgSpeed != 0.0
    ensures r.congestionIndex == Congestion.CongestionIndex(data.density, data.avgSpeed, freeFlowSpeed)
    ensures 0 <= r.congestionIndex <= 100
    ensures r.delayMinutes >= 0.0
    ensures r.segmentId == data.segmentId && r.timestamp == data.timestamp
    ensures r.density == data.density && r.avgSpeed == data.avgSpeed
    ensures r.movementDirection == data.movementDirection && r.freeFlowSpeed == freeFlowSpeed
  {
    var density := data.density;
    var avgSpeed := data.avgSpeed;
    var congestionIndex := Congestion.CongestionIndex(density, avgSpeed, freeFlowSpeed);
    RoundOfInt(congestionIndex);
    TrafficAnalysis(data.segmentId, data.timestamp, density, avgSpeed, Round(congestionIndex as real),
                    Max(0.0, Round1(RawDelay(avgSpeed, freeFlowSpeed))), data.movementDirection, freeFlowSpeed)
  }

  /** The unrounded delay of analyzeTraffic. */
  function RawDelay(avgSpeed: real, freeFlowSpeed: real): real
    requires freeFlowSpeed != 0.0 && avgSpeed != 0.0
  {
    var speedRatio := avgSpeed / freeFlowSpeed;
    var delayFactor := 1.0 - speedRatio;
    var estimatedTimeMinutes := (freeFlowSpeed / avgSpeed) * 5.0;
    delayFactor * estimatedTimeMinutes
  }

  /** The delay is five minutes times the excess of free-flow speed over the
      actual speed, as a ratio, rounded to one decimal and never negative. */
  lemma DelayIsExcessTravelTime(data: Anonymization.AnonymizedTrafficData, freeFlowSpeed: real)
    requires freeFlowSpeed != 0.0 && data.avgSpeed > 0.0
    ensures AnalyzeTraffic(data, freeFlowSpeed).delayMinutes
         == Max(0.0, Round1(5.0 * (freeFlowSpeed / data.avgSpeed - 1.0)))
  {
    DelayAlgebra(data.avgSpeed, freeFlowSpeed);
    assert RawDelay(data.avgSpeed, freeFlowSpeed) == 5.0 * (freeFlowSpeed / data.avgSpeed - 1.0);
  }

  lemma DelayAlgebra(a: real, f: real)
    requires a != 0.0 && f != 0.0
    ensures (1.0 - a / f) * ((f / a) * 5.0) == 5.0 * (f / a - 1.0)
  {
    RatiosAreInverse(a, f);
    ExpandDelay(a / f, f / a);
  }

  lemma RatiosAreInverse(a: real, f: real)
    requires a != 0.0 && f != 0.0
    ensures (a / f) * (f / a) == 1.0
  {
    var p := a / f;
    var q := f / a;
    assert q * a == f;
    assert p * f == a;
    assert (p * q) * a == p * (q * a);
    assert (p * q - 1.0) * a == 0.0;
  }

  lemma ExpandDelay(p: real, q: real)
    requires p * q == 1.0
    ensures (1.0 - p) * (q * 5.0) == 5.0 * (q - 1.0)
  {
    assert (1.0 - p) * (q * 5.0) == q * 5.0 - (p * q) * 5.0;
  }

  lemma RatioAtMostOne(f: real, a: real)
    requires 0.0 < f <= a
    ensures f / a <= 1.0
  {
    var q := f / a;
    assert a * q == f;
    assert a * 1.0 == a;
    MulCancel(a, q, 1.0);
  }

  /** At or above free-flow speed there is no delay. */
  lemma NoDelayAtFreeFlow(data: Anonymization.AnonymizedTrafficData, freeFlowSpeed: real)
    requires freeFlowSpeed > 0.0 && data.avgSpeed >= freeFlowSpeed
    ensures AnalyzeTraffic(data, freeFlowSpeed).delayMinutes == 0.0
  {
    var a := data.avgSpeed;
    var f := freeFlowSpeed;
    DelayIsExcessTravelTime(data, f);
    RatioAtMostOne(f, a);
    Round1Monotone(5.0 * (f / a - 1.0), 0.0);
    RoundOfInt(0);
  }

  /** calculateAdvancedCongestionIndex: a base index far (more than 20 points)
      from a non-zero historical average is raised by 10, capped at 100. */
  function AdvancedCongestionIndex(density: real, avgSpeed: real, freeFlowSpeed: real,
                                   historicalAvg: Option<real>): (r: int)
    requires freeFlowSpeed != 0.0
    ensures var base := Congestion.CongestionIndex(density, avgSpeed, freeFlowSpeed);
      base <= r <= base + 10 && 0 <= r <= 100 &&
      (r != base <==>
        base < 100 && historicalAvg.Some? && historicalAvg.value != 0.0 &&
        (base as real - historicalAvg.value > 20.0 || historicalAvg.value - base as real > 20.0))
  {
    var baseIndex := Congestion.CongestionIndex(density, avgSpeed, freeFlowSpeed);
    match historicalAvg
    case Some(h) =>
      if h != 0.0 then
        var deviation := if baseIndex as real >= h then baseIndex as real - h else h - baseIndex as real;
        if deviation > 20.0 then (if 100 <= baseIndex + 10 then 100 else baseIndex + 10) else baseIndex
      else baseIndex
    case None => baseIndex
  }
}
