/** The anonymisation and aggregation layer (lib/core/anonymization.ts): raw
    telecom samples of one road segment are released only as an aggregate, and
    only when at least 30 devices and at least 5 devices per km are present. */
module Anonymization {
  import opened Common

  /** One device sample; no identifier is carried. */
  datatype Device = Device(lat: real, lng: real, speed: real, timestamp: int)

  datatype RawTelecomData = RawTelecomData(devices: seq<Device>, segmentId: string)

  datatype AnonymizedTrafficData = AnonymizedTrafficData(
    segmentId: string,
    timestamp: int,
    deviceCount: nat,
    avgSpeed: real,
    density: real,
    movementDirection: real,
    kAnonymity: int,
    isAnonymized: bool)

  const MinKAnonymity: int := 30
  const MinDensityThreshold: real := 5.0

  /** The `reduce((sum, d) => sum + d.speed, 0)` over the samples. */
  function SpeedSum(devices: seq<Device>): real
  {
    if devices == [] then 0.0 else devices[0].speed + SpeedSum(devices[1..])
  }

  lemma {:induction false} SpeedSumBounds(devices: seq<Device>, lo: real, hi: real)
    requires forall i :: 0 <= i < |devices| ==> lo <= devices[i].speed <= hi
    ensures |devices| as real * lo <= SpeedSum(devices) <= |devices| as real * hi
  {
    if devices != [] {
      SpeedSumBounds(devices[1..], lo, hi);
    }
  }

  /** anonymizeData. The mean heading (an atan2 average) and the release time
      are inputs here: `direction` and `now`. */
  function AnonymizeData(raw: RawTelecomData, segmentLength: real, direction: real, now: int)
    : (r: Option<AnonymizedTrafficData>)
    requires segmentLength != 0.0
    ensures |raw.devices| < MinKAnonymity ==> r.None?
    ensures |raw.devices| as real / segmentLength < MinDensityThreshold ==> r.None?
    ensures r.Some? <==>
      |raw.devices| >= MinKAnonymity && |raw.devices| as real / segmentLength >= MinDensityThreshold
    ensures r.Some? ==>
      var a := r.value;
      a.segmentId == raw.segmentId && a.timestamp == now &&
      a.deviceCount == |raw.devices| && a.kAnonymity == |raw.devices| && a.isAnonymized &&
      a.density * segmentLength == |raw.devices| as real &&
      a.avgSpeed * |raw.devices| as real == SpeedSum(raw.devices) &&
      a.movementDirection == direction
  {
    var n := |raw.devices|;
    if n < MinKAnonymity then None
    else
      var density := n as real / segmentLength;
      if density < MinDensityThreshold then None
      else
        var avgSpeed := SpeedSum(raw.devices) / n as real;
        Some(AnonymizedTrafficData(raw.segmentId, now, n, avgSpeed, density, direction, n, true))
  }

  /** validatePrivacyCompliance. */
  predicate ValidatePrivacyCompliance(data: AnonymizedTrafficData)
  {
    data.kAnonymity >= MinKAnonymity && data.isAnonymized && data.density >= MinDensityThreshold
  }

  /** preventReidentification: the record holds no identifier by construction, so
      only the k-anonymity bound is left to check. */
  predicate PreventReidentification(data: AnonymizedTrafficData)
  {
    data.kAnonymity >= MinKAnonymity
  }

  /** Whatever the layer releases passes both privacy checks. */
  lemma ReleasedDataIsCompliant(raw: RawTelecomData, segmentLength: real, direction: real, now: int)
    requires segmentLength != 0.0
    ensures var r := AnonymizeData(raw, segmentLength, direction, now);
      r.Some? ==> ValidatePrivacyCompliance(r.value) && PreventReidentification(r.value)
  {
  }

  /** Compliance is the stronger of the two checks. */
  lemma ComplianceImpliesNoReidentification(data: AnonymizedTrafficData)
    ensures ValidatePrivacyCompliance(data) ==> PreventReidentification(data)
    ensures ValidatePrivacyCompliance(data) <==>
      PreventReidentification(data) && data.isAnonymized && data.density >= 5.0
  {
  }

  /** The released average speed lies between the slowest and the fastest sample. */
  lemma AverageSpeedBetweenExtremes(raw: RawTelecomData, segmentLength: real, direction: real, now: int,
                                    lo: real, hi: real)
    requires segmentLength != 0.0
    requires forall i :: 0 <= i < |raw.devices| ==> lo <= raw.devices[i].speed <= hi
    ensures var r := AnonymizeData(raw, segmentLength, direction, now);
      r.Some? ==> lo <= r.value.avgSpeed <= hi
  {
    var r := AnonymizeData(raw, segmentLength, direction, now);
    if r.Some? {
      var n := |raw.devices| as real;
      SpeedSumBounds(raw.devices, lo, hi);
      MeanBounds(SpeedSum(raw.devices), n, r.value.avgSpeed, lo, hi);
    }
  }
}
