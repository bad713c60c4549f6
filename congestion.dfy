/** The congestion index of a road segment and its colour and status bands
    (lib/utils.ts). */
module Congestion {
  import opened Common

  /** calculateCongestionIndex: 60 points for the relative speed loss plus 40
      for the density (saturating at 50 devices/km), rounded and clamped to
      [0, 100]. */
  function CongestionIndex(density: real, avgSpeed: real, freeFlowSpeed: real): (r: int)
    requires freeFlowSpeed != 0.0
    ensures 0 <= r <= 100
  {
    var speedRatio := avgSpeed / freeFlowSpeed;
    var densityFactor := Min(density / 50.0, 1.0);
    var index := Round((1.0 - speedRatio) * 60.0 + densityFactor * 40.0);
    if index > 100 then 100 else if index < 0 then 0 else index
  }

  /** Every density of at least 50 devices/km contributes the same. */
  lemma DensitySaturates(d1: real, d2: real, avgSpeed: real, freeFlowSpeed: real)
    requires freeFlowSpeed != 0.0
    requires d1 >= 50.0 && d2 >= 50.0
    ensures CongestionIndex(d1, avgSpeed, freeFlowSpeed) == CongestionIndex(d2, avgSpeed, freeFlowSpeed)
  {
    assert Min(d1 / 50.0, 1.0) == 1.0 == Min(d2 / 50.0, 1.0);
  }

  /** Driving faster never raises the index. */
  lemma SpeedMonotone(density: real, a1: real, a2: real, freeFlowSpeed: real)
    requires freeFlowSpeed > 0.0 && a1 <= a2
    ensures CongestionIndex(density, a2, freeFlowSpeed) <= CongestionIndex(density, a1, freeFlowSpeed)
  {
    var f := Min(density / 50.0, 1.0);
    assert a1 / freeFlowSpeed <= a2 / freeFlowSpeed by {
      assert a2 / freeFlowSpeed - a1 / freeFlowSpeed == (a2 - a1) / freeFlowSpeed;
    }
    RoundMonotone((1.0 - a2 / freeFlowSpeed) * 60.0 + f * 40.0, (1.0 - a1 / freeFlowSpeed) * 60.0 + f * 40.0);
  }

  /** A denser segment never has a lower index. */
  lemma DensityMonotone(d1: real, d2: real, avgSpeed: real, freeFlowSpeed: real)
    requires freeFlowSpeed != 0.0 && d1 <= d2
    ensures CongestionIndex(d1, avgSpeed, freeFlowSpeed) <= CongestionIndex(d2, avgSpeed, freeFlowSpeed)
  {
    var s := (1.0 - avgSpeed / freeFlowSpeed) * 60.0;
    assert Min(d1 / 50.0, 1.0) <= Min(d2 / 50.0, 1.0);
    RoundMonotone(s + Min(d1 / 50.0, 1.0) * 40.0, s + Min(d2 / 50.0, 1.0) * 40.0);
  }

  /** An empty segment flowing at free-flow speed has index 0. */
  lemma FreeFlowIsZero(freeFlowSpeed: real)
    requires freeFlowSpeed > 0.0
    ensures CongestionIndex(0.0, freeFlowSpeed, freeFlowSpeed) == 0
  {
    assert freeFlowSpeed / freeFlowSpeed == 1.0;
    RoundOfInt(0);
  }

  /** The five congestion statuses (Arabic labels in the source: smooth,
      moderate, congested, very congested, gridlock). */
  datatype Status = Smooth | Moderate | Congested | VeryCongested | Gridlock

  /** getCongestionColor: the CSS colour class of an index. */
  function CongestionColor(index: real): string
  {
    if index < 30.0 then "traffic-green"
    else if index < 50.0 then "traffic-yellow"
    else if index < 70.0 then "traffic-orange"
    else if index < 90.0 then "traffic-red"
    else "traffic-dark"
  }

  /** getCongestionStatus: the textual status of an index. */
  function CongestionStatus(index: real): Status
  {
    if index < 30.0 then Smooth
    else if index < 50.0 then Moderate
    else if index < 70.0 then Congested
    else if index < 90.0 then VeryCongested
    else Gridlock
  }

  /** Reference band of an index: how many of the breakpoints 30, 50, 70 and 90
      it has reached. */
  function Band(index: real): (b: nat)
    ensures b <= 4
  {
    (if index >= 30.0 then 1 else 0) + (if index >= 50.0 then 1 else 0)
    + (if index >= 70.0 then 1 else 0) + (if index >= 90.0 then 1 else 0)
  }

  function ColorRank(color: string): int
  {
    if color == "traffic-green" then 0
    else if color == "traffic-yellow" then 1
    else if color == "traffic-orange" then 2
    else if color == "traffic-red" then 3
    else if color == "traffic-dark" then 4
    else -1
  }

  function StatusRank(status: Status): nat
  {
    match status
    case Smooth => 0
    case Moderate => 1
    case Congested => 2
    case VeryCongested => 3
    case Gridlock => 4
  }

  /** Colour and status both name the band of the index, so they always agree. */
  lemma ColorAndStatusNameTheBand(index: real)
    ensures ColorRank(CongestionColor(index)) == Band(index)
    ensures StatusRank(CongestionStatus(index)) == Band(index)
  {
  }

  /** The band boundaries, stated as ranges. */
  lemma ColorBands(index: real)
    ensures index < 30.0 <==> CongestionColor(index) == "traffic-green"
    ensures 30.0 <= index < 50.0 <==> CongestionColor(index) == "traffic-yellow"
    ensures 50.0 <= index < 70.0 <==> CongestionColor(index) == "traffic-orange"
    ensures 70.0 <= index < 90.0 <==> CongestionColor(index) == "traffic-red"
    ensures 90.0 <= index <==> CongestionColor(index) == "traffic-dark"
  {
    assert "traffic-green" != "traffic-yellow" && "traffic-green" != "traffic-orange";
    assert "traffic-green" != "traffic-red" && "traffic-green" != "traffic-dark";
    assert "traffic-yellow" != "traffic-orange" && "traffic-yellow" != "traffic-red";
    assert "traffic-yellow" != "traffic-dark" && "traffic-orange" != "traffic-red";
    assert "traffic-orange" != "traffic-dark" && "traffic-red" != "traffic-dark";
  }

  /** A higher index never falls into a lower band. */
  lemma BandMonotone(i1: real, i2: real)
    requires i1 <= i2
    ensures StatusRank(CongestionStatus(i1)) <= StatusRank(CongestionStatus(i2))
  {
    ColorAndStatusNameTheBand(i1);
    ColorAndStatusNameTheBand(i2);
  }
}
