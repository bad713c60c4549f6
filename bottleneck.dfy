/** Bottleneck origin detection (lib/core/bottleneck-detection.ts): a sharp
    speed drop between two analyses of a segment marks the origin of a queue,
    whose backward extent links the congested neighbouring segments. */
module Bottleneck {
  import opened Common
  import TrafficIntelligence

  datatype Bottleneck = Bottleneck(
    segmentId: string,
    originLat: real,
    originLng: real,
    detectedAt: int,
    severity: Severity,
    speedDrop: real,
    backwardExtent: real,
    affectedSegments: seq<string>)

  /** A neighbour of the origin segment and its distance from the origin, km. */
  datatype AdjacentSegment = AdjacentSegment(id: string, congestionIndex: real, distance: real)

  const SpeedDropThreshold: real := 0.3
  const CriticalSpeedDrop: real := 0.5

  /** The severity of a relative speed drop. */
  function DropSeverity(speedDrop: real): (s: Severity)
    ensures s == Critical <==> speedDrop >= CriticalSpeedDrop
    ensures s == High <==> 0.4 <= speedDrop < CriticalSpeedDrop
    ensures s == Medium <==> 0.35 <= speedDrop < 0.4
    ensures s == Low <==> speedDrop < 0.35
  {
    if speedDrop >= CriticalSpeedDrop then Critical
    else if speedDrop >= 0.4 then High
    else if speedDrop >= 0.35 then Medium
    else Low
  }

  /** estimateBackwardExtent: up to 2 km for congestion plus up to 1.5 km for
      density, rounded to one decimal. */
  function EstimateBackwardExtent(congestionIndex: real, density: real): (r: real)
    ensures 0.0 <= congestionIndex <= 100.0 && density >= 0.0 ==> 0.0 <= r <= 3.5
  {
    var congestionFactor := congestionIndex / 100.0;
    var densityFactor := Min(density / 50.0, 1.0);
    var extent := congestionFactor * 2.0 + densityFactor * 1.5;
    // Both arms compute the source's value; the first only brings the rounding
    // bound into scope for the in-range ensures.
    if 0.0 <= congestionIndex <= 100.0 && density >= 0.0 then
      Round1Within(extent, 0, 35);
      Round1(extent)
    else
      Round1(extent)
  }

  /** detectBottleneck. `now` stands for the detection time; the free-flow speed
      is accepted and unused, as in the source. */
  function DetectBottleneck(current: TrafficIntelligence.TrafficAnalysis,
                            previous: Option<TrafficIntelligence.TrafficAnalysis>,
                            freeFlowSpeed: real, now: int): (r: Option<Bottleneck>)
    requires previous.Some? ==> previous.value.avgSpeed != 0.0
    ensures previous.None? ==> r.None?
    ensures previous.Some? ==>
      var drop := (previous.value.avgSpeed - current.avgSpeed) / previous.value.avgSpeed;
      (r.Some? <==> drop >= SpeedDropThreshold) &&
      (r.Some? ==>
        r.value.severity == DropSeverity(drop) && r.value.speedDrop == Round2(drop))
    ensures r.Some? ==>
      var b := r.value;
      b.segmentId == current.segmentId && b.affectedSegments == [current.segmentId] &&
      b.originLat == 0.0 && b.originLng == 0.0 && b.detectedAt == now &&
      b.backwardExtent == EstimateBackwardExtent(current.congestionIndex as real, current.density)
  {
    match previous
    case None => None
    case Some(prev) =>
      var speedDrop := (prev.avgSpeed - current.avgSpeed) / prev.avgSpeed;
      if speedDrop < SpeedDropThreshold then None
      else
        var severity := DropSeverity(speedDrop);
        var backwardExtent := EstimateBackwardExtent(current.congestionIndex as real, current.density);
        Some(Bottleneck(current.segmentId, 0.0, 0.0, now, severity, Round2(speedDrop),
                        backwardExtent, [current.segmentId]))
  }

  /** A detected bottleneck stays within the backward-extent bound of 3.5 km:
      the index of an analysis lies in [0, 100] and densities are non-negative. */
  lemma DetectedExtentBounded(current: TrafficIntelligence.TrafficAnalysis,
                              previous: Option<TrafficIntelligence.TrafficAnalysis>,
                              freeFlowSpeed: real, now: int)
    requires previous.Some? ==> previous.value.avgSpeed != 0.0
    requires 0 <= current.congestionIndex <= 100 && current.density >= 0.0
    ensures var r := DetectBottleneck(current, previous, freeFlowSpeed, now);
      r.Some? ==> 0.0 <= r.value.backwardExtent <= 3.5
  {
  }

  /** Whether a neighbour belongs to the queue behind the bottleneck. */
  predicate InExtent(segment: AdjacentSegment, backwardExtent: real)
  {
    segment.distance <= backwardExtent && segment.congestionIndex > 50.0
  }

  /** The ids of the neighbours inside the extent, in input order. */
  function LinkedIds(adjacent: seq<AdjacentSegment>, backwardExtent: real): seq<string>
  {
    if adjacent == [] then []
    else
      var last := adjacent[|adjacent| - 1];
      LinkedIds(adjacent[..|adjacent| - 1], backwardExtent) + (if InExtent(last, backwardExtent) then [last.id] else [])
  }

  /** linkBackwardExtent: the bottleneck with its affected segments replaced by
      its own id followed by the linked neighbours. */
  method LinkBackwardExtent(bottleneck: Bottleneck, adjacent: seq<AdjacentSegment>) returns (r: Bottleneck)
    ensures r == bottleneck.(affectedSegments := [bottleneck.segmentId] + LinkedIds(adjacent, bottleneck.backwardExtent))
  {
    var affected := [bottleneck.segmentId];
    for i := 0 to |adjacent|
      invariant affected == [bottleneck.segmentId] + LinkedIds(adjacent[..i], bottleneck.backwardExtent)
    {
      assert adjacent[..i + 1][..i] == adjacent[..i];
      var segment := adjacent[i];
      if segment.distance <= bottleneck.backwardExtent && segment.congestionIndex > 50.0 {
        affected := affected + [segment.id];
      }
    }
    assert adjacent[..|adjacent|] == adjacent;
    r := bottleneck.(affectedSegments := affected);
  }

  /** A neighbour's id is linked exactly when some neighbour with that id lies
      inside the extent. */
  lemma {:induction false} LinkedIdsMembership(adjacent: seq<AdjacentSegment>, backwardExtent: real, id: string)
    ensures id in LinkedIds(adjacent, backwardExtent) <==>
      exists i :: 0 <= i < |adjacent| && adjacent[i].id == id && InExtent(adjacent[i], backwardExtent)
  {
    if adjacent != [] {
      var init := adjacent[..|adjacent| - 1];
      LinkedIdsMembership(init, backwardExtent, id);
      if exists i :: 0 <= i < |adjacent| && adjacent[i].id == id && InExtent(adjacent[i], backwardExtent) {
        var i :| 0 <= i < |adjacent| && adjacent[i].id == id && InExtent(adjacent[i], backwardExtent);
        if i < |adjacent| - 1 {
          assert init[i] == adjacent[i];
        }
      }
      if exists i :: 0 <= i < |init| && init[i].id == id && InExtent(init[i], backwardExtent) {
        var i :| 0 <= i < |init| && init[i].id == id && InExtent(init[i], backwardExtent);
        assert adjacent[i] == init[i];
      }
    }
  }

  /** Linking keeps input order: the links of a concatenation are the links of
      the first part followed by those of the second. */
  lemma {:induction false} LinkedIdsConcat(a: seq<AdjacentSegment>, b: seq<AdjacentSegment>, backwardExtent: real)
    ensures LinkedIds(a + b, backwardExtent) == LinkedIds(a, backwardExtent) + LinkedIds(b, backwardExtent)
    decreases |b|
  {
    if b == [] {
      assert a + b == a;
    } else {
      assert (a + b)[..|a + b| - 1] == a + b[..|b| - 1];
      LinkedIdsConcat(a, b[..|b| - 1], backwardExtent);
    }
  }

  /** At most one id is linked per neighbour. */
  lemma {:induction false} LinkedIdsLength(adjacent: seq<AdjacentSegment>, backwardExtent: real)
    ensures |LinkedIds(adjacent, backwardExtent)| <= |adjacent|
  {
    if adjacent != [] {
      LinkedIdsLength(adjacent[..|adjacent| - 1], backwardExtent);
    }
  }
}
