/** Emergency routing (lib/core/emergency-routing.ts): a straight route of 11
    points between origin and destination, its length and travel time with the
    delays reported along it, and the 30-second refresh rule. */
module EmergencyRouting {
  import opened Common

  datatype Point = Point(lat: real, lng: real)

  /** The congestion reported for one route segment. */
  datatype Congestion = Congestion(index: real, delay: real)

  /** The congestion met at route point `segmentIndex` (the source keys it
      `segment-<index>`; the model keys it by the index itself). */
  datatype SegmentCongestion = SegmentCongestion(segmentIndex: int, congestionIndex: real, delayMinutes: real)

  /** An emergency route; `id` is the creation time the source's
      `emergency-<time>` identifier is made of. */
  datatype EmergencyRoute = EmergencyRoute(
    id: int,
    originLat: real,
    originLng: real,
    destinationLat: real,
    destinationLng: real,
    route: seq<Point>,
    distance: real,
    estimatedTime: real,
    lastUpdate: int,
    updateInterval: int,
    isActive: bool,
    congestionAlongRoute: seq<SegmentCongestion>)

  /** Congestion per segment index. */
  type CongestionMap = map<int, Congestion>

  /** A distance function on coordinates, in km (the source uses Haversine). */
  type Distance = (Point, Point) -> real

  const DefaultUpdateInterval: int := 30
  const Steps: int := 10
  const BaseSpeed: real := 50.0

  /** The point a fraction i/10 of the way from origin to destination. */
  function Interpolate(origin: Point, destination: Point, i: int): Point
  {
    var ratio := i as real / Steps as real;
    Point(origin.lat + (destination.lat - origin.lat) * ratio,
          origin.lng + (destination.lng - origin.lng) * ratio)
  }

  /** The straight route: the 11 points at 0/10, 1/10, ..., 10/10 of the way. */
  function StraightRoute(origin: Point, destination: Point): (r: seq<Point>)
    ensures |r| == Steps + 1
    ensures forall i :: 0 <= i < |r| ==> r[i] == Interpolate(origin, destination, i)
  {
    seq(Steps + 1, i => Interpolate(origin, destination, i))
  }

  /** The straight route runs from the origin to the destination in equal steps. */
  lemma StraightRouteShape(origin: Point, destination: Point)
    ensures var r := StraightRoute(origin, destination);
      r[0] == origin && r[Steps] == destination &&
      forall i :: 0 <= i < Steps ==>
        r[i + 1].lat - r[i].lat == (destination.lat - origin.lat) / 10.0 &&
        r[i + 1].lng - r[i].lng == (destination.lng - origin.lng) / 10.0
  {
    var r := StraightRoute(origin, destination);
    assert r[Steps] == Interpolate(origin, destination, Steps);
    forall i | 0 <= i < Steps
      ensures r[i + 1].lat - r[i].lat == (destination.lat - origin.lat) / 10.0
      ensures r[i + 1].lng - r[i].lng == (destination.lng - origin.lng) / 10.0
    {
      var a := (i + 1) as real / 10.0;
      var b := i as real / 10.0;
      assert a - b == 0.1;
      assert (destination.lat - origin.lat) * a - (destination.lat - origin.lat) * b
          == (destination.lat - origin.lat) * (a - b);
      assert (destination.lng - origin.lng) * a - (destination.lng - origin.lng) * b
          == (destination.lng - origin.lng) * (a - b);
    }
  }

  /** calculateOptimalRoute: the congestion map is accepted and not used. */
  method OptimalRoute(origin: Point, destination: Point, congestion: CongestionMap) returns (route: seq<Point>)
    ensures route == StraightRoute(origin, destination)
  {
    route := [];
    var i := 0;
    while i <= Steps
      invariant 0 <= i <= Steps + 1
      invariant |route| == i
      invariant forall k :: 0 <= k < i ==> route[k] == Interpolate(origin, destination, k)
    {
      var ratio := i as real / Steps as real;
      var lat := origin.lat + (destination.lat - origin.lat) * ratio;
      var lng := origin.lng + (destination.lng - origin.lng) * ratio;
      route := route + [Point(lat, lng)];
      i := i + 1;
    }
  }

  /** The length of a polyline: the sum of the distances between consecutive
      points. */
  function PathLength(route: seq<Point>, dist: Distance): real
  {
    if |route| < 2 then 0.0
    else PathLength(route[..|route| - 1], dist) + dist(route[|route| - 2], route[|route| - 1])
  }

  lemma {:induction false} PathLengthNonNegative(route: seq<Point>, dist: Distance)
    requires forall p, q :: dist(p, q) >= 0.0
    ensures PathLength(route, dist) >= 0.0
  {
    if |route| >= 2 {
      PathLengthNonNegative(route[..|route| - 1], dist);
    }
  }

  /** calculateRouteDistance. */
  method RouteDistance(route: seq<Point>, dist: Distance) returns (distance: real)
    ensures distance == PathLength(route, dist)
  {
    distance := 0.0;
    var i := 1;
    while i < |route|
      invariant 1 <= i <= |route| || |route| == 0
      invariant distance == PathLength(route[..if |route| == 0 then 0 else i], dist)
    {
      assert route[..i + 1][..i] == route[..i];
      distance := distance + dist(route[i - 1], route[i]);
      i := i + 1;
    }
    if |route| > 0 {
      assert route[..i] == route;
    } else {
      assert route[..0] == route;
    }
  }

  /** The delays reported for route points 0 to n-1; missing points add nothing. */
  function DelayAlong(n: nat, congestion: CongestionMap): real
  {
    if n == 0 then 0.0
    else DelayAlong(n - 1, congestion) + (if n - 1 in congestion then congestion[n - 1].delay else 0.0)
  }

  /** The travel time of a route, in minutes: its length at 50 km/h plus every
      delay reported along it. */
  function TravelTime(route: seq<Point>, congestion: CongestionMap, dist: Distance): real
  {
    PathLength(route, dist) / BaseSpeed * 60.0 + DelayAlong(|route|, congestion)
  }

  /** calculateEstimatedTime. */
  method EstimatedTime(route: seq<Point>, congestion: CongestionMap, dist: Distance) returns (time: real)
    ensures time == TravelTime(route, congestion, dist)
  {
    var distance := RouteDistance(route, dist);
    time := (distance / BaseSpeed) * 60.0;
    for index := 0 to |route|
      invariant time == distance / BaseSpeed * 60.0 + DelayAlong(index, congestion)
    {
      if index in congestion {
        time := time + congestion[index].delay;
      }
    }
  }

  /** Without any reported congestion the travel time is the driving time alone;
      reported delays only add to it when they are non-negative. */
  lemma {:induction false} DelayAlongBounds(n: nat, congestion: CongestionMap)
    ensures congestion == map[] ==> DelayAlong(n, congestion) == 0.0
    ensures (forall k :: k in congestion ==> congestion[k].delay >= 0.0) ==> DelayAlong(n, congestion) >= 0.0
  {
    if n > 0 {
      DelayAlongBounds(n - 1, congestion);
    }
  }

  /** The congestion met along a route: one entry per point, keyed by its index,
      index and delay 0 where nothing is reported. */
  function CongestionAlong(route: seq<Point>, congestion: CongestionMap): (r: seq<SegmentCongestion>)
    ensures |r| == |route|
    ensures forall i :: 0 <= i < |r| ==> r[i].segmentIndex == i
    ensures forall i :: 0 <= i < |r| ==>
      (i in congestion ==> r[i].congestionIndex == congestion[i].index && r[i].delayMinutes == congestion[i].delay) &&
      (i !in congestion ==> r[i].congestionIndex == 0.0 && r[i].delayMinutes == 0.0)
  {
    seq(|route|, i => var c := if i in congestion then congestion[i] else Congestion(0.0, 0.0);
                      SegmentCongestion(i, c.index, c.delay))
  }

  /** calculateEmergencyRoute; `now` is the creation time. */
  method CalculateEmergencyRoute(origin: Point, destination: Point, congestion: CongestionMap,
                                 dist: Distance, now: int) returns (r: EmergencyRoute)
    ensures r.route == StraightRoute(origin, destination)
    ensures r.distance == Round1(PathLength(r.route, dist))
    ensures r.estimatedTime == Round1(TravelTime(r.route, congestion, dist))
    ensures r.congestionAlongRoute == CongestionAlong(r.route, congestion)
    ensures r.originLat == origin.lat && r.originLng == origin.lng
    ensures r.destinationLat == destination.lat && r.destinationLng == destination.lng
    ensures r.updateInterval == DefaultUpdateInterval && r.isActive
    ensures r.id == now && r.lastUpdate == now
  {
    var route := OptimalRoute(origin, destination, congestion);
    var distance := RouteDistance(route, dist);
    var estimatedTime := EstimatedTime(route, congestion, dist);
    var congestionAlongRoute := CongestionAlong(route, congestion);
    r := EmergencyRoute(now, origin.lat, origin.lng, destination.lat, destination.lng, route,
                        Round1(distance), Round1(estimatedTime), now, DefaultUpdateInterval, true,
                        congestionAlongRoute);
  }

  /** updateEmergencyRoute: recomputed from the stored endpoints; `now` is the
      update time. */
  method UpdateEmergencyRoute(route: EmergencyRoute, congestion: CongestionMap, dist: Distance, now: int)
    returns (r: EmergencyRoute)
    ensures var points := StraightRoute(Point(route.originLat, route.originLng),
                                        Point(route.destinationLat, route.destinationLng));
      r == route.(route := points,
                  distance := Round1(PathLength(points, dist)),
                  estimatedTime := Round1(TravelTime(points, congestion, dist)),
                  lastUpdate := now,
                  congestionAlongRoute := CongestionAlong(points, congestion))
  {
    var origin := Point(route.originLat, route.originLng);
    var destination := Point(route.destinationLat, route.destinationLng);
    var updatedRoute := OptimalRoute(origin, destination, congestion);
    var distance := RouteDistance(updatedRoute, dist);
    var estimatedTime := EstimatedTime(updatedRoute, congestion, dist);
    var congestionAlongRoute := CongestionAlong(updatedRoute, congestion);
    r := route.(route := updatedRoute, distance := Round1(distance), estimatedTime := Round1(estimatedTime),
                lastUpdate := now, congestionAlongRoute := congestionAlongRoute);
  }

  /** An update of a route created by calculateEmergencyRoute keeps its points,
      its identity, endpoints, interval and activity, whatever the congestion. */
  lemma UpdateKeepsRoute(created: EmergencyRoute, updated: EmergencyRoute, origin: Point, destination: Point,
                         congestion: CongestionMap, dist: Distance, now: int)
    requires created.route == StraightRoute(origin, destination)
    requires created.originLat == origin.lat && created.originLng == origin.lng
    requires created.destinationLat == destination.lat && created.destinationLng == destination.lng
    requires updated == created.(route := StraightRoute(Point(created.originLat, created.originLng),
                                                        Point(created.destinationLat, created.destinationLng)),
                                 distance := Round1(PathLength(created.route, dist)),
                                 estimatedTime := Round1(TravelTime(created.route, congestion, dist)),
                                 lastUpdate := now,
                                 congestionAlongRoute := CongestionAlong(created.route, congestion))
    ensures updated.route == created.route
    ensures updated.id == created.id && updated.updateInterval == created.updateInterval
    ensures updated.isActive == created.isActive
    ensures updated.originLat == created.originLat && updated.originLng == created.originLng
    ensures updated.destinationLat == created.destinationLat && updated.destinationLng == created.destinationLng
  {
    assert Point(created.originLat, created.originLng) == origin;
    assert Point(created.destinationLat, created.destinationLng) == destination;
  }

  /** shouldUpdateRoute at time `now` (milliseconds). */
  function ShouldUpdateRoute(route: EmergencyRoute, now: int): (r: bool)
    ensures r <==> now - route.lastUpdate >= 1000 * route.updateInterval
  {
    var timeSinceUpdate := (now - route.lastUpdate) as real / 1000.0;
    timeSinceUpdate >= route.updateInterval as real
  }
}
