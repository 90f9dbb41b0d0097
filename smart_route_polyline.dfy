/**
 * The route line on the map. Short (truck) shipments ask the OSRM road router for a route and
 * draw its geometry; everything else, and every failure, draws the straight line from sender to
 * recipient. The route is then split at the point the progress has reached into a completed and
 * a remaining part. The request itself is not modelled: its outcome arrives as a parameter.
 */
module SmartRoutePolyline {
  import opened Optional
  import opened Geo
  import opened TransportUtils

  /** A GeoJSON position: `[longitude, latitude]`. */
  type Position = (real, real)

  /** The fields of an OSRM reply that are read: the status code and each route's geometry. */
  datatype OsrmReply = OsrmReply(code: string, routes: Option<seq<seq<Position>>>)

  /** What awaiting the request produced: a parsed reply, or an exception. */
  datatype FetchOutcome = Replied(reply: OsrmReply) | Failed

  /** The lon/lat swap applied to each GeoJSON position. */
  function FromGeoJson(cs: seq<Position>): (r: seq<LatLng>)
    ensures |r| == |cs|
    ensures forall i :: 0 <= i < |r| ==> r[i].lat == cs[i].1 && r[i].lng == cs[i].0
  {
    seq(|cs|, i requires 0 <= i < |cs| => LatLng(cs[i].1, cs[i].0))
  }

  function ToGeoJson(ps: seq<LatLng>): (r: seq<Position>)
    ensures |r| == |ps|
    ensures forall i :: 0 <= i < |r| ==> r[i] == (ps[i].lng, ps[i].lat)
  {
    seq(|ps|, i requires 0 <= i < |ps| => (ps[i].lng, ps[i].lat))
  }

  /** Swapping back recovers the GeoJSON positions, so the swap loses nothing. */
  lemma GeoJsonRoundTrip(cs: seq<Position>)
    ensures ToGeoJson(FromGeoJson(cs)) == cs
  {
    var back := ToGeoJson(FromGeoJson(cs));
    assert forall i :: 0 <= i < |cs| ==> back[i] == cs[i];
  }

  lemma LatLngRoundTrip(ps: seq<LatLng>)
    ensures FromGeoJson(ToGeoJson(ps)) == ps
  {
    var back := FromGeoJson(ToGeoJson(ps));
    assert forall i :: 0 <= i < |ps| ==> back[i] == ps[i];
  }

  /** `data.code === 'Ok' && data.routes && data.routes.length > 0`. */
  predicate Usable(outcome: FetchOutcome) {
    outcome.Replied? && outcome.reply.code == "Ok" && outcome.reply.routes.Some? && |outcome.reply.routes.value| > 0
  }

  function Geometry(outcome: FetchOutcome): seq<Position>
    requires Usable(outcome)
  {
    outcome.reply.routes.value[0]
  }

  /** The route the fetch effect stores. */
  function RouteFor(roadRoute: bool, sender: LatLng, recipient: LatLng, outcome: FetchOutcome): (r: seq<LatLng>)
    ensures !roadRoute || !Usable(outcome) ==> r == [sender, recipient]
    ensures roadRoute && Usable(outcome) ==> ToGeoJson(r) == Geometry(outcome)
  {
    if roadRoute && Usable(outcome) then
      GeoJsonRoundTrip(Geometry(outcome));
      FromGeoJson(Geometry(outcome))
    else [sender, recipient]
  }

  /** The straight-line fallback always runs from the sender to the recipient in two points. */
  lemma StraightLineFallback(sender: LatLng, recipient: LatLng, outcome: FetchOutcome)
    requires outcome.Failed? || outcome.reply.code != "Ok"
    ensures RouteFor(true, sender, recipient, outcome) == [sender, recipient]
    ensures RouteFor(false, sender, recipient, outcome) == [sender, recipient]
  {
  }

  /** An accepted reply with an empty geometry leaves no route, so nothing is drawn. */
  lemma EmptyGeometryDrawsNothing(sender: LatLng, recipient: LatLng, code: string)
    ensures code == "Ok" ==> RouteFor(true, sender, recipient, Replied(OsrmReply(code, Some([[]])))) == []
  {
    if code == "Ok" {
      assert Usable(Replied(OsrmReply(code, Some([[]]))));
    }
  }

  /** The component state the two effects write. */
  class SmartRoute {
    const sender: LatLng
    const recipient: LatLng

    var routeCoordinates: seq<LatLng>
    var isRoadRoute: bool
    var loading: bool
    var transportMode: Mode

    constructor (sender: LatLng, recipient: LatLng)
      ensures this.sender == sender && this.recipient == recipient
      ensures routeCoordinates == [] && !isRoadRoute && loading && transportMode == Truck
    {
      this.sender := sender;
      this.recipient := recipient;
      routeCoordinates := [];
      isRoadRoute := false;
      loading := true;
      transportMode := Truck;
    }

    /** The first effect; `distance` is the haversine distance between the end points. */
    method SelectRouting(distance: real)
      modifies this
      ensures transportMode == GetTransportMode(distance)
      ensures isRoadRoute <==> distance < TruckLimitKm
      ensures routeCoordinates == old(routeCoordinates) && loading == old(loading)
    {
      var mode := GetTransportMode(distance);
      transportMode := mode;
      isRoadRoute := mode == Truck;
    }

    /**
     * The second effect, from `setLoading(true)` to `setLoading(false)`. `outcome` is what the
     * router request returns; it is only consulted when a road route was asked for.
     */
    method FetchRoute(outcome: FetchOutcome)
      modifies this
      ensures routeCoordinates == RouteFor(isRoadRoute, sender, recipient, outcome) && !loading
      ensures isRoadRoute == old(isRoadRoute) && transportMode == old(transportMode)
    {
      loading := true;
      if isRoadRoute {
        match outcome
        case Failed =>
          routeCoordinates := [sender, recipient];
        case Replied(reply) =>
          if reply.code == "Ok" && reply.routes.Some? && |reply.routes.value| > 0 {
            routeCoordinates := FromGeoJson(reply.routes.value[0]);
          } else {
            routeCoordinates := [sender, recipient];
          }
      } else {
        routeCoordinates := [sender, recipient];
      }
      loading := false;
    }

    /** `loading || routeCoordinates.length === 0` renders nothing. */
    predicate DrawsAnything()
      reads this
    {
      !loading && |routeCoordinates| > 0
    }
  }

  /** Where a `slice` bound lands: negative bounds count from the end, and all are clamped to the length. */
  function SliceIndex(k: int, n: nat): (i: nat)
    ensures i <= n
    ensures 0 <= k <= n ==> i == k
    ensures k > n ==> i == n
    ensures k < 0 && n + k >= 0 ==> i == n + k
    ensures n + k < 0 ==> i == 0
  {
    if k < 0 then (if n + k < 0 then 0 else n + k)
    else if k < n then k else n
  }

  /** JavaScript's `Array.prototype.slice(start, end)`. */
  function JsSlice<T>(s: seq<T>, start: int, end: int): (r: seq<T>)
    ensures |r| <= |s|
    ensures 0 <= start <= end <= |s| ==> r == s[start..end]
    ensures SliceIndex(end, |s|) <= SliceIndex(start, |s|) ==> r == []
  {
    var from := SliceIndex(start, |s|);
    var to := SliceIndex(end, |s|);
    if from < to then s[from..to] else []
  }

  /** `Math.floor(progress * (totalPoints - 1))`: the greatest integer not above the scaled progress. */
  function SegmentIndex(progress: real, n: nat): (idx: int)
    ensures idx as real <= progress * (n as real - 1.0) < idx as real + 1.0
  {
    (progress * (n as real - 1.0)).Floor
  }

  lemma SegmentIndexInRange(progress: real, n: nat)
    requires 0.0 <= progress <= 1.0 && n >= 1
    ensures 0 <= SegmentIndex(progress, n) <= n - 1
    ensures progress == 1.0 ==> SegmentIndex(progress, n) == n - 1
  {
    var m := n as real - 1.0;
    MulNonNegative(progress, m);
    MulNonNegative(1.0 - progress, m);
    assert progress * m <= m;
  }

  datatype Segments = Segments(completed: seq<LatLng>, remaining: seq<LatLng>)

  /**
   * The split `getCurrentRouteSegment` defines: the route is cut where the bound `idx + 1` lands
   * (as `slice` places it), the completed part ends and the remaining part starts at the current
   * position, and for every progress dropping that shared point rejoins the route.
   */
  function RouteSegments(route: seq<LatLng>, progress: real, current: LatLng): (s: Segments)
    ensures route == [] ==> s == Segments([], [])
    ensures route != [] ==> |s.completed| >= 1 && s.completed[|s.completed| - 1] == current
    ensures route != [] ==> |s.remaining| >= 1 && s.remaining[0] == current
    ensures route != [] ==> s.completed[..|s.completed| - 1] + s.remaining[1..] == route
  {
    if route == [] then Segments([], [])
    else
      var cut := SliceIndex(SegmentIndex(progress, |route|) + 1, |route|);
      var s := Segments(route[..cut] + [current], [current] + route[cut..]);
      assert s.completed[..|s.completed| - 1] == route[..cut];
      assert s.remaining[1..] == route[cut..];
      assert route[..cut] + route[cut..] == route;
      s
  }

  /** The slice, then the `push` onto the fresh array, then the spread into the remaining part. */
  method CurrentRouteSegment(route: seq<LatLng>, progress: real, current: LatLng) returns (completed: seq<LatLng>, remaining: seq<LatLng>)
    ensures Segments(completed, remaining) == RouteSegments(route, progress, current)
  {
    if |route| == 0 {
      return [], [];
    }
    var totalPoints := |route|;
    var currentIndex := SegmentIndex(progress, totalPoints);
    ghost var cut := SliceIndex(currentIndex + 1, totalPoints);
    completed := JsSlice(route, 0, currentIndex + 1);
    assert completed == route[..cut];
    completed := completed + [current];
    var rest := JsSlice(route, currentIndex + 1, |route|);
    assert rest == route[cut..];
    remaining := [current] + rest;
  }

  /**
   * For progress in [0, 1] the route is cut after point `idx`: the completed part is the route
   * up to and including it followed by the current position, the remaining part starts at the
   * current position, and dropping that shared point gives back the whole route.
   */
  lemma RouteSegmentsShape(route: seq<LatLng>, progress: real, current: LatLng)
    requires 0.0 <= progress <= 1.0 && route != []
    ensures var idx := SegmentIndex(progress, |route|);
      var s := RouteSegments(route, progress, current);
      && 0 <= idx < |route|
      && s.completed == route[..idx + 1] + [current]
      && s.remaining == [current] + route[idx + 1..]
      && |s.completed| == idx + 2 && |s.remaining| == |route| - idx
      && s.completed[..|s.completed| - 1] + s.remaining[1..] == route
  {
    var idx := SegmentIndex(progress, |route|);
    SegmentIndexInRange(progress, |route|);
  }

  /** The colour of the completed line: the same per-mode colour as the details table. */
  function RouteColor(mode: Mode): (c: string)
    ensures c == GetTransportDetails(mode).color
  {
    match mode
    case Truck => "#10B981"
    case Plane => "#8B5CF6"
    case Ship => "#3B82F6"
  }

  /** Which of the four polylines are drawn. */
  datatype Layers = Layers(background: bool, completedLine: bool, remainingLine: bool, movingDots: bool)

  function LayersFor(loading: bool, route: seq<LatLng>, s: Segments): (l: Layers)
    ensures loading || route == [] ==> l == Layers(false, false, false, false)
    ensures !loading && route != [] ==> l.background
    ensures l.completedLine <==> l.movingDots
    ensures l.completedLine <==> !loading && route != [] && |s.completed| > 1
    ensures l.remainingLine <==> !loading && route != [] && |s.remaining| > 1
  {
    if loading || |route| == 0 then Layers(false, false, false, false)
    else Layers(true, |s.completed| > 1, |s.remaining| > 1, |s.completed| > 1)
  }

  /**
   * Once progress reaches 1 the whole route is completed and the remaining part is the current
   * position alone, so the dashed line disappears while the completed line is still drawn.
   */
  lemma LayersAtArrival(route: seq<LatLng>, current: LatLng)
    requires route != []
    ensures RouteSegments(route, 1.0, current).completed == route + [current]
    ensures var l := LayersFor(false, route, RouteSegments(route, 1.0, current));
      l.completedLine && !l.remainingLine
  {
    RouteSegmentsShape(route, 1.0, current);
    SegmentIndexInRange(1.0, |route|);
    assert route[..|route|] == route;
  }
}
