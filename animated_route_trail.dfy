/**
 * The fading trail behind the plane: ten points stepped back from the current progress toward
 * the sender, with the current position put in front, drawn as segments that get thinner and
 * fainter the further back they are; plus the three fixed lines of the straight route.
 */
module AnimatedRouteTrail {
  import opened Geo

  const TrailLength: nat := 10

  /** `Math.max(0, progress - stepSize * (i + 1))` with `stepSize = progress / 10`. */
  function TrailProgress(progress: real, i: int): real {
    Max(0.0, progress - (progress / TrailLength as real) * (i + 1) as real)
  }

  /** Every trail point lies strictly behind the current progress and not before the sender. */
  lemma TrailProgressBounds(progress: real, i: int)
    requires progress > 0.0 && 0 <= i < TrailLength
    ensures 0.0 <= TrailProgress(progress, i) < progress
  {
    MulNonNegative(progress / 10.0, (i + 1) as real);
    assert (progress / 10.0) * (i + 1) as real > 0.0;
  }

  /** Inside the trail the clamp never bites: point `i` sits at `progress * (9 - i) / 10`. */
  lemma TrailProgressValue(progress: real, i: int)
    requires progress > 0.0 && 0 <= i < TrailLength
    ensures TrailProgress(progress, i) == progress * (9 - i) as real / 10.0
  {
    assert progress - (progress / 10.0) * (i + 1) as real == progress * (9 - i) as real / 10.0;
    MulNonNegative(progress, (9 - i) as real);
  }

  /** Each point is strictly behind the one before it. */
  lemma TrailProgressDecreasing(progress: real, i: int, j: int)
    requires progress > 0.0 && 0 <= i < j < TrailLength
    ensures TrailProgress(progress, j) < TrailProgress(progress, i)
  {
    TrailProgressValue(progress, i);
    TrailProgressValue(progress, j);
    assert progress * (9 - i) as real - progress * (9 - j) as real == progress * (j - i) as real;
    assert progress * (j - i) as real > 0.0 by {
      MulNonNegative(progress, (j - i - 1) as real);
    }
  }

  /** The last trail point, taken in exact arithmetic, is the sender. */
  lemma LastTrailPointAtSender(progress: real)
    requires progress > 0.0
    ensures TrailProgress(progress, TrailLength - 1) == 0.0
  {
    TrailProgressValue(progress, 9);
  }

  /** The points `generateTrailPoints` stores. */
  function TrailPoints(sender: LatLng, recipient: LatLng, progress: real, current: LatLng): seq<LatLng> {
    if progress <= 0.0 then []
    else [current] + seq(TrailLength, i requires 0 <= i < TrailLength => Interpolate(sender, recipient, TrailProgress(progress, i)))
  }

  /** The counted loop pushing one point per step, then the `unshift` of the current position. */
  method GenerateTrailPoints(sender: LatLng, recipient: LatLng, progress: real, current: LatLng) returns (points: seq<LatLng>)
    ensures points == TrailPoints(sender, recipient, progress, current)
  {
    points := [];
    var stepSize := progress / TrailLength as real;
    var i := 0;
    while i < TrailLength && progress > 0.0
      invariant 0 <= i <= TrailLength
      invariant progress <= 0.0 ==> i == 0
      invariant |points| == i
      invariant forall k :: 0 <= k < i ==> points[k] == Interpolate(sender, recipient, TrailProgress(progress, k))
    {
      var trailProgress := Max(0.0, progress - stepSize * (i + 1) as real);
      var lat := sender.lat + (recipient.lat - sender.lat) * trailProgress;
      var lng := sender.lng + (recipient.lng - sender.lng) * trailProgress;
      assert LatLng(lat, lng) == Interpolate(sender, recipient, TrailProgress(progress, i));
      points := points + [LatLng(lat, lng)];
      i := i + 1;
    }
    if |points| > 0 {
      points := [current] + points;
    }
  }

  /** No progress, no trail; otherwise eleven points, the current position first and the sender last. */
  lemma TrailPointsShape(sender: LatLng, recipient: LatLng, progress: real, current: LatLng)
    ensures progress <= 0.0 ==> TrailPoints(sender, recipient, progress, current) == []
    ensures var pts := TrailPoints(sender, recipient, progress, current);
      progress > 0.0 ==> |pts| == TrailLength + 1 && pts[0] == current && pts[TrailLength] == sender
  {
    if progress > 0.0 {
      LastTrailPointAtSender(progress);
    }
  }

  /** For progress up to 1 every trail point behind the front one lies on the route between the end points. */
  lemma TrailPointsOnRoute(sender: LatLng, recipient: LatLng, progress: real, current: LatLng)
    requires 0.0 < progress <= 1.0
    ensures var pts := TrailPoints(sender, recipient, progress, current);
      forall k :: 1 <= k < |pts| ==>
        Between(pts[k].lat, sender.lat, recipient.lat) && Between(pts[k].lng, sender.lng, recipient.lng)
  {
    var pts := TrailPoints(sender, recipient, progress, current);
    forall k | 1 <= k < |pts|
      ensures Between(pts[k].lat, sender.lat, recipient.lat) && Between(pts[k].lng, sender.lng, recipient.lng)
    {
      TrailProgressBounds(progress, k - 1);
      assert pts[k] == Interpolate(sender, recipient, TrailProgress(progress, k - 1));
    }
  }

  /** `Math.max(1, 6 - index)`. */
  function SegmentWeight(index: int): (w: int)
    ensures w >= 1
    ensures index <= 5 ==> w == 6 - index
  {
    if 6 - index > 1 then 6 - index else 1
  }

  /** `Math.max(0.1, 1 - index * 0.15)`. */
  function SegmentOpacity(index: int): (o: real)
    ensures o >= 0.1
    ensures index >= 0 ==> o <= 1.0
  {
    Max(0.1, 1.0 - index as real * 0.15)
  }

  /** Further back is never thicker nor more opaque. */
  lemma SegmentStyleNonIncreasing(i: int, j: int)
    requires i <= j
    ensures SegmentWeight(j) <= SegmentWeight(i)
    ensures SegmentOpacity(j) <= SegmentOpacity(i)
  {
    assert j as real * 0.15 - i as real * 0.15 == (j - i) as real * 0.15;
  }

  datatype TrailSegment = TrailSegment(from: LatLng, to: LatLng, weight: int, opacity: real)

  /** One segment per trail point after the first, joining it to the point before it. */
  function TrailSegments(points: seq<LatLng>): (r: seq<TrailSegment>)
    ensures |points| <= 1 ==> r == []
    ensures |points| > 1 ==> |r| == |points| - 1
    ensures forall k :: 0 <= k < |r| ==>
      r[k].from == points[k] && r[k].to == points[k + 1]
      && r[k].weight == SegmentWeight(k + 1) && r[k].opacity == SegmentOpacity(k + 1)
  {
    if |points| <= 1 then []
    else
      seq(|points| - 1, k requires 0 <= k < |points| - 1 =>
        TrailSegment(points[k], points[k + 1], SegmentWeight(k + 1), SegmentOpacity(k + 1)))
  }

  /** A trail drawn for positive progress has ten segments, the front one of weight 5. */
  lemma TrailHasTenSegments(sender: LatLng, recipient: LatLng, progress: real, current: LatLng)
    requires progress > 0.0
    ensures var segs := TrailSegments(TrailPoints(sender, recipient, progress, current));
      |segs| == 10 && segs[0].from == current && segs[0].weight == 5 && segs[9].to == sender
  {
    TrailPointsShape(sender, recipient, progress, current);
  }

  /** The grey full route, the solid completed part and the dashed remaining part. */
  datatype RouteLines = RouteLines(full: seq<LatLng>, completed: seq<LatLng>, remaining: seq<LatLng>)

  function RouteLinesFor(sender: LatLng, recipient: LatLng, current: LatLng): (l: RouteLines)
    ensures l.full == [sender, recipient]
    ensures |l.completed| == 2 && |l.remaining| == 2
    ensures l.completed[0] == l.full[0] && l.remaining[1] == l.full[1]
    ensures l.completed[1] == l.remaining[0] == current
  {
    RouteLines([sender, recipient], [sender, current], [current, recipient])
  }
}
