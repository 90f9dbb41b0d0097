/**
 * The time-based progress formula that the tracker, the plane tracker, the map layout and
 * the map container each compute on their own: the elapsed fraction of the shipment window
 * clamped to [0, 1], the interpolated position, and the pair of points the bearing is taken
 * between. Timestamps are milliseconds; the great-circle bearing itself is not modelled here.
 */
module ProgressEngine {
  import opened Geo

  /** `Math.max(0, Math.min(1, x))`. */
  function Clamp01(x: real): (r: real)
    ensures 0.0 <= r <= 1.0
    ensures 0.0 <= x <= 1.0 ==> r == x
    ensures x < 0.0 ==> r == 0.0
    ensures x > 1.0 ==> r == 1.0
  {
    Max(0.0, Min(1.0, x))
  }

  /**
   * Elapsed time over total duration, clamped. The source divides without a guard, so a
   * window with `end <= start` is excluded here rather than given a meaning.
   */
  function Progress(start: int, end: int, now: int): (p: real)
    requires start < end
    ensures 0.0 <= p <= 1.0
    ensures now <= start ==> p == 0.0
    ensures now >= end ==> p == 1.0
    ensures start < now < end ==> 0.0 < p < 1.0 && p * (end - start) as real == (now - start) as real
  {
    Clamp01((now - start) as real / (end - start) as real)
  }

  /** Progress never goes back as time goes forward. */
  lemma ProgressMonotone(start: int, end: int, now1: int, now2: int)
    requires start < end && now1 <= now2
    ensures Progress(start, end, now1) <= Progress(start, end, now2)
  {
    var d := (end - start) as real;
    var r1 := (now1 - start) as real / d;
    var r2 := (now2 - start) as real / d;
    assert r2 - r1 == (now2 - now1) as real / d;
  }

  /** The pair of points the heading is computed between. */
  datatype BearingInput = BearingInput(from: LatLng, to: LatLng)

  /**
   * While the shipment is under way the heading is taken from the current position toward
   * the recipient; once progress reaches 1 it is taken along the whole route instead.
   */
  function BearingInputFor(sender: LatLng, recipient: LatLng, progress: real): (b: BearingInput)
    ensures b.to == recipient
    ensures progress < 1.0 ==> b.from == Interpolate(sender, recipient, progress)
    ensures progress >= 1.0 ==> b.from == sender
  {
    if progress < 1.0 then BearingInput(Interpolate(sender, recipient, progress), recipient)
    else BearingInput(sender, recipient)
  }

  /** The bearing is never asked for between a point and itself, unless the route has no length. */
  lemma BearingInputNonDegenerate(sender: LatLng, recipient: LatLng, progress: real)
    requires sender != recipient
    ensures BearingInputFor(sender, recipient, progress).from != recipient
  {
    if progress < 1.0 && Interpolate(sender, recipient, progress) == recipient {
      InterpolateReachesEndOnlyAtOne(sender, recipient, progress);
    }
  }

  /** What one evaluation of the formula produces before it is written to component state. */
  datatype Snapshot = Snapshot(progress: real, position: LatLng, bearing: BearingInput)

  function Evaluate(sender: LatLng, recipient: LatLng, start: int, end: int, now: int): (s: Snapshot)
    requires start < end
    ensures s.progress == Progress(start, end, now)
    ensures s.position == Interpolate(sender, recipient, s.progress)
    ensures s.bearing == BearingInputFor(sender, recipient, s.progress)
  {
    var p := Progress(start, end, now);
    Snapshot(p, Interpolate(sender, recipient, p), BearingInputFor(sender, recipient, p))
  }

  /** At the start of the window the snapshot sits at the sender; from its end on, at the recipient. */
  lemma EvaluateEndpoints(sender: LatLng, recipient: LatLng, start: int, end: int, now: int)
    requires start < end
    ensures now <= start ==> Evaluate(sender, recipient, start, end, now).position == sender
    ensures now >= end ==> Evaluate(sender, recipient, start, end, now).position == recipient
    ensures now >= end ==> Evaluate(sender, recipient, start, end, now).bearing == BearingInput(sender, recipient)
  {
  }
}
