/**
 * The plain route line: with progress shown and positive, a solid part from the sender to the
 * interpolated point and a dashed part from there to the recipient over a faint full line;
 * otherwise one dashed full line. The progress prop is not clamped here.
 */
module RoutePolyline {
  import opened Optional
  import opened Geo

  datatype RouteView =
    | FullRoute(route: seq<LatLng>)
    | SplitRoute(completed: seq<LatLng>, remaining: seq<LatLng>, background: seq<LatLng>)

  /** The props `progress` and `showProgress` are optional and default to 0 and true. */
  function RouteViewFor(sender: LatLng, recipient: LatLng, progressProp: Option<real>, showProgressProp: Option<bool>): (v: RouteView)
    ensures var p := progressProp.GetOr(0.0);
      v.SplitRoute? <==> showProgressProp.GetOr(true) && p > 0.0
    ensures v.FullRoute? ==> v.route == [sender, recipient]
    ensures v.SplitRoute? ==> v.background == [sender, recipient]
    ensures v.SplitRoute? ==> |v.completed| == 2 && |v.remaining| == 2
    ensures v.SplitRoute? ==> v.completed[0] == sender && v.remaining[1] == recipient
    ensures v.SplitRoute? ==> v.completed[1] == v.remaining[0] == Interpolate(sender, recipient, progressProp.GetOr(0.0))
  {
    var progress := progressProp.GetOr(0.0);
    var showProgress := showProgressProp.GetOr(true);
    var fullRoute := [sender, recipient];
    if showProgress && progress > 0.0 then
      var current := LatLng(sender.lat + (recipient.lat - sender.lat) * progress,
                            sender.lng + (recipient.lng - sender.lng) * progress);
      SplitRoute([sender, current], [current, recipient], fullRoute)
    else FullRoute(fullRoute)
  }

  /** Without the two optional props the single full route is drawn. */
  lemma DefaultPropsDrawFullRoute(sender: LatLng, recipient: LatLng)
    ensures RouteViewFor(sender, recipient, None, None) == FullRoute([sender, recipient])
  {
  }

  /** For progress in (0, 1] the split point lies between the end points. */
  lemma SplitPointOnRoute(sender: LatLng, recipient: LatLng, progress: real)
    requires 0.0 < progress <= 1.0
    ensures var v := RouteViewFor(sender, recipient, Some(progress), None);
      v.SplitRoute? && Between(v.remaining[0].lat, sender.lat, recipient.lat)
      && Between(v.remaining[0].lng, sender.lng, recipient.lng)
  {
  }

  /** Beyond 1 the split point overshoots the recipient. */
  lemma SplitPointExtrapolates(sender: LatLng, recipient: LatLng, progress: real)
    requires progress > 1.0 && sender.lat < recipient.lat
    ensures RouteViewFor(sender, recipient, Some(progress), None).remaining[0].lat > recipient.lat
  {
    var d := recipient.lat - sender.lat;
    assert d * progress - d == d * (progress - 1.0);
    assert d * (progress - 1.0) > 0.0;
  }
}
