/**
 * The map viewport: centred on the current position and fitted to the route's bounding box,
 * padded on every side by 30% of the route's larger extent.
 */
module MapContainer {
  import opened Optional
  import opened Geo
  import opened ProgressEngine
  import opened TrackingRecord

  datatype Bounds = Bounds(southWest: LatLng, northEast: LatLng)

  predicate Inside(b: Bounds, p: LatLng) {
    b.southWest.lat <= p.lat <= b.northEast.lat && b.southWest.lng <= p.lng <= b.northEast.lng
  }

  /** Thirty per cent of the larger of the two coordinate spans; zero exactly for a route of no length. */
  function Padding(sender: LatLng, recipient: LatLng): (p: real)
    ensures p >= 0.0
    ensures p >= 0.3 * Abs(recipient.lat - sender.lat) && p >= 0.3 * Abs(recipient.lng - sender.lng)
    ensures p == 0.3 * Abs(recipient.lat - sender.lat) || p == 0.3 * Abs(recipient.lng - sender.lng)
    ensures p == 0.0 <==> sender == recipient
  {
    var latRange := Abs(recipient.lat - sender.lat);
    var lngRange := Abs(recipient.lng - sender.lng);
    Max(latRange, lngRange) * 0.3
  }

  function PaddedBounds(sender: LatLng, recipient: LatLng): (b: Bounds)
    ensures b.southWest.lat <= Min(sender.lat, recipient.lat) && b.southWest.lng <= Min(sender.lng, recipient.lng)
    ensures b.northEast.lat >= Max(sender.lat, recipient.lat) && b.northEast.lng >= Max(sender.lng, recipient.lng)
    ensures Inside(b, sender) && Inside(b, recipient)
    ensures sender == recipient ==> b == Bounds(sender, sender)
  {
    var padding := Padding(sender, recipient);
    Bounds(LatLng(Min(sender.lat, recipient.lat) - padding, Min(sender.lng, recipient.lng) - padding),
           LatLng(Max(sender.lat, recipient.lat) + padding, Max(sender.lng, recipient.lng) + padding))
  }

  /** Wherever the shipment is along its route, the centre lies inside the fitted bounds. */
  lemma CentreInsideBounds(sender: LatLng, recipient: LatLng, progress: real)
    requires 0.0 <= progress <= 1.0
    ensures Inside(PaddedBounds(sender, recipient), Interpolate(sender, recipient, progress))
  {
  }

  class Container {
    const data: Option<TrackingData>

    var mapCenter: Option<LatLng>
    var mapBounds: Option<Bounds>

    constructor (data: Option<TrackingData>)
      ensures this.data == data && mapCenter == None && mapBounds == None
    {
      this.data := data;
      mapCenter := None;
      mapBounds := None;
    }

    /** The effect: nothing happens unless the record and both of its end points are present. */
    method ComputeView(now: int)
      requires data.Some? && HasEndpoints(data.value) ==> data.value.dateReceived < data.value.dateDelivered
      modifies this
      ensures !(data.Some? && HasEndpoints(data.value)) ==> mapCenter == old(mapCenter) && mapBounds == old(mapBounds)
      ensures data.Some? && HasEndpoints(data.value) ==>
        var d := data.value;
        && mapCenter == Some(Interpolate(d.sender.value, d.recipient.value, Progress(d.dateReceived, d.dateDelivered, now)))
        && mapBounds == Some(PaddedBounds(d.sender.value, d.recipient.value))
    {
      if data.Some? && data.value.sender.Some? && data.value.recipient.Some? {
        var s := data.value.sender.value;
        var r := data.value.recipient.value;
        var totalDuration := data.value.dateDelivered - data.value.dateReceived;
        var elapsed := now - data.value.dateReceived;
        var progress := elapsed as real / totalDuration as real;
        progress := Max(0.0, Min(1.0, progress));
        var currentLat := s.lat + (r.lat - s.lat) * progress;
        var currentLng := s.lng + (r.lng - s.lng) * progress;
        assert LatLng(currentLat, currentLng) == Interpolate(s, r, progress);
        mapCenter := Some(LatLng(currentLat, currentLng));
        var latRange := Abs(r.lat - s.lat);
        var lngRange := Abs(r.lng - s.lng);
        var padding := Max(latRange, lngRange) * 0.3;
        mapBounds := Some(Bounds(LatLng(Min(s.lat, r.lat) - padding, Min(s.lng, r.lng) - padding),
                                 LatLng(Max(s.lat, r.lat) + padding, Max(s.lng, r.lng) + padding)));
      }
    }

    /** The spinner is shown until a centre has been computed. */
    predicate ShowsSpinner()
      reads this
    {
      mapCenter.None? || data.None?
    }
  }

  /** With both end points present one run of the effect replaces the spinner by the map, centre inside bounds. */
  method ViewAfterEffect(data: TrackingData, now: int) returns (spinner: bool, centreInside: bool)
    requires HasEndpoints(data) && data.dateReceived < data.dateDelivered
    ensures !spinner && centreInside
  {
    var c := new Container(Some(data));
    c.ComputeView(now);
    spinner := c.ShowsSpinner();
    CentreInsideBounds(data.sender.value, data.recipient.value,
                       Progress(data.dateReceived, data.dateDelivered, now));
    centreInside := Inside(c.mapBounds.value, c.mapCenter.value);
  }
}
