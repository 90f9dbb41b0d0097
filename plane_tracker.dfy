/**
 * The older plane-only marker: the same timer callback as the vehicle tracker, the same
 * status thresholds, and a marker that is either the delivered check or a rotated plane.
 */
module PlaneTracker {
  import opened Optional
  import opened Geo
  import opened Decimal
  import opened ProgressEngine
  import opened ShipmentStatus
  import TransportUtils
  import DynamicTransportTracker

  class Tracker {
    const sender: LatLng
    const recipient: LatLng
    const shipmentStart: int
    const estimatedArrival: int

    var planePosition: Option<LatLng>
    var progress: real
    var bearing: real

    constructor (sender: LatLng, recipient: LatLng, shipmentStart: int, estimatedArrival: int)
      ensures this.sender == sender && this.recipient == recipient
      ensures this.shipmentStart == shipmentStart && this.estimatedArrival == estimatedArrival
      ensures planePosition == None && progress == 0.0 && bearing == 0.0
    {
      this.sender := sender;
      this.recipient := recipient;
      this.shipmentStart := shipmentStart;
      this.estimatedArrival := estimatedArrival;
      planePosition := None;
      progress := 0.0;
      bearing := 0.0;
    }

    /** The timer callback, with the clock reading and the heading function supplied from outside. */
    method CalculateProgress(now: int, bearingOf: (LatLng, LatLng) -> real)
      requires shipmentStart < estimatedArrival
      modifies this
      ensures progress == Progress(shipmentStart, estimatedArrival, now)
      ensures planePosition == Some(Interpolate(sender, recipient, progress))
      ensures var b := BearingInputFor(sender, recipient, progress); bearing == bearingOf(b.from, b.to)
    {
      var totalDuration := estimatedArrival - shipmentStart;
      var elapsed := now - shipmentStart;
      var calculated := elapsed as real / totalDuration as real;
      calculated := Max(0.0, Min(1.0, calculated));
      progress := calculated;
      var lat := sender.lat + (recipient.lat - sender.lat) * calculated;
      var lng := sender.lng + (recipient.lng - sender.lng) * calculated;
      assert LatLng(lat, lng) == Interpolate(sender, recipient, calculated);
      planePosition := Some(LatLng(lat, lng));
      if calculated < 1.0 {
        bearing := bearingOf(LatLng(lat, lng), recipient);
      } else {
        bearing := bearingOf(sender, recipient);
      }
    }
  }

  /** Word for word the vehicle tracker's status text. */
  function StatusText(progress: real): (r: string)
    ensures r == DynamicTransportTracker.StatusText(progress)
    ensures r == Label(StageOf(progress))
  {
    if progress >= 1.0 then "Delivered"
    else if progress >= 0.8 then "Out for Delivery"
    else if progress >= 0.5 then "In Transit (Near Destination)"
    else if progress >= 0.2 then "In Transit"
    else "Departed"
  }

  /** The same four-way colour mapping as the vehicle tracker. */
  function StatusColor(progress: real): (r: string)
    ensures r == DynamicTransportTracker.StatusColor(progress)
  {
    if progress >= 1.0 then "text-green-600 bg-green-50 border-green-200"
    else if progress >= 0.8 then "text-blue-600 bg-blue-50 border-blue-200"
    else if progress >= 0.5 then "text-orange-600 bg-orange-50 border-orange-200"
    else "text-purple-600 bg-purple-50 border-purple-200"
  }

  datatype Marker = DeliveredMarker | PlaneMarker(rotation: real, percent: int)

  function MarkerIcon(progress: real, bearing: real): (m: Marker)
    ensures m.DeliveredMarker? <==> progress >= 1.0
    ensures m.PlaneMarker? ==> m.rotation == bearing - 45.0
    ensures m.PlaneMarker? ==> m.percent as real - 0.5 <= progress * 100.0 < m.percent as real + 0.5
  {
    if progress >= 1.0 then DeliveredMarker
    else PlaneMarker(bearing - 45.0, RoundHalfUp(progress * 100.0))
  }

  /** The two trackers agree on whether the delivered check is shown. */
  lemma MarkerAgreesOnDelivery(progress: real, mode: TransportUtils.Mode, bearing: real)
    ensures MarkerIcon(progress, bearing).DeliveredMarker?
        <==> DynamicTransportTracker.MarkerIcon(progress, mode, bearing).DeliveredMarker?
  {
  }
}
