/**
 * The vehicle marker on the tracking map: its state (progress, position, heading, distance,
 * mode) as the component's timer callback writes it, and the status text, status colour and
 * marker icon derived from that state.
 */
module DynamicTransportTracker {
  import opened Optional
  import opened Geo
  import opened Decimal
  import opened TransportUtils
  import opened ProgressEngine
  import opened ShipmentStatus

  /** The component state written by the two effects. */
  class Tracker {
    const sender: LatLng
    const recipient: LatLng
    const shipmentStart: int
    const estimatedArrival: int

    var vehiclePosition: Option<LatLng>
    var progress: real
    var bearing: real
    var distance: real
    var transportMode: Mode

    constructor (sender: LatLng, recipient: LatLng, shipmentStart: int, estimatedArrival: int)
      ensures this.sender == sender && this.recipient == recipient
      ensures this.shipmentStart == shipmentStart && this.estimatedArrival == estimatedArrival
      ensures vehiclePosition == None && progress == 0.0 && bearing == 0.0
      ensures distance == 0.0 && transportMode == Truck
    {
      this.sender := sender;
      this.recipient := recipient;
      this.shipmentStart := shipmentStart;
      this.estimatedArrival := estimatedArrival;
      vehiclePosition := None;
      progress := 0.0;
      bearing := 0.0;
      distance := 0.0;
      transportMode := Truck;
    }

    /** The first effect: `dist` is the haversine distance between the two end points. */
    method UpdateDistance(dist: real)
      modifies this
      ensures distance == dist && transportMode == GetTransportMode(dist)
      ensures vehiclePosition == old(vehiclePosition) && progress == old(progress) && bearing == old(bearing)
    {
      distance := dist;
      transportMode := GetTransportMode(dist);
    }

    /**
     * The timer callback. `now` is the clock reading and `bearingOf` the great-circle
     * heading function, both supplied from outside.
     */
    method CalculateProgress(now: int, bearingOf: (LatLng, LatLng) -> real)
      requires shipmentStart < estimatedArrival
      modifies this
      ensures progress == Progress(shipmentStart, estimatedArrival, now)
      ensures vehiclePosition == Some(Interpolate(sender, recipient, progress))
      ensures var b := BearingInputFor(sender, recipient, progress); bearing == bearingOf(b.from, b.to)
      ensures distance == old(distance) && transportMode == old(transportMode)
    {
      var totalDuration := estimatedArrival - shipmentStart;
      var elapsed := now - shipmentStart;
      var calculated := elapsed as real / totalDuration as real;
      calculated := Max(0.0, Min(1.0, calculated));
      progress := calculated;
      var lat := sender.lat + (recipient.lat - sender.lat) * calculated;
      var lng := sender.lng + (recipient.lng - sender.lng) * calculated;
      assert LatLng(lat, lng) == Interpolate(sender, recipient, calculated);
      vehiclePosition := Some(LatLng(lat, lng));
      if calculated < 1.0 {
        bearing := bearingOf(LatLng(lat, lng), recipient);
      } else {
        bearing := bearingOf(sender, recipient);
      }
    }

    /** The marker is rendered only once a position has been computed. */
    predicate RendersMarker()
      reads this
    {
      vehiclePosition.Some?
    }
  }

  function StatusText(progress: real): (r: string)
    ensures r == Label(StageOf(progress))
  {
    if progress >= 1.0 then "Delivered"
    else if progress >= 0.8 then "Out for Delivery"
    else if progress >= 0.5 then "In Transit (Near Destination)"
    else if progress >= 0.2 then "In Transit"
    else "Departed"
  }

  const GreenBadge: string := "text-green-600 bg-green-50 border-green-200"
  const BlueBadge: string := "text-blue-600 bg-blue-50 border-blue-200"
  const OrangeBadge: string := "text-orange-600 bg-orange-50 border-orange-200"
  const PurpleBadge: string := "text-purple-600 bg-purple-50 border-purple-200"

  /** Four colours for five stages: the two early stages share purple. */
  function StatusColor(progress: real): (r: string)
    ensures r == GreenBadge <==> StageOf(progress) == Delivered
    ensures r == BlueBadge <==> StageOf(progress) == OutForDelivery
    ensures r == OrangeBadge <==> StageOf(progress) == NearDestination
    ensures r == PurpleBadge <==> StageOf(progress) == InTransit || StageOf(progress) == Departed
  {
    if progress >= 1.0 then GreenBadge
    else if progress >= 0.8 then BlueBadge
    else if progress >= 0.5 then OrangeBadge
    else PurpleBadge
  }

  /** The vehicle drawn inside the marker and in the popup header (`getVehicleSVG`, `TransportIcon`). */
  datatype VehicleIcon = TruckIcon | ShipIcon | PlaneIcon

  function VehicleIconFor(mode: Mode): (v: VehicleIcon)
    ensures v == TruckIcon <==> mode == Truck
    ensures v == ShipIcon <==> mode == Ship
    ensures v == PlaneIcon <==> mode == Plane
  {
    match mode
    case Truck => TruckIcon
    case Ship => ShipIcon
    case Plane => PlaneIcon
  }

  /**
   * The marker: a green check once delivered, otherwise the vehicle in the mode's colour,
   * rotated by `bearing - 45` degrees and labelled with the rounded percentage.
   */
  datatype Marker =
    | DeliveredMarker
    | VehicleMarker(vehicle: VehicleIcon, color: string, rotation: real, percent: int)

  function MarkerIcon(progress: real, mode: Mode, bearing: real): (m: Marker)
    ensures m.DeliveredMarker? <==> progress >= 1.0
    ensures m.VehicleMarker? ==> m.vehicle == VehicleIconFor(mode)
    ensures m.VehicleMarker? ==> m.color == GetTransportDetails(mode).color && m.rotation == bearing - 45.0
    ensures m.VehicleMarker? ==> m.percent as real - 0.5 <= progress * 100.0 < m.percent as real + 0.5
  {
    if progress >= 1.0 then DeliveredMarker
    else VehicleMarker(VehicleIconFor(mode), GetTransportDetails(mode).color, bearing - 45.0,
                       RoundHalfUp(progress * 100.0))
  }

  /** Before delivery the percentage on the marker lies between 0 and 100. */
  lemma MarkerPercentRange(progress: real, mode: Mode, bearing: real)
    requires 0.0 <= progress < 1.0
    ensures 0 <= MarkerIcon(progress, mode, bearing).percent <= 100
  {
  }
}
