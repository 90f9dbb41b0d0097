/** The shipment details panel: its status badge and what it hands to the timeline. */
module CollapsiblePanel {
  import opened ShipmentStatus
  import DynamicTransportTracker
  import ProgressTimeline

  datatype StatusIcon = CheckCircleIcon | TruckIcon | PlaneIcon

  datatype StatusInfo = StatusInfo(status: string, color: string, icon: StatusIcon)

  function GetStatusInfo(progress: real): (r: StatusInfo)
    ensures r.status == Label(StageOf(progress))
    ensures r.status == DynamicTransportTracker.StatusText(progress)
    ensures r.color == "bg-green-500" <==> StageOf(progress) == Delivered
    ensures r.color == "bg-blue-500" <==> StageOf(progress) == OutForDelivery
    ensures r.color == "bg-orange-500" <==> StageOf(progress) == NearDestination
    ensures r.color == "bg-purple-500" <==> StageOf(progress) == InTransit || StageOf(progress) == Departed
    ensures r.icon == CheckCircleIcon <==> StageOf(progress) == Delivered
    ensures r.icon == TruckIcon <==> StageOf(progress) == OutForDelivery
  {
    if progress >= 1.0 then StatusInfo("Delivered", "bg-green-500", CheckCircleIcon)
    else if progress >= 0.8 then StatusInfo("Out for Delivery", "bg-blue-500", TruckIcon)
    else if progress >= 0.5 then StatusInfo("In Transit (Near Destination)", "bg-orange-500", PlaneIcon)
    else if progress >= 0.2 then StatusInfo("In Transit", "bg-purple-500", PlaneIcon)
    else StatusInfo("Departed", "bg-purple-500", PlaneIcon)
  }

  /** The props the panel gives the timeline. */
  datatype TimelineProps = TimelineProps(
    progress: real,
    shipmentStart: int,
    estimatedArrival: int,
    packageName: string,
    currentStatus: string)

  function TimelinePropsFor(progress: real, dateReceived: int, dateDelivered: int, packageName: string): (p: TimelineProps)
    ensures p.currentStatus == GetStatusInfo(progress).status
    ensures p.currentStatus == DynamicTransportTracker.StatusText(progress)
    ensures p.progress == progress && p.shipmentStart == dateReceived && p.estimatedArrival == dateDelivered
  {
    TimelineProps(progress, dateReceived, dateDelivered, packageName, GetStatusInfo(progress).status)
  }

  /**
   * The badge's status and the timeline's event statuses come from different thresholds:
   * at 0.2 the badge already says "In Transit" while the departure event is still current.
   */
  lemma BadgeAheadOfTimeline(start: int, end: int)
    ensures GetStatusInfo(0.2).status == "In Transit"
    ensures ProgressTimeline.TimelineEvents(0.2, start, end)[1].status == ProgressTimeline.Current
  {
  }
}
