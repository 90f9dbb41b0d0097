/**
 * The tracking page layout: it runs the progress formula on its own timer and hands the one
 * progress value, and the current position, to the route, the details panel and the toasts.
 */
module MapLayout {
  import opened Optional
  import opened Geo
  import opened ProgressEngine
  import opened TrackingRecord
  import DynamicTransportTracker

  /** The inputs the layout passes on to its children. */
  datatype ChildInputs = ChildInputs(
    routeProgress: real,
    routePosition: LatLng,
    panelProgress: real,
    toastProgress: real,
    showsMapControls: bool)

  class Layout {
    const data: TrackingData

    var progress: real
    var currentPosition: Option<LatLng>
    var isPanelOpen: bool

    constructor (data: TrackingData)
      ensures this.data == data
      ensures progress == 0.0 && currentPosition == None && !isPanelOpen
    {
      this.data := data;
      progress := 0.0;
      currentPosition := None;
      isPanelOpen := false;
    }

    /** The timer callback; the record's end points are read without a guard. */
    method CalculateProgress(now: int)
      requires data.dateReceived < data.dateDelivered && HasEndpoints(data)
      modifies this
      ensures progress == Progress(data.dateReceived, data.dateDelivered, now)
      ensures currentPosition == Some(Interpolate(data.sender.value, data.recipient.value, progress))
      ensures isPanelOpen == old(isPanelOpen)
    {
      var totalDuration := data.dateDelivered - data.dateReceived;
      var elapsed := now - data.dateReceived;
      var calculated := elapsed as real / totalDuration as real;
      calculated := Max(0.0, Min(1.0, calculated));
      progress := calculated;
      var s := data.sender.value;
      var r := data.recipient.value;
      var currentLat := s.lat + (r.lat - s.lat) * calculated;
      var currentLng := s.lng + (r.lng - s.lng) * calculated;
      assert LatLng(currentLat, currentLng) == Interpolate(s, r, calculated);
      currentPosition := Some(LatLng(currentLat, currentLng));
    }

    /** The map controls' panel button. */
    method TogglePanel()
      modifies this
      ensures isPanelOpen == !old(isPanelOpen)
      ensures progress == old(progress) && currentPosition == old(currentPosition)
    {
      isPanelOpen := !isPanelOpen;
    }

    /**
     * Every child sees the same progress value; until a position exists the route gets
     * `[0, 0]` and the map controls are not rendered.
     */
    function Children(): (c: ChildInputs)
      reads this
      ensures c.routeProgress == progress && c.panelProgress == progress && c.toastProgress == progress
      ensures c.showsMapControls <==> currentPosition.Some?
      ensures currentPosition.Some? ==> c.routePosition == currentPosition.value
      ensures currentPosition.None? ==> c.routePosition == LatLng(0.0, 0.0)
    {
      ChildInputs(progress, currentPosition.GetOr(LatLng(0.0, 0.0)), progress, progress, currentPosition.Some?)
    }
  }

  /**
   * Fed the same record and clock reading, the layout and the vehicle tracker it renders
   * arrive at the same progress and the same position.
   */
  method LayoutAgreesWithTracker(data: TrackingData, now: int, bearingOf: (LatLng, LatLng) -> real)
    returns (layoutState: (real, Option<LatLng>), trackerState: (real, Option<LatLng>))
    requires data.dateReceived < data.dateDelivered && HasEndpoints(data)
    ensures layoutState == trackerState
    ensures layoutState.0 == Progress(data.dateReceived, data.dateDelivered, now)
  {
    var layout := new Layout(data);
    var tracker := new DynamicTransportTracker.Tracker(data.sender.value, data.recipient.value,
                                                       data.dateReceived, data.dateDelivered);
    layout.CalculateProgress(now);
    tracker.CalculateProgress(now, bearingOf);
    layoutState := (layout.progress, layout.currentPosition);
    trackerState := (tracker.progress, tracker.vehiclePosition);
  }
}
