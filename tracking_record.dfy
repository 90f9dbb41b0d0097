/** The tracking record the map page receives, reduced to the fields the map logic reads. */
module TrackingRecord {
  import opened Optional
  import opened Geo

  /**
   * Sender and recipient are the coordinates stored with the record; either can be missing
   * on a record whose geocoding never succeeded. Dates are milliseconds since the epoch.
   */
  datatype TrackingData = TrackingData(
    trackingID: string,
    packageName: string,
    sender: Option<LatLng>,
    recipient: Option<LatLng>,
    dateReceived: int,
    dateDelivered: int)

  predicate HasEndpoints(data: TrackingData) {
    data.sender.Some? && data.recipient.Some?
  }
}
