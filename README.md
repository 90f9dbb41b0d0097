# packagetrx tracking-map logic in Dafny

packagetrx is a parcel-tracking site. A record holds a sender, a recipient, a receipt date and an
estimated delivery date. The tracking page shows the shipment on a map. A vehicle marker moves
along the route as time passes. Panels, a timeline and toasts report the stage reached. A save
hook on the record collection assigns the tracking ID and geocodes the two addresses.

This project models that logic and proves its properties:

- transport classification, the per-mode details table, travel-time estimates and distance text
  (`TransportUtils`);
- the progress formula that four components each compute (`ProgressEngine`);
- that formula as each of those components writes it into its state: a `class` per component
  whose methods update the fields the source updates (`DynamicTransportTracker`, `PlaneTracker`,
  `MapLayout`, `MapContainer`);
- the five-stage status shown in the popups and the panel (`ShipmentStatus`, `CollapsiblePanel`);
- the delivery timeline (`ProgressTimeline`);
- the milestone toasts (`NotificationToasts`);
- the route lines: road route or straight line, the progress split, and the trail
  (`SmartRoutePolyline`, `RoutePolyline`, `AnimatedRouteTrail`);
- day/night tile selection (`DayNightMapTheme`);
- the record save hook (`TrackingInfo`).

Coordinates and progress are `real`, an exact stand-in for JavaScript doubles. Timestamps are
`int` milliseconds. JavaScript behaviour the code relies on is written out:

- `Math.round`, `Math.ceil` and the truncation of a `Date`;
- `slice` with negative bounds, and `substring` with its clamping and swapping;
- truthiness: an empty string, a missing value and `0` are all false;
- `||` defaults, such as a toast duration of `0` falling back to 4000.

Three things are parameters rather than bodies:

- The haversine distance is a `real`.
- The great-circle bearing is a function `(LatLng, LatLng) -> real`.
- Clock readings, the geocoder, the OSRM reply, `slugify` and the random number's base-36 text
  are passed in.

## Model

| member | source | states |
|---|---|---|
| TransportUtils.GetTransportMode | utils/transportUtils.ts:39-52 | truck exactly when the distance is below 500 km, plane exactly when it is 500 or more, never ship |
| TransportUtils.TransportModeMonotone | utils/transportUtils.ts:39-52 | if a longer distance goes by truck, every shorter one does too |
| TransportUtils.GetTransportDetails | utils/transportUtils.ts:70-93 | every mode has a positive speed; truck 80 km/h #10B981, plane 800 km/h #8B5CF6, ship 40 km/h #3B82F6 |
| TransportUtils.DetailsColorInjective | utils/transportUtils.ts:70-93 | no two modes share a colour |
| TransportUtils.EstimateDeliveryTime | utils/transportUtils.ts:98-107 | hours times the mode's speed is the distance; days is the least integer with days*24 not below hours |
| TransportUtils.EstimateOfZero | utils/transportUtils.ts:103-104 | 0 km takes 0 hours and 0 days in every mode |
| TransportUtils.EstimateOrdering | utils/transportUtils.ts:70-107 | for a non-negative distance, plane hours <= truck hours <= ship hours |
| TransportUtils.ReadDistance | utils/transportUtils.ts:57-65 | metres exactly below 1 km, tenths of a km on [1, 100), whole km from 100; each amount is within half a unit of the value |
| TransportUtils.FormatDistance | utils/transportUtils.ts:57-65 | the text ends in " meters" exactly below 1 km and in " km" exactly from 1 km |
| Decimal.RoundHalfUp | utils/transportUtils.ts:59 | `Math.round`: the result is within half of x, with halves rounded up |
| Decimal.Ceil | utils/transportUtils.ts:104 | `Math.ceil`: the least integer not below x |
| Decimal.TruncTowardZero | components/map/ProgressTimeline.tsx:65-74 | the whole milliseconds a `Date` keeps: the integer part, truncated toward zero |
| Decimal.TruncMonotone | components/map/ProgressTimeline.tsx:65-74 | truncation preserves order |
| Decimal.NatToString | src/collections/TrackingInfo.ts:57-58 | `String(n)`: a non-empty digit string, one digit exactly below 10, with a leading zero only for 0 itself |
| Decimal.ParseNatToString | src/collections/TrackingInfo.ts:58 | reading the numeral of n back gives n |
| Decimal.IntToString | src/collections/TrackingInfo.ts:57 | `String(i)`: a leading minus exactly for negatives, followed by canonical digits (a zero first only for 0) that read back as the magnitude |
| Geo.Interpolate | components/map/DynamicTransportTracker.tsx:81-82 | the sender at 0, the recipient at 1, and between the two end points coordinate by coordinate for t in [0, 1] |
| Geo.InterpolateReachesEndOnlyAtOne | components/map/DynamicTransportTracker.tsx:81-82 | below 1 (or above it) the interpolated point is the recipient only if sender and recipient coincide |
| ProgressEngine.Clamp01 | components/map/DynamicTransportTracker.tsx:76 | the result lies in [0, 1]; values inside are kept, values below give 0, values above give 1 |
| ProgressEngine.Progress | components/map/DynamicTransportTracker.tsx:66-76 | for end > start: in [0, 1]; 0 up to start; 1 from end on; strictly inside it is the elapsed fraction |
| ProgressEngine.ProgressMonotone | components/map/DynamicTransportTracker.tsx:66-76 | progress never goes back as the clock goes forward |
| ProgressEngine.BearingInputFor | components/map/DynamicTransportTracker.tsx:87-93 | the heading is taken toward the recipient: from the current position below 1, from the sender once at 1 |
| ProgressEngine.BearingInputNonDegenerate | components/map/DynamicTransportTracker.tsx:81-93 | with distinct end points the heading is never asked between a point and itself |
| ProgressEngine.Evaluate | components/map/DynamicTransportTracker.tsx:65-94 | one run of the formula gives progress, the position at that progress and the heading pair for it |
| ProgressEngine.EvaluateEndpoints | components/map/DynamicTransportTracker.tsx:65-94 | at or before the start the position is the sender; from the end on it is the recipient, headed along the whole route |
| DynamicTransportTracker.Tracker.constructor | components/map/DynamicTransportTracker.tsx:34-38 | starts with no position, progress 0, bearing 0, distance 0 and mode truck |
| DynamicTransportTracker.Tracker.UpdateDistance | components/map/DynamicTransportTracker.tsx:41-46 | stores the distance and its transport mode; nothing else changes |
| DynamicTransportTracker.Tracker.CalculateProgress | components/map/DynamicTransportTracker.tsx:64-94 | stores the progress, the interpolated position and the bearing of the chosen pair; distance and mode are unchanged |
| ShipmentStatus.StageOf | components/map/DynamicTransportTracker.tsx:175-181 | each stage exactly on its progress range: delivered from 1, out for delivery on [0.8, 1), near destination on [0.5, 0.8), in transit on [0.2, 0.5), departed below 0.2 |
| ShipmentStatus.StageMonotone | components/map/DynamicTransportTracker.tsx:175-181 | a larger progress never gives an earlier stage |
| ShipmentStatus.Label | components/map/DynamicTransportTracker.tsx:176-180 | each of the five texts is shown exactly for its own stage |
| ShipmentStatus.LabelInjective | components/map/CollapsiblePanel.tsx:64-70 | no two stages share a label, so the shown text determines the stage |
| DynamicTransportTracker.StatusText | components/map/DynamicTransportTracker.tsx:175-181 | the label of the stage the progress falls in |
| DynamicTransportTracker.StatusColor | components/map/DynamicTransportTracker.tsx:183-188 | green iff delivered, blue iff out for delivery, orange iff near destination, purple for in transit and departed |
| DynamicTransportTracker.VehicleIconFor | components/map/DynamicTransportTracker.tsx:132-152 | truck, ship and plane artwork each for exactly its own mode |
| DynamicTransportTracker.MarkerIcon | components/map/DynamicTransportTracker.tsx:107-172 | the check mark iff progress >= 1; otherwise the mode's vehicle in the mode's colour, rotated by bearing - 45, with the percentage rounded |
| DynamicTransportTracker.MarkerPercentRange | components/map/DynamicTransportTracker.tsx:165 | before delivery the displayed percentage lies in 0..100 |
| PlaneTracker.Tracker.constructor | components/map/PlaneTracker.tsx:33-35 | starts with no position, progress 0 and bearing 0 |
| PlaneTracker.Tracker.CalculateProgress | components/map/PlaneTracker.tsx:54-85 | stores the progress, the interpolated plane position and the bearing of the chosen pair |
| PlaneTracker.StatusText | components/map/PlaneTracker.tsx:140-146 | equals the vehicle tracker's status text for every progress |
| PlaneTracker.StatusColor | components/map/PlaneTracker.tsx:148-153 | equals the vehicle tracker's status colour for every progress |
| PlaneTracker.MarkerIcon | components/map/PlaneTracker.tsx:95-138 | the check mark iff progress >= 1; otherwise the plane rotated by bearing - 45 with the rounded percentage |
| PlaneTracker.MarkerAgreesOnDelivery | components/map/PlaneTracker.tsx:95-138 | the plane marker and the vehicle marker agree on when the check mark appears |
| MapLayout.Layout.constructor | components/map/MapLayout.tsx:58-60 | starts with progress 0, no position and the panel closed |
| MapLayout.Layout.CalculateProgress | components/map/MapLayout.tsx:63-97 | stores the windowed progress and the interpolated current position |
| MapLayout.Layout.TogglePanel | components/map/MapLayout.tsx:140 | flips the panel flag and nothing else |
| MapLayout.Layout.Children | components/map/MapLayout.tsx:104-166 | the route, panel and toasts get the same progress; map controls only once a position exists; the route gets [0, 0] before that |
| MapLayout.LayoutAgreesWithTracker | components/map/MapLayout.tsx:64-89 | for the same record and clock the layout and the vehicle tracker store the same progress and position |
| MapContainer.Padding | components/map/MapContainer.tsx:80-84 | 0.3 times the larger coordinate span: at least 0.3 of each span and equal to 0.3 of one of them; 0 exactly when the end points coincide |
| MapContainer.PaddedBounds | components/map/MapContainer.tsx:86-89 | the south-west corner is below and the north-east corner above both end points; equal end points collapse the box |
| MapContainer.CentreInsideBounds | components/map/MapContainer.tsx:73-89 | for progress in [0, 1] the centre lies inside the padded bounds |
| MapContainer.Container.constructor | components/map/MapContainer.tsx:52-53 | starts with no centre and no bounds |
| MapContainer.Container.ComputeView | components/map/MapContainer.tsx:55-92 | with both end points the centre is the interpolated position and the bounds the padded box; without them nothing changes |
| MapContainer.ViewAfterEffect | components/map/MapContainer.tsx:55-100 | after one run of the effect on a complete record the spinner is gone and the centre is inside the bounds |
| CollapsiblePanel.GetStatusInfo | components/map/CollapsiblePanel.tsx:64-70 | the status is the stage label and equals the tracker's text; the colour and icon follow the stage both ways |
| CollapsiblePanel.TimelinePropsFor | components/map/CollapsiblePanel.tsx:148-154 | the timeline receives the panel's own status, progress and dates |
| CollapsiblePanel.BadgeAheadOfTimeline | components/map/CollapsiblePanel.tsx:64-70 | at progress 0.2 the badge already says "In Transit" while the departure event is still current |
| ProgressTimeline.TimelineEvents | components/map/ProgressTimeline.tsx:32-90 | five events in fixed order, stamped at the start, the three quarter points and the end |
| ProgressTimeline.QuartersSpanWindow | components/map/ProgressTimeline.tsx:38-39 | four quarters make up the whole window |
| ProgressTimeline.TimestampsOrdered | components/map/ProgressTimeline.tsx:38-82 | for a window that does not run backwards the timestamps never decrease |
| ProgressTimeline.CompletedPrefix | components/map/ProgressTimeline.tsx:48-84 | if an event is completed so is the one before it |
| ProgressTimeline.AtMostOneCurrent | components/map/ProgressTimeline.tsx:57-84 | no two events are current at once |
| ProgressTimeline.TimelineAtEnds | components/map/ProgressTimeline.tsx:48-84 | at 0 only pick-up is completed and the rest upcoming; at 1 all five are completed |
| ProgressTimeline.FormatTimestamp | components/map/ProgressTimeline.tsx:94-113 | the "Est. " prefix appears exactly for an estimate still in the future |
| ProgressTimeline.EstimatePrefixIff | components/map/ProgressTimeline.tsx:196 | an event's date gets the "Est. " prefix exactly when the event is upcoming and its date lies after now |
| ProgressTimeline.NoEstimateOnceReached | components/map/ProgressTimeline.tsx:94-113 | a completed or current event never shows "Est." |
| ProgressTimeline.StatusBadge | components/map/ProgressTimeline.tsx:115-124 | each status has its own badge text |
| ProgressTimeline.ProgressLineHeight | components/map/ProgressTimeline.tsx:140 | never above 100, and the plain percentage up to progress 1 |
| NotificationToasts.ProgressMilestone | components/map/NotificationToasts.tsx:27-73 | the highest of 1, 0.8, 0.5, 0.25 crossed upward from last to new, or none exactly when none is crossed |
| NotificationToasts.NoMilestoneWithoutIncrease | components/map/NotificationToasts.tsx:27-73 | progress that stays or goes back never produces a toast |
| NotificationToasts.JumpReportsOnlyHighest | components/map/NotificationToasts.tsx:27-73 | a jump from 0 to 0.9 crosses three thresholds but reports only "out for delivery" |
| NotificationToasts.GetProgressToast | components/map/NotificationToasts.tsx:27-73 | a toast exactly when a milestone is crossed, the one for that milestone |
| NotificationToasts.DismissDelay | components/map/NotificationToasts.tsx:80-82 | the toast's duration, or 4000 when it is missing or 0 |
| NotificationToasts.Durations | components/map/NotificationToasts.tsx:35-109 | delivered 6000, out for delivery 5000, halfway and departed 4000, welcome 3000 |
| NotificationToasts.RemoveId | components/map/NotificationToasts.tsx:86-88 | no kept toast has the id, and every kept toast was in the list |
| NotificationToasts.RemoveIdConcat | components/map/NotificationToasts.tsx:86-88 | removal distributes over concatenation, so the other toasts keep their order |
| NotificationToasts.RemoveAbsentId | components/map/NotificationToasts.tsx:86-88 | removing an id nobody carries leaves the list unchanged |
| NotificationToasts.MilestonesFiredSnoc | components/map/NotificationToasts.tsx:91-99 | one more progress value adds exactly what that change alone fires |
| NotificationToasts.MilestonesFiredIncreasing | components/map/NotificationToasts.tsx:91-99 | over non-decreasing progress the fired thresholds rise strictly and lie above the start |
| NotificationToasts.RisingAfterHead | components/map/NotificationToasts.tsx:91-99 | a milestone at or below a value, followed by a rising run above it, is still rising |
| NotificationToasts.MilestonesFiredAtMostOnce | components/map/NotificationToasts.tsx:91-99 | over non-decreasing progress from 0 no milestone toast is added twice |
| NotificationToasts.RegressionRefires | components/map/NotificationToasts.tsx:91-99 | going 0.3, 0.1, 0.3 fires the departure toast twice |
| NotificationToasts.ToastCenter.constructor | components/map/NotificationToasts.tsx:23-24 | no toasts, last progress 0 |
| NotificationToasts.ToastCenter.AddToast | components/map/NotificationToasts.tsx:76-83 | appends the toast, leaves the others, and returns its dismissal delay |
| NotificationToasts.ToastCenter.RemoveToast | components/map/NotificationToasts.tsx:86-88 | the list becomes the filtered list |
| NotificationToasts.ToastCenter.ObserveProgress | components/map/NotificationToasts.tsx:91-99 | last progress becomes the new value; a toast is appended exactly when the value changed and a milestone was crossed; the fired milestones keep matching the fold over all values seen |
| NotificationToasts.ToastCenter.ShowWelcome | components/map/NotificationToasts.tsx:102-113 | appends the welcome toast with delay 3000 |
| SmartRoutePolyline.FromGeoJson | components/map/SmartRoutePolyline.tsx:55-57 | same length; each [lon, lat] becomes a point with lat and lng swapped into place |
| SmartRoutePolyline.GeoJsonRoundTrip | components/map/SmartRoutePolyline.tsx:55-57 | swapping back recovers the GeoJSON positions |
| SmartRoutePolyline.LatLngRoundTrip | components/map/SmartRoutePolyline.tsx:55-57 | swapping there and back recovers the points |
| SmartRoutePolyline.RouteFor | components/map/SmartRoutePolyline.tsx:40-77 | the straight line unless a road route was asked for and the reply is usable; then the reply's geometry |
| SmartRoutePolyline.StraightLineFallback | components/map/SmartRoutePolyline.tsx:59-70 | a failed request or a non-Ok code gives exactly [sender, recipient] |
| SmartRoutePolyline.EmptyGeometryDrawsNothing | components/map/SmartRoutePolyline.tsx:53-58 | an Ok reply with an empty geometry leaves an empty route |
| SmartRoutePolyline.SmartRoute.constructor | components/map/SmartRoutePolyline.tsx:24-27 | no route, no road routing, loading, mode truck |
| SmartRoutePolyline.SmartRoute.SelectRouting | components/map/SmartRoutePolyline.tsx:30-37 | road routing exactly below 500 km; the mode is stored |
| SmartRoutePolyline.SmartRoute.FetchRoute | components/map/SmartRoutePolyline.tsx:40-77 | the route becomes the chosen route and loading ends |
| SmartRoutePolyline.SliceIndex | components/map/SmartRoutePolyline.tsx:86-89 | where a `slice` bound lands: negative bounds count from the end, and all are clamped |
| SmartRoutePolyline.JsSlice | components/map/SmartRoutePolyline.tsx:86-89 | in-range bounds give the subsequence; bounds that land out of order give nothing |
| SmartRoutePolyline.SegmentIndexInRange | components/map/SmartRoutePolyline.tsx:83-84 | for progress in [0, 1] the index lies in [0, n-1], and is n-1 at progress 1 |
| SmartRoutePolyline.SegmentIndex | components/map/SmartRoutePolyline.tsx:84 | `Math.floor`: the greatest integer not above progress·(n−1) |
| SmartRoutePolyline.RouteSegments | components/map/SmartRoutePolyline.tsx:80-92 | an empty route gives two empty parts; otherwise completed ends and remaining starts at the current position, and dropping that point from both rejoins the route, for every progress |
| SmartRoutePolyline.CurrentRouteSegment | components/map/SmartRoutePolyline.tsx:80-92 | the `slice`, `push` and spread steps produce exactly the split `RouteSegments` defines |
| SmartRoutePolyline.RouteSegmentsShape | components/map/SmartRoutePolyline.tsx:83-89 | completed is the route up to the index plus the current point, remaining is the current point plus the rest; lengths idx+2 and n-idx; dropping the shared point rejoins the route |
| SmartRoutePolyline.RouteColor | components/map/SmartRoutePolyline.tsx:97-108 | the same colour as the details table for every mode |
| SmartRoutePolyline.LayersFor | components/map/SmartRoutePolyline.tsx:110-167 | nothing while loading or without a route; completed line and dots iff completed has two points; dashed line iff remaining has two |
| SmartRoutePolyline.LayersAtArrival | components/map/SmartRoutePolyline.tsx:80-153 | at progress 1 the whole route is completed and the dashed line is not drawn |
| AnimatedRouteTrail.TrailProgressBounds | components/map/AnimatedRouteTrail.tsx:30-33 | each trail point's progress lies in [0, progress) |
| AnimatedRouteTrail.TrailProgressValue | components/map/AnimatedRouteTrail.tsx:30-33 | the clamp never applies: point i sits at progress*(9-i)/10 |
| AnimatedRouteTrail.TrailProgressDecreasing | components/map/AnimatedRouteTrail.tsx:30-33 | the trail progress strictly decreases along the trail |
| AnimatedRouteTrail.LastTrailPointAtSender | components/map/AnimatedRouteTrail.tsx:33-36 | the tenth point has progress 0 |
| AnimatedRouteTrail.GenerateTrailPoints | components/map/AnimatedRouteTrail.tsx:27-45 | the loop and the unshift produce the specified trail |
| AnimatedRouteTrail.TrailPointsShape | components/map/AnimatedRouteTrail.tsx:29-42 | no points when progress <= 0; otherwise 11, the current position first and the sender last |
| AnimatedRouteTrail.TrailPointsOnRoute | components/map/AnimatedRouteTrail.tsx:32-36 | for progress in (0, 1] every generated point lies between the end points |
| AnimatedRouteTrail.SegmentWeight | components/map/AnimatedRouteTrail.tsx:98 | at least 1, and 6 - index up to index 5 |
| AnimatedRouteTrail.SegmentOpacity | components/map/AnimatedRouteTrail.tsx:97 | in [0.1, 1] for non-negative index |
| AnimatedRouteTrail.SegmentStyleNonIncreasing | components/map/AnimatedRouteTrail.tsx:97-98 | further back is never thicker nor more opaque |
| AnimatedRouteTrail.TrailSegments | components/map/AnimatedRouteTrail.tsx:93-98 | no segment for one point or none; otherwise one per point after the first, joining it to its predecessor |
| AnimatedRouteTrail.TrailHasTenSegments | components/map/AnimatedRouteTrail.tsx:93-98 | a trail for positive progress has ten segments, from the current position back to the sender |
| AnimatedRouteTrail.RouteLinesFor | components/map/AnimatedRouteTrail.tsx:51-57 | the completed line runs from the sender and the remaining one to the recipient; they meet at the current position |
| RoutePolyline.RouteViewFor | components/map/RoutePolyline.tsx:14-88 | the split view iff progress is shown and positive; it meets at the interpolated point; otherwise the full route |
| RoutePolyline.DefaultPropsDrawFullRoute | components/map/RoutePolyline.tsx:19-28 | without the optional props the full route is drawn |
| RoutePolyline.SplitPointOnRoute | components/map/RoutePolyline.tsx:30-32 | for progress in (0, 1] the split point lies between the end points |
| RoutePolyline.SplitPointExtrapolates | components/map/RoutePolyline.tsx:30-32 | beyond 1 the split point overshoots the recipient |
| DayNightMapTheme.ThemeState.constructor | components/map/DayNightMapTheme.tsx:12-13 | starts as daytime under the auto theme |
| DayNightMapTheme.ThemeState.CalculateDayNight | components/map/DayNightMapTheme.tsx:17-34 | daytime exactly for hours in [6, 18), whether or not coordinates are given |
| DayNightMapTheme.ThemeState.SetTheme | components/map/DayNightMapTheme.tsx:67-93 | each button sets its own theme |
| DayNightMapTheme.ThemeOverridesClock | components/map/DayNightMapTheme.tsx:44-52 | under the day or night theme the hour makes no difference |
| DayNightMapTheme.TileUrl | components/map/DayNightMapTheme.tsx:44-52 | OpenStreetMap tiles exactly under day, or under auto by day; dark tiles otherwise |
| DayNightMapTheme.Attribution | components/map/DayNightMapTheme.tsx:54-60 | starts with the OpenStreetMap credit, is that credit alone exactly for the day tiles, and appends the CARTO credit otherwise |
| DayNightMapTheme.Credits | components/map/DayNightMapTheme.tsx:54-60 | the attribution text credits OpenStreetMap first, and CARTO exactly for dark tiles |
| DayNightMapTheme.BrightnessClass | components/map/DayNightMapTheme.tsx:109-113 | its own condition dims exactly the dark tiles |
| DayNightMapTheme.ThemeCaption | components/map/DayNightMapTheme.tsx:96 | "Day" or "Night" by the clock under auto, otherwise the theme's name |
| DayNightMapTheme.InitialTiles | components/map/DayNightMapTheme.tsx:12-13 | on mount: day tiles, no CARTO credit, full brightness, caption "Day" |
| TrackingInfo.JsSubstring | src/collections/TrackingInfo.ts:60-65 | `substring`: in-range bounds give the slice in either order |
| TrackingInfo.ToUpper | src/collections/TrackingInfo.ts:65 | same length, no lower-case letter left |
| TrackingInfo.ToUpperIdentity | src/collections/TrackingInfo.ts:65 | text without lower-case letters is unchanged |
| TrackingInfo.PadStart | src/collections/TrackingInfo.ts:58 | the text right-aligned to the width with the fill in front |
| TrackingInfo.Month2 | src/collections/TrackingInfo.ts:58 | for months 1..12: exactly two digits that read back as the month |
| TrackingInfo.SlugInput | src/collections/TrackingInfo.ts:60 | "package" for a missing or empty name; otherwise the whole name up to 10 characters, and exactly its first 10 characters for a longer one |
| TrackingInfo.UniqueSuffix | src/collections/TrackingInfo.ts:65 | at most 6 characters, none lower case; 6 when the base-36 text is long enough |
| TrackingInfo.GeneratedTrackingId | src/collections/TrackingInfo.ts:66 | the ID template: "TRX-", then in order the year text, the month text, a dash, the slug, and a dash before the suffix at the end, with the length of these parts |
| TrackingInfo.GeneratedTrackingIdDate | src/collections/TrackingInfo.ts:56-66 | for a calendar month the ID carries the canonical numeral of the year and then two digits reading back as getMonth() + 1 |
| TrackingInfo.GeneratedIdNotUpperCase | src/collections/TrackingInfo.ts:60-66 | a lower-case letter in the slug makes the ID differ from its upper case |
| TrackingInfo.WriteCoords | src/collections/TrackingInfo.ts:84-90 | both coordinates overwritten, the address kept |
| TrackingInfo.ShouldGeocode | src/collections/TrackingInfo.ts:74-79 | due only for a truthy address; always on create; on update exactly when the address changed or a coordinate is missing or zero |
| TrackingInfo.Geocoded | src/collections/TrackingInfo.ts:70-94 | unchanged unless geocoding is due and the geocoder answers; then the coordinates are written back |
| TrackingInfo.GeocodedKeepsAddress | src/collections/TrackingInfo.ts:74-90 | the address never changes, and a missing block is never created (that branch is unreachable) |
| TrackingInfo.SecondSaveSkipsGeocode | src/collections/TrackingInfo.ts:74-79 | saving again with non-zero coordinates and nothing changed does not geocode |
| TrackingInfo.EquatorAlwaysRegeocoded | src/collections/TrackingInfo.ts:78 | a stored latitude of 0 counts as missing, so it is geocoded on every save |
| TrackingInfo.Lookups | src/collections/TrackingInfo.ts:74-83 | one lookup, of the non-empty address, exactly when geocoding is due |
| TrackingInfo.TrackingDoc.constructor | src/collections/TrackingInfo.ts:53 | the record as received |
| TrackingInfo.GeocodeField | src/collections/TrackingInfo.ts:70-94 | updates only its own block as specified and reports the lookup it makes |
| TrackingInfo.BeforeChange | src/collections/TrackingInfo.ts:53-100 | an ID is generated only on create without one; sender then recipient are geocoded; the same record is returned |

## Left out

- Haversine distance and great-circle bearing (utils/transportUtils.ts:7-32 and the two trackers' `calculateBearing`): transcendental floating-point code, passed in as a number and a function with no properties assumed.
- Progress: a shipment window with end <= start is excluded by a precondition, and the model gives it no meaning. The record's two dates are not checked to be in order, so both cases can occur. When end == start the source divides by zero: the clamp turns the result into 0 or 1, or NaN at the start instant. When end < start the source divides by a negative duration and gets a defined value that runs backwards: it is 1 up to the end date and falls to 0 at the start date. With start 10 and end 5, for example, progress is 1 at time 0, 0.6 at time 7 and 0 from time 10 on.
- Floating point: all arithmetic is exact. For example, that the last trail point is exactly the sender holds in exact arithmetic only.
- Timers and React: the one-minute and hourly intervals, the toast auto-dismiss and the welcome delay, effect scheduling, and all JSX and styling. Dismissal delays are returned, not scheduled.
- Network and storage: the OSRM request, the Nominatim geocoder, and the database lookups and authentication around records. Their outcomes are parameters.
- src/lib/checkExistingId.ts:126 upper-cases the ID it looks up. Generated IDs keep the lower-case slug from src/collections/TrackingInfo.ts:60-66, so such a lookup cannot find a generated ID. `TrackingInfo.GeneratedIdNotUpperCase` shows that the two differ; the lookup itself is not part of this model.
- TrackingInfo.BeforeChange: the calendar year and month of the receipt date (or of today) are passed in; no calendar is modelled.
- TrackingInfo.ToUpper: upper-cases ASCII letters only. That is exact for `toString(36)` output, the only text it is applied to.
- TrackingInfo.ShouldGeocode: truthiness ignores NaN coordinates.
- TrackingInfo.SlugInput / TrackingInfo.JsSubstring: a Dafny character stands for one UTF-16 code unit. The source's `substring(0, 10)` counts code units, so a name with characters outside the Basic Multilingual Plane (emoji, for example) is cut at a different place than in the model.
- TrackingRecord / MapContainer.Container.ComputeView: a present sender or recipient block always carries both coordinates. The source's guard tests only that the two blocks exist, and a block with null or undefined coordinates would be computed with 0 or NaN. The tracking page renders the map only when all four coordinates are truthy (src/app/(frontend)/[id]/page.tsx:74-75), so no reachable behaviour is lost.
- components/map/OfflineMapCache.tsx is not part of this model. It depends on the browser cache and on Web Mercator trigonometry.
- Presentation-only components and the record's field configuration are not part of this model. They hold no logic beyond markup and declarations.
- NotificationToasts: a change fires only the highest milestone crossed, which is what the code does. A jump over several thresholds therefore skips the lower toasts (`JumpReportsOnlyHighest`).
- NotificationToasts.ToastCenter: toast ids are the given prefix plus a caller-supplied stamp that stands in for `Date.now()`. Two toasts with the same stamp are therefore not told apart.
