/**
 * Transport classification from route distance, the static table of per-mode details,
 * travel-time estimates and the display text of a distance. Distances are kilometres; the
 * haversine distance itself is computed elsewhere and arrives here as a number.
 */
module TransportUtils {
  import opened Decimal

  datatype Mode = Truck | Plane | Ship

  /** Below this many kilometres a shipment goes by road. */
  const TruckLimitKm: real := 500.0
  /** The medium/long boundary; both of its sides choose the plane. */
  const PlaneLimitKm: real := 3000.0

  function GetTransportMode(distance: real): (m: Mode)
    ensures m == Truck <==> distance < TruckLimitKm
    ensures m == Plane <==> distance >= TruckLimitKm
    ensures m != Ship
  {
    if distance < TruckLimitKm then Truck
    else if distance < PlaneLimitKm then Plane
    else Plane
  }

  /** A shorter route never needs a faster vehicle than a longer one does. */
  lemma TransportModeMonotone(d1: real, d2: real)
    requires d1 <= d2 && GetTransportMode(d2) == Truck
    ensures GetTransportMode(d1) == Truck
  {
  }

  datatype TransportDetails = TransportDetails(modeLabel: string, color: string, speedKmH: nat, description: string)

  const Green: string := "#10B981"
  const Purple: string := "#8B5CF6"
  const Blue: string := "#3B82F6"

  function GetTransportDetails(mode: Mode): (d: TransportDetails)
    ensures d.speedKmH > 0
    ensures mode == Truck ==> d.speedKmH == 80 && d.color == Green
    ensures mode == Plane ==> d.speedKmH == 800 && d.color == Purple
    ensures mode == Ship ==> d.speedKmH == 40 && d.color == Blue
  {
    match mode
    case Truck => TransportDetails("Ground Transport", Green, 80, "Delivered by truck")
    case Plane => TransportDetails("Air Transport", Purple, 800, "Delivered by air freight")
    case Ship => TransportDetails("Sea Transport", Blue, 40, "Delivered by sea freight")
  }

  /** Each mode has its own colour, so the colour identifies the mode. */
  lemma DetailsColorInjective(m1: Mode, m2: Mode)
    requires GetTransportDetails(m1).color == GetTransportDetails(m2).color
    ensures m1 == m2
  {
  }

  datatype Estimate = Estimate(hours: real, days: int)

  function EstimateDeliveryTime(distance: real, mode: Mode): (e: Estimate)
    ensures e.hours * GetTransportDetails(mode).speedKmH as real == distance
    ensures e.hours <= e.days as real * 24.0 < e.hours + 24.0
  {
    var hours := distance / GetTransportDetails(mode).speedKmH as real;
    Estimate(hours, Ceil(hours / 24.0))
  }

  /** No distance means no travel time, in hours and in days. */
  lemma EstimateOfZero(mode: Mode)
    ensures EstimateDeliveryTime(0.0, mode) == Estimate(0.0, 0)
  {
  }

  /** For one non-negative distance the plane is quickest and the ship slowest. */
  lemma EstimateOrdering(distance: real)
    requires distance >= 0.0
    ensures EstimateDeliveryTime(distance, Plane).hours <= EstimateDeliveryTime(distance, Truck).hours
    ensures EstimateDeliveryTime(distance, Truck).hours <= EstimateDeliveryTime(distance, Ship).hours
  {
    assert EstimateDeliveryTime(distance, Plane).hours == distance / 800.0;
    assert EstimateDeliveryTime(distance, Truck).hours == distance / 80.0;
    assert EstimateDeliveryTime(distance, Ship).hours == distance / 40.0;
  }

  /** The unit and rounded amount a distance is displayed with. */
  datatype DistanceReading = Meters(meters: int) | TenthsOfKm(tenths: nat) | WholeKm(km: int)

  function ReadDistance(distance: real): (r: DistanceReading)
    ensures r.Meters? <==> distance < 1.0
    ensures r.TenthsOfKm? <==> 1.0 <= distance < 100.0
    ensures r.WholeKm? <==> distance >= 100.0
    ensures r.Meters? ==> r.meters as real - 0.5 <= distance * 1000.0 < r.meters as real + 0.5
    ensures r.TenthsOfKm? ==> r.tenths as real - 0.5 <= distance * 10.0 < r.tenths as real + 0.5
    ensures r.WholeKm? ==> r.km as real - 0.5 <= distance < r.km as real + 0.5
  {
    if distance < 1.0 then Meters(RoundHalfUp(distance * 1000.0))
    else if distance < 100.0 then TenthsOfKm(RoundHalfUp(distance * 10.0))
    else WholeKm(RoundHalfUp(distance))
  }

  /** `toFixed(1)` of a non-negative number of tenths. */
  function Fixed1(tenths: nat): string {
    NatToString(tenths / 10) + "." + [DigitChar(tenths % 10)]
  }

  function Render(r: DistanceReading): string {
    match r
    case Meters(m) => IntToString(m) + " meters"
    case TenthsOfKm(t) => Fixed1(t) + " km"
    case WholeKm(k) => IntToString(k) + " km"
  }

  predicate EndsWith(s: string, suffix: string) {
    |suffix| <= |s| && s[|s| - |suffix|..] == suffix
  }

  /** The metre unit appears exactly for distances below one kilometre. */
  function FormatDistance(distance: real): (s: string)
    ensures EndsWith(s, " meters") <==> distance < 1.0
    ensures EndsWith(s, " km") <==> distance >= 1.0
  {
    var s := Render(ReadDistance(distance));
    assert EndsWith(s, " meters") ==> s[|s| - 1] == 's';
    assert EndsWith(s, " km") ==> s[|s| - 1] == 'm';
    s
  }
}
