/**
 * The five shipment stages that the tracker popups and the details panel derive from
 * progress, compared with 1, 0.8, 0.5 and 0.2 in descending order.
 */
module ShipmentStatus {

  datatype Stage = Departed | InTransit | NearDestination | OutForDelivery | Delivered

  const DeliveredAt: real := 1.0
  const OutForDeliveryAt: real := 0.8
  const NearDestinationAt: real := 0.5
  /** The display threshold for "In Transit"; the departure milestone toast uses 0.25 instead. */
  const InTransitAt: real := 0.2

  /** Position of a stage along the journey. */
  function Rank(s: Stage): nat {
    match s
    case Departed => 0
    case InTransit => 1
    case NearDestination => 2
    case OutForDelivery => 3
    case Delivered => 4
  }

  function StageOf(progress: real): (s: Stage)
    ensures s == Delivered <==> progress >= DeliveredAt
    ensures s == OutForDelivery <==> OutForDeliveryAt <= progress < DeliveredAt
    ensures s == NearDestination <==> NearDestinationAt <= progress < OutForDeliveryAt
    ensures s == InTransit <==> InTransitAt <= progress < NearDestinationAt
    ensures s == Departed <==> progress < InTransitAt
  {
    if progress >= DeliveredAt then Delivered
    else if progress >= OutForDeliveryAt then OutForDelivery
    else if progress >= NearDestinationAt then NearDestination
    else if progress >= InTransitAt then InTransit
    else Departed
  }

  /** A larger progress never yields an earlier stage. */
  lemma StageMonotone(p: real, q: real)
    requires p <= q
    ensures Rank(StageOf(p)) <= Rank(StageOf(q))
  {
  }

  /** The text each stage is shown with. */
  function Label(s: Stage): (l: string)
    ensures l == "Delivered" <==> s == Delivered
    ensures l == "Out for Delivery" <==> s == OutForDelivery
    ensures l == "In Transit (Near Destination)" <==> s == NearDestination
    ensures l == "In Transit" <==> s == InTransit
    ensures l == "Departed" <==> s == Departed
  {
    match s
    case Departed => "Departed"
    case InTransit => "In Transit"
    case NearDestination => "In Transit (Near Destination)"
    case OutForDelivery => "Out for Delivery"
    case Delivered => "Delivered"
  }

  /** No two stages share a label, so the label determines the stage. */
  lemma LabelInjective(s: Stage, t: Stage)
    requires Label(s) == Label(t)
    ensures s == t
  {
  }
}
