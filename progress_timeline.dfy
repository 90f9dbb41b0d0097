/**
 * The five-event delivery timeline in the details panel: pick-up, departure, midway,
 * out-for-delivery and delivery, each completed, current or upcoming by progress, with
 * timestamps at the quarters of the shipment window.
 */
module ProgressTimeline {
  import opened Decimal

  datatype EventStatus = Completed | Current | Upcoming

  datatype EventId = PickedUp | Departure | Midway | OutForDelivery | Delivered

  /** `timestamp` is in milliseconds, as the `Date` it is printed from holds it. */
  datatype TimelineEvent = TimelineEvent(id: EventId, title: string, timestamp: int, status: EventStatus)

  /** `new Date(start + k * quarter)`: the fractional milliseconds of a quarter are dropped. */
  function QuarterTime(start: int, end: int, k: int): int {
    TruncTowardZero(start as real + ((end - start) as real / 4.0) * k as real)
  }

  function TimelineEvents(progress: real, start: int, end: int): (events: seq<TimelineEvent>)
    ensures |events| == 5
    ensures events[0].id == PickedUp && events[1].id == Departure && events[2].id == Midway
    ensures events[3].id == OutForDelivery && events[4].id == Delivered
    ensures events[0].timestamp == start && events[4].timestamp == end
    ensures events[1].timestamp == QuarterTime(start, end, 1)
    ensures events[2].timestamp == QuarterTime(start, end, 2)
    ensures events[3].timestamp == QuarterTime(start, end, 3)
  {
    var quarter := (end - start) as real / 4.0;
    [ TimelineEvent(PickedUp, "Package Picked Up", start,
                    if progress >= 0.0 then Completed else Upcoming),
      TimelineEvent(Departure, "Departed Origin", TruncTowardZero(start as real + quarter),
                    if progress >= 0.25 then Completed else if progress >= 0.1 then Current else Upcoming),
      TimelineEvent(Midway, "In Transit", TruncTowardZero(start as real + quarter * 2.0),
                    if progress >= 0.5 then Completed else if progress >= 0.25 then Current else Upcoming),
      TimelineEvent(OutForDelivery, "Out for Delivery", TruncTowardZero(start as real + quarter * 3.0),
                    if progress >= 0.8 then Completed else if progress >= 0.7 then Current else Upcoming),
      TimelineEvent(Delivered, "Delivered", end,
                    if progress >= 1.0 then Completed else if progress >= 0.9 then Current else Upcoming) ]
  }

  /** In exact arithmetic four quarters make up the window. */
  lemma QuartersSpanWindow(start: int, end: int)
    ensures start as real + ((end - start) as real / 4.0) * 4.0 == end as real
    ensures QuarterTime(start, end, 4) == end
  {
  }

  /** For a window that does not run backwards the timestamps never decrease along the timeline. */
  lemma TimestampsOrdered(progress: real, start: int, end: int)
    requires start <= end
    ensures var events := TimelineEvents(progress, start, end);
      forall k :: 0 <= k < 4 ==> events[k].timestamp <= events[k + 1].timestamp
  {
    var q := (end - start) as real / 4.0;
    assert q >= 0.0;
    TruncMonotone(start as real + q, start as real + q * 2.0);
    TruncMonotone(start as real + q * 2.0, start as real + q * 3.0);
    TruncMonotone(start as real + q * 3.0, end as real);
    TruncMonotone(start as real, start as real + q);
    assert TruncTowardZero(start as real) == start;
    assert TruncTowardZero(end as real) == end;
  }

  /** Completed events form a prefix of the timeline. */
  lemma CompletedPrefix(progress: real, start: int, end: int, k: int)
    requires 0 <= k < 4
    requires TimelineEvents(progress, start, end)[k + 1].status == Completed
    ensures TimelineEvents(progress, start, end)[k].status == Completed
  {
  }

  /** The "current" windows [0.1, 0.25), [0.25, 0.5), [0.7, 0.8) and [0.9, 1) do not overlap. */
  lemma AtMostOneCurrent(progress: real, start: int, end: int, j: int, k: int)
    requires 0 <= j < 5 && 0 <= k < 5
    requires TimelineEvents(progress, start, end)[j].status == Current
    requires TimelineEvents(progress, start, end)[k].status == Current
    ensures j == k
  {
  }

  lemma TimelineAtEnds(start: int, end: int)
    ensures var events := TimelineEvents(0.0, start, end);
      events[0].status == Completed && forall k :: 1 <= k < 5 ==> events[k].status == Upcoming
    ensures var events := TimelineEvents(1.0, start, end);
      forall k :: 0 <= k < 5 ==> events[k].status == Completed
  {
  }

  /**
   * `formatTimestamp`: `localized` stands for the library's date text; the "Est. " prefix
   * is added only to an estimate that still lies in the future.
   */
  function FormatTimestamp(date: int, now: int, isEstimate: bool, localized: string): (s: string)
    ensures isEstimate && date > now ==> s == "Est. " + localized
    ensures !(isEstimate && date > now) ==> s == localized
  {
    if date <= now || !isEstimate then localized else "Est. " + localized
  }

  /** Only upcoming events are formatted as estimates. */
  predicate IsEstimate(e: TimelineEvent) {
    e.status == Upcoming
  }

  /** An event's date carries the "Est. " prefix exactly when the event is upcoming and its date is still ahead. */
  lemma EstimatePrefixIff(e: TimelineEvent, now: int, localized: string)
    ensures FormatTimestamp(e.timestamp, now, IsEstimate(e), localized) == "Est. " + localized
      <==> e.status == Upcoming && e.timestamp > now
  {
    if !(e.status == Upcoming && e.timestamp > now) {
      assert |"Est. " + localized| != |localized|;
    }
  }

  /** A completed or current event never carries the "Est." prefix, whatever the clock says. */
  lemma NoEstimateOnceReached(e: TimelineEvent, now: int, localized: string)
    requires e.status != Upcoming
    ensures FormatTimestamp(e.timestamp, now, IsEstimate(e), localized) == localized
  {
  }

  datatype Badge = Badge(text: string, className: string)

  function StatusBadge(status: EventStatus): (b: Badge)
    ensures status == Completed <==> b.text == "Completed"
    ensures status == Current <==> b.text == "Current"
    ensures status == Upcoming <==> b.text == "Upcoming"
  {
    match status
    case Completed => Badge("Completed", "bg-green-100 text-green-800")
    case Current => Badge("Current", "bg-blue-100 text-blue-800 animate-pulse")
    case Upcoming => Badge("Upcoming", "text-gray-600")
  }

  /** The height, in per cent, of the coloured part of the progress line. */
  function ProgressLineHeight(progress: real): (h: real)
    ensures h <= 100.0
    ensures progress <= 1.0 ==> h == progress * 100.0
  {
    if progress * 100.0 <= 100.0 then progress * 100.0 else 100.0
  }
}
