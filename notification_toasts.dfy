/**
 * Milestone notifications. The component keeps a list of toasts and the last progress value
 * it has seen; on every change of progress it adds at most one toast, for the HIGHEST of the
 * thresholds 1, 0.8, 0.5 and 0.25 that the change crossed upward. Clock-derived toast ids
 * arrive as the `stamp` parameter; the dismissal timers are left to the caller.
 */
module NotificationToasts {
  import opened Optional

  datatype ToastType = Success | Info | Warning | Error

  datatype ToastIcon = CheckCircleIcon | TruckIcon | PlaneIcon | ClockIcon

  /** `duration: None` is a toast without a duration field. */
  datatype Toast = Toast(id: string, title: string, message: string, kind: ToastType, icon: ToastIcon, duration: Option<int>)

  datatype Milestone = DeliveredMilestone | OutForDeliveryMilestone | HalfwayMilestone | DepartedMilestone

  function Threshold(m: Milestone): real {
    match m
    case DeliveredMilestone => 1.0
    case OutForDeliveryMilestone => 0.8
    case HalfwayMilestone => 0.5
    case DepartedMilestone => 0.25
  }

  /** Moving from `last` to `next` passes threshold `t` on the way up. */
  predicate Crosses(last: real, next: real, t: real) {
    last < t <= next
  }

  /** The milestone `getProgressToast` reports: the highest threshold crossed, or none. */
  function ProgressMilestone(last: real, next: real): (r: Option<Milestone>)
    ensures r.Some? ==> Crosses(last, next, Threshold(r.value))
    ensures r.Some? ==> forall m :: Threshold(m) > Threshold(r.value) ==> !Crosses(last, next, Threshold(m))
    ensures r.None? <==> forall m :: !Crosses(last, next, Threshold(m))
  {
    if next >= 1.0 && last < 1.0 then Some(DeliveredMilestone)
    else if next >= 0.8 && last < 0.8 then Some(OutForDeliveryMilestone)
    else if next >= 0.5 && last < 0.5 then Some(HalfwayMilestone)
    else if next >= 0.25 && last < 0.25 then Some(DepartedMilestone)
    else None
  }

  /** Progress that stays put or goes back never produces a milestone. */
  lemma NoMilestoneWithoutIncrease(last: real, next: real)
    requires next <= last
    ensures ProgressMilestone(last, next) == None
  {
  }

  /**
   * A jump from 0 to 0.9 crosses 0.25, 0.5 and 0.8 but reports only "out for delivery":
   * the departure and halfway toasts are never shown for that shipment.
   */
  lemma JumpReportsOnlyHighest()
    ensures Crosses(0.0, 0.9, Threshold(DepartedMilestone)) && Crosses(0.0, 0.9, Threshold(HalfwayMilestone))
    ensures ProgressMilestone(0.0, 0.9) == Some(OutForDeliveryMilestone)
  {
  }

  function MilestoneToast(m: Milestone, packageName: string, stamp: string): (t: Toast)
    ensures t.duration.Some?
  {
    match m
    case DeliveredMilestone =>
      Toast("delivered-" + stamp, "Package Delivered! \U{1F389}", packageName + " has been successfully delivered",
            Success, CheckCircleIcon, Some(6000))
    case OutForDeliveryMilestone =>
      Toast("out-for-delivery-" + stamp, "Out for Delivery", "Your package is with the delivery driver",
            Info, TruckIcon, Some(5000))
    case HalfwayMilestone =>
      Toast("halfway-" + stamp, "Halfway There!", "Your package is 50% of the way to its destination",
            Info, PlaneIcon, Some(4000))
    case DepartedMilestone =>
      Toast("departed-" + stamp, "Package Departed", "Your package has left the origin facility",
            Info, PlaneIcon, Some(4000))
  }

  function GetProgressToast(newProgress: real, lastProgress: real, packageName: string, stamp: string): (r: Option<Toast>)
    ensures r.Some? <==> ProgressMilestone(lastProgress, newProgress).Some?
    ensures r.Some? ==> r.value == MilestoneToast(ProgressMilestone(lastProgress, newProgress).value, packageName, stamp)
  {
    match ProgressMilestone(lastProgress, newProgress)
    case Some(m) => Some(MilestoneToast(m, packageName, stamp))
    case None => None
  }

  function WelcomeToast(trackingId: string, stamp: string): Toast {
    Toast("welcome-" + stamp, "Tracking Active", "Now tracking " + trackingId, Info, ClockIcon, Some(3000))
  }

  /** `toast.duration || 4000`: a missing or zero duration falls back to 4000 ms. */
  function DismissDelay(t: Toast): (d: int)
    ensures t.duration.Some? && t.duration.value != 0 ==> d == t.duration.value
    ensures t.duration.None? || t.duration.value == 0 ==> d == 4000
  {
    match t.duration
    case Some(v) => if v != 0 then v else 4000
    case None => 4000
  }

  lemma Durations(packageName: string, trackingId: string, stamp: string)
    ensures DismissDelay(MilestoneToast(DeliveredMilestone, packageName, stamp)) == 6000
    ensures DismissDelay(MilestoneToast(OutForDeliveryMilestone, packageName, stamp)) == 5000
    ensures DismissDelay(MilestoneToast(HalfwayMilestone, packageName, stamp)) == 4000
    ensures DismissDelay(MilestoneToast(DepartedMilestone, packageName, stamp)) == 4000
    ensures DismissDelay(WelcomeToast(trackingId, stamp)) == 3000
  {
  }

  /** `current.filter(toast => toast.id !== id)`. */
  function RemoveId(toasts: seq<Toast>, id: string): (r: seq<Toast>)
    ensures |r| <= |toasts|
    ensures forall i :: 0 <= i < |r| ==> r[i].id != id && r[i] in toasts
  {
    if toasts == [] then []
    else (if toasts[0].id != id then [toasts[0]] else []) + RemoveId(toasts[1..], id)
  }

  /** Removal works piece by piece: the filter of a concatenation is the concatenation of the filters. */
  lemma {:induction false} RemoveIdConcat(a: seq<Toast>, b: seq<Toast>, id: string)
    ensures RemoveId(a + b, id) == RemoveId(a, id) + RemoveId(b, id)
  {
    if a == [] {
      assert a + b == b;
    } else {
      assert (a + b)[1..] == a[1..] + b;
      RemoveIdConcat(a[1..], b, id);
    }
  }

  /** Removing an id nobody carries leaves the list exactly as it was. */
  lemma {:induction false} RemoveAbsentId(toasts: seq<Toast>, id: string)
    requires forall i :: 0 <= i < |toasts| ==> toasts[i].id != id
    ensures RemoveId(toasts, id) == toasts
  {
    if toasts != [] {
      RemoveAbsentId(toasts[1..], id);
    }
  }

  /** The last value seen after a run of observations, starting from `last`. */
  function LastOf(last: real, ps: seq<real>): real {
    if ps == [] then last else ps[|ps| - 1]
  }

  function MilestoneSeq(m: Option<Milestone>): seq<Milestone> {
    match m
    case Some(v) => [v]
    case None => []
  }

  /** The milestones the change effect adds over a run of progress observations. */
  function MilestonesFired(last: real, ps: seq<real>): seq<Milestone>
    decreases |ps|
  {
    if ps == [] then []
    else if ps[0] == last then MilestonesFired(last, ps[1..])
    else MilestoneSeq(ProgressMilestone(last, ps[0])) + MilestonesFired(ps[0], ps[1..])
  }

  /** One more observation appends what that observation alone fires. */
  lemma {:induction false} MilestonesFiredSnoc(last: real, ps: seq<real>, p: real)
    ensures MilestonesFired(last, ps + [p])
         == MilestonesFired(last, ps) + (if p == LastOf(last, ps) then [] else MilestoneSeq(ProgressMilestone(LastOf(last, ps), p)))
    decreases |ps|
  {
    if ps == [] {
      assert [p][1..] == [];
    } else {
      assert (ps + [p])[1..] == ps[1..] + [p];
      if ps[0] == last {
        MilestonesFiredSnoc(last, ps[1..], p);
      } else {
        MilestonesFiredSnoc(ps[0], ps[1..], p);
      }
      assert LastOf(last, ps) == LastOf(if ps[0] == last then last else ps[0], ps[1..]);
    }
  }

  predicate NonDecreasingFrom(last: real, ps: seq<real>) {
    (ps != [] ==> last <= ps[0]) && forall i :: 0 < i < |ps| ==> ps[i - 1] <= ps[i]
  }

  predicate AllAbove(fired: seq<Milestone>, bound: real) {
    forall i :: 0 <= i < |fired| ==> Threshold(fired[i]) > bound
  }

  predicate StrictlyRising(fired: seq<Milestone>) {
    forall i, j :: 0 <= i < j < |fired| ==> Threshold(fired[i]) < Threshold(fired[j])
  }

  /**
   * While progress only grows, the milestones fired have strictly increasing thresholds, all
   * above the starting value: no milestone toast is ever added twice.
   */
  lemma {:induction false} MilestonesFiredIncreasing(last: real, ps: seq<real>)
    requires NonDecreasingFrom(last, ps)
    ensures AllAbove(MilestonesFired(last, ps), last)
    ensures StrictlyRising(MilestonesFired(last, ps))
    decreases |ps|
  {
    if ps != [] {
      assert NonDecreasingFrom(ps[0], ps[1..]) by {
        forall i | 0 < i < |ps[1..]| ensures ps[1..][i - 1] <= ps[1..][i] {
          assert ps[1..][i - 1] == ps[i] && ps[1..][i] == ps[i + 1];
        }
      }
      if ps[0] == last {
        MilestonesFiredIncreasing(last, ps[1..]);
      } else {
        MilestonesFiredIncreasing(ps[0], ps[1..]);
        var m := ProgressMilestone(last, ps[0]);
        assert m.Some? ==> last < Threshold(m.value) <= ps[0];
        RisingAfterHead(MilestoneSeq(m), MilestonesFired(ps[0], ps[1..]), last, ps[0]);
      }
    }
  }

  /** A milestone at or below `mid` followed by a rising run above `mid` is still rising. */
  lemma RisingAfterHead(head: seq<Milestone>, rest: seq<Milestone>, last: real, mid: real)
    requires |head| <= 1 && last <= mid
    requires forall i :: 0 <= i < |head| ==> last < Threshold(head[i]) <= mid
    requires AllAbove(rest, mid) && StrictlyRising(rest)
    ensures AllAbove(head + rest, last) && StrictlyRising(head + rest)
  {
    var fired := head + rest;
    forall i | 0 <= i < |fired| ensures Threshold(fired[i]) > last {
      if i >= |head| {
        assert fired[i] == rest[i - |head|];
      } else {
        assert fired[i] == head[i];
      }
    }
    forall i, j | 0 <= i < j < |fired| ensures Threshold(fired[i]) < Threshold(fired[j]) {
      if i >= |head| {
        assert fired[i] == rest[i - |head|] && fired[j] == rest[j - |head|];
      } else {
        assert fired[i] == head[i] && fired[j] == rest[j - |head|];
      }
    }
  }

  lemma MilestonesFiredAtMostOnce(ps: seq<real>)
    requires NonDecreasingFrom(0.0, ps)
    ensures forall i, j :: 0 <= i < j < |MilestonesFired(0.0, ps)| ==> MilestonesFired(0.0, ps)[i] != MilestonesFired(0.0, ps)[j]
  {
    MilestonesFiredIncreasing(0.0, ps);
  }

  /** Going back and forth re-fires: the at-most-once guarantee rests on progress not decreasing. */
  lemma RegressionRefires()
    ensures MilestonesFired(0.0, [0.3, 0.1, 0.3]) == [DepartedMilestone, DepartedMilestone]
  {
    assert [0.3, 0.1, 0.3][1..] == [0.1, 0.3];
    assert [0.1, 0.3][1..] == [0.3];
    assert [0.3][1..] == [];
  }

  class ToastCenter {
    const packageName: string
    const trackingId: string

    var toasts: seq<Toast>
    var lastProgress: real

    /** Every progress value the change effect has been run with, and the milestone toasts it added. */
    ghost var observed: seq<real>
    ghost var milestones: seq<Milestone>

    ghost predicate Valid()
      reads this
    {
      lastProgress == LastOf(0.0, observed) && milestones == MilestonesFired(0.0, observed)
    }

    constructor (packageName: string, trackingId: string)
      ensures Valid()
      ensures this.packageName == packageName && this.trackingId == trackingId
      ensures toasts == [] && lastProgress == 0.0 && observed == []
    {
      this.packageName := packageName;
      this.trackingId := trackingId;
      toasts := [];
      lastProgress := 0.0;
      observed := [];
      milestones := [];
    }

    /** Appends `t` and returns the delay after which the caller's timer removes it again. */
    method AddToast(t: Toast) returns (dismissAfter: int)
      modifies this`toasts
      ensures toasts == old(toasts) + [t]
      ensures dismissAfter == DismissDelay(t)
    {
      toasts := toasts + [t];
      dismissAfter := DismissDelay(t);
    }

    method RemoveToast(id: string)
      modifies this`toasts
      ensures toasts == RemoveId(old(toasts), id)
    {
      toasts := RemoveId(toasts, id);
    }

    /** The change effect, run with the progress prop; `stamp` is the clock reading for the toast id. */
    method ObserveProgress(progress: real, stamp: string) returns (dismissAfter: Option<int>)
      requires Valid()
      modifies this
      ensures Valid() && observed == old(observed) + [progress]
      ensures lastProgress == progress
      ensures var t := GetProgressToast(progress, old(lastProgress), packageName, stamp);
        && (progress == old(lastProgress) || t.None? ==> toasts == old(toasts) && dismissAfter.None?)
        && (progress != old(lastProgress) && t.Some? ==>
              toasts == old(toasts) + [t.value] && dismissAfter == Some(DismissDelay(t.value)))
    {
      MilestonesFiredSnoc(0.0, observed, progress);
      dismissAfter := None;
      if progress != lastProgress {
        var toast := GetProgressToast(progress, lastProgress, packageName, stamp);
        if toast.Some? {
          var delay := AddToast(toast.value);
          dismissAfter := Some(delay);
        }
        milestones := milestones + MilestoneSeq(ProgressMilestone(lastProgress, progress));
        lastProgress := progress;
      }
      observed := observed + [progress];
    }

    /** The welcome toast the mount effect schedules. */
    method ShowWelcome(stamp: string) returns (dismissAfter: int)
      modifies this`toasts
      ensures toasts == old(toasts) + [WelcomeToast(trackingId, stamp)]
      ensures dismissAfter == 3000
    {
      dismissAfter := AddToast(WelcomeToast(trackingId, stamp));
    }
  }
}
