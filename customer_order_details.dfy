/** The customer's view of one order (pages/customer/OrderDetails.jsx): the
    status information with its fallback, the three-step tracking timeline,
    and when the timeline and the Reorder button are shown. */
module CustomerOrderDetails {
  import opened Seqs

  const Preparing := "preparing"
  const OnTheWay := "ontheway"
  const Delivered := "delivered"
  const Cancelled := "cancelled"

  /** The statuses the timeline knows, in their order. */
  const StatusOrder: seq<string> := [Preparing, OnTheWay, Delivered]

  /** An entry of the status table; `text` is the `label` property. */
  datatype StatusInfo = StatusInfo(text: string, color: string, icon: string, description: string)

  const PreparingInfo := StatusInfo("Preparing Your Meal", "#F59E0B", "\U{1F468}\U{200D}\U{1F373}",
                                    "Our chefs are preparing your delicious thali")
  const OnTheWayInfo := StatusInfo("On the Way", "#3B82F6", "\U{1F697}", "Your order is being delivered")
  const DeliveredInfo := StatusInfo("Delivered", "#10B981", "\U{2705}", "Your order has been delivered")
  const CancelledInfo := StatusInfo("Cancelled", "#EF4444", "\U{274C}", "This order was cancelled")

  /** `getStatusInfo(status)`: the table entry, or the preparing entry for a
      status the table does not have. */
  function GetStatusInfo(status: string): (info: StatusInfo)
    ensures status == OnTheWay ==> info == OnTheWayInfo
    ensures status == Delivered ==> info == DeliveredInfo
    ensures status == Cancelled ==> info == CancelledInfo
    ensures status !in {OnTheWay, Delivered, Cancelled} ==> info == PreparingInfo
  {
    if status == OnTheWay then OnTheWayInfo
    else if status == Delivered then DeliveredInfo
    else if status == Cancelled then CancelledInfo
    else PreparingInfo
  }

  /** A timeline step; `text` is the `label` property. */
  datatype Step = Step(id: string, text: string, icon: string, completed: bool, active: bool)

  const BaseSteps: seq<Step> := [
    Step(Preparing, "Preparing", "\U{1F468}\U{200D}\U{1F373}", false, false),
    Step(OnTheWay, "On the Way", "\U{1F697}", false, false),
    Step(Delivered, "Delivered", "\U{2705}", false, false)
  ]

  /** `getTrackingSteps(status)`: the three steps in order; a step is
      completed when it is at or before the current status and active when it
      is the current status. */
  function TrackingSteps(status: string): (steps: seq<Step>)
    ensures |steps| == 3
    ensures forall i :: 0 <= i < 3 ==> steps[i].id == StatusOrder[i]
    ensures forall i :: 0 <= i < 3 ==>
      (steps[i].completed <==> i <= IndexOf(StatusOrder, status))
      && (steps[i].active <==> i == IndexOf(StatusOrder, status))
  {
    var current := IndexOf(StatusOrder, status);
    seq(3, (i: int) requires 0 <= i < 3 =>
      BaseSteps[i].(completed := i <= current, active := i == current))
  }

  /** For a status the timeline knows, exactly one step is active, it is the
      last completed one, and the completed steps come first. */
  lemma {:induction false} KnownStatusTimeline(status: string)
    requires status in StatusOrder
    ensures var steps := TrackingSteps(status);
      && (exists k :: 0 <= k < 3 && steps[k].id == status && steps[k].active
            && (forall i :: 0 <= i < 3 && i != k ==> !steps[i].active)
            && (forall i :: 0 <= i < 3 ==> (steps[i].completed <==> i <= k)))
  {
    var steps := TrackingSteps(status);
    var k := IndexOf(StatusOrder, status);
    assert steps[k].id == status && steps[k].active;
  }

  /** Completed steps always form a prefix. */
  lemma CompletedIsPrefix(status: string, i: int, j: int)
    requires 0 <= i <= j < 3 && TrackingSteps(status)[j].completed
    ensures TrackingSteps(status)[i].completed
  {
  }

  /** A status the timeline does not know, "cancelled" among them, shows no
      progress at all. */
  lemma {:induction false} UnknownStatusTimeline(status: string)
    requires status !in StatusOrder
    ensures forall i :: 0 <= i < 3 ==> !TrackingSteps(status)[i].completed && !TrackingSteps(status)[i].active
  {
    assert IndexOf(StatusOrder, status) == -1;
  }

  /** The statuses the admin board and the user pages use ("Confirmed",
      "on-the-way") are not this page's, so an order in one of them shows an
      empty timeline and the fallback "Preparing Your Meal" entry. */
  lemma AdminStatusesShowNoProgress()
    ensures forall i :: 0 <= i < 3 ==> !TrackingSteps("Confirmed")[i].completed
    ensures forall i :: 0 <= i < 3 ==> !TrackingSteps("on-the-way")[i].completed
    ensures GetStatusInfo("on-the-way") == PreparingInfo
  {
    assert "Confirmed" != Preparing && "Confirmed" != OnTheWay && "Confirmed" != Delivered;
    assert "on-the-way" != Preparing && "on-the-way" != OnTheWay && "on-the-way" != Delivered;
    UnknownStatusTimeline("Confirmed");
    UnknownStatusTimeline("on-the-way");
  }

  /** The timeline is drawn for every status but "cancelled". */
  predicate ShowsTimeline(status: string) {
    status != Cancelled
  }

  /** The delivered banner and the Reorder button need a delivered order. */
  predicate OffersReorder(status: string) {
    status == Delivered
  }

  /** When Reorder is offered the whole timeline is completed. */
  lemma {:induction false} ReorderAfterFullTimeline(status: string)
    requires OffersReorder(status)
    ensures ShowsTimeline(status)
    ensures forall i :: 0 <= i < 3 ==> TrackingSteps(status)[i].completed
  {
    assert IndexOf(StatusOrder, status) == 2 by {
      assert StatusOrder[2] == status;
      assert StatusOrder[0] != status && StatusOrder[1] != status;
    }
  }
}
