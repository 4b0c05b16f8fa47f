/** The admin order board (pages/Orders.jsx): status tabs with badge counts,
    status updates that touch only the order with the given id, delivery
    gated by the order's OTP, and the action offered for each status. The
    board uses the statuses "Confirmed", "on-the-way" and "delivered". */
module AdminOrders {
  import opened Domain
  import opened Seqs

  const Confirmed := "Confirmed"
  const OnTheWay := "on-the-way"
  const Delivered := "delivered"

  /** The OTP box accepts at most four characters. */
  const OtpLength := 4

  datatype Tab = AllTab | ConfirmedTab | OnTheWayTab | DeliveredTab

  /** The status a tab other than "all" selects. */
  function TabStatus(tab: Tab): string
    requires tab != AllTab
  {
    match tab
    case ConfirmedTab => Confirmed
    case OnTheWayTab => OnTheWay
    case DeliveredTab => Delivered
  }

  function StatusOf(o: Order): string {
    o.status
  }

  function HasStatus(st: string): Order -> bool {
    (o: Order) => o.status == st
  }

  /** `filterOrders()`: the "all" tab keeps every order; the others keep
      exactly the orders with the tab's status, in their original order. */
  function FilterOrders(orders: seq<Order>, tab: Tab): (r: seq<Order>)
    ensures tab == AllTab ==> r == orders
    ensures tab != AllTab ==>
      && |r| <= |orders|
      && (forall i :: 0 <= i < |r| ==> r[i] in orders && r[i].status == TabStatus(tab))
      && (forall i :: 0 <= i < |orders| && orders[i].status == TabStatus(tab) ==> orders[i] in r)
  {
    if tab == AllTab then orders
    else
      FilterMembership(orders, HasStatus(TabStatus(tab)));
      Filter(orders, HasStatus(TabStatus(tab)))
  }

  /** Filtering a list made of two parts filters each part: the relative
      order of the orders shown is the order of the list. */
  lemma FilterOrdersAppend(a: seq<Order>, b: seq<Order>, tab: Tab)
    ensures FilterOrders(a + b, tab) == FilterOrders(a, tab) + FilterOrders(b, tab)
  {
    if tab != AllTab {
      FilterAppend(a, b, HasStatus(TabStatus(tab)));
    }
  }

  /** The number on a tab's badge. */
  function Badge(orders: seq<Order>, tab: Tab): (n: nat)
    ensures tab == AllTab ==> n == |orders|
    ensures tab != AllTab ==> n == multiset(Map(orders, StatusOf))[TabStatus(tab)]
    ensures n == |FilterOrders(orders, tab)|
  {
    if tab == AllTab then |orders|
    else
      FilterCountIsMultiplicity(orders, StatusOf, TabStatus(tab), HasStatus(TabStatus(tab)));
      |Filter(orders, HasStatus(TabStatus(tab)))|
  }

  /** The three status badges together never exceed the "all" badge. */
  lemma {:induction false} StatusBadgesBounded(orders: seq<Order>)
    ensures Badge(orders, ConfirmedTab) + Badge(orders, OnTheWayTab) + Badge(orders, DeliveredTab)
            <= Badge(orders, AllTab)
  {
    var m := multiset(Map(orders, StatusOf));
    assert m[Confirmed] + m[OnTheWay] + m[Delivered] <= |m| by {
      MultiplicitiesBounded(Map(orders, StatusOf));
    }
    assert |m| == |orders|;
  }

  lemma {:induction false} MultiplicitiesBounded(s: seq<string>)
    ensures multiset(s)[Confirmed] + multiset(s)[OnTheWay] + multiset(s)[Delivered] <= |s|
  {
    if s != [] {
      MultiplicitiesBounded(s[1..]);
      assert s == [s[0]] + s[1..];
    }
  }

  /** The list after setting one order's status: the orders with id `id`
      take status `st`; every other order is kept as it is. */
  function SetStatus(orders: seq<Order>, id: string, st: string): (r: seq<Order>)
    ensures |r| == |orders|
    ensures forall i :: 0 <= i < |orders| && orders[i].id != id ==> r[i] == orders[i]
    ensures forall i :: 0 <= i < |orders| && orders[i].id == id ==> r[i] == orders[i].(status := st)
  {
    if orders == [] then []
    else
      var head := if orders[0].id == id then orders[0].(status := st) else orders[0];
      [head] + SetStatus(orders[1..], id, st)
  }

  /** Ids are unique, as the backend's `_id` values are. */
  predicate UniqueIds(orders: seq<Order>) {
    forall i, j :: 0 <= i < j < |orders| ==> orders[i].id != orders[j].id
  }

  /** With unique ids, a status change moves exactly one order from its old
      status's badge to the new status's badge and keeps the total. */
  lemma {:induction false} SetStatusMovesOne(orders: seq<Order>, k: nat, st: string)
    requires UniqueIds(orders) && k < |orders|
    ensures var after := SetStatus(orders, orders[k].id, st);
      multiset(Map(after, StatusOf)) ==
        multiset(Map(orders, StatusOf)) - multiset{orders[k].status} + multiset{st}
  {
    var id := orders[k].id;
    var after := SetStatus(orders, id, st);
    assert after == orders[k := orders[k].(status := st)];
    assert Map(after, StatusOf) == Map(orders, StatusOf)[k := st];
  }

  /** Setting the same status twice is setting it once. */
  lemma SetStatusIdempotent(orders: seq<Order>, id: string, st: string)
    ensures SetStatus(SetStatus(orders, id, st), id, st) == SetStatus(orders, id, st)
  {
  }

  /** The status a status's action button moves an order to. */
  function NextStatus(status: string): (next: Option<string>)
    ensures status == Confirmed ==> next == Some(OnTheWay)
    ensures status == OnTheWay ==> next == Some(Delivered)
    ensures status != Confirmed && status != OnTheWay ==> next.None?
  {
    if status == Confirmed then Some(OnTheWay)
    else if status == OnTheWay then Some(Delivered)
    else None
  }

  /** The lifecycle runs forwards only, Confirmed to on-the-way to
      delivered, and a delivered order offers no further action. */
  lemma {:induction false} LifecycleIsLinear(status: string)
    ensures NextStatus(status) != Some(Confirmed)
    ensures NextStatus(status).Some? ==> NextStatus(status).value != status
    ensures NextStatus(Confirmed) == Some(OnTheWay) && NextStatus(OnTheWay) == Some(Delivered)
    ensures NextStatus(Delivered).None?
  {
    assert Confirmed != OnTheWay && OnTheWay != Delivered && Confirmed != Delivered;
  }

  /** `getStatusColor(status)`. */
  function StatusColor(status: string): (c: string)
    ensures status == Confirmed ==> c == "status-confirmed"
    ensures status == OnTheWay ==> c == "status-on-the-way"
    ensures status == Delivered ==> c == "status-delivered"
    ensures c == "" <==> status !in {Confirmed, OnTheWay, Delivered}
  {
    if status == Confirmed then "status-confirmed"
    else if status == OnTheWay then "status-on-the-way"
    else if status == Delivered then "status-delivered"
    else ""
  }

  /** What the OTP box holds after typing: at most four characters. */
  function OtpBoxValue(typed: string): (r: string)
    ensures |r| <= OtpLength && r <= typed
    ensures |typed| <= OtpLength ==> r == typed
    ensures |typed| > OtpLength ==> r == typed[..OtpLength]
  {
    if |typed| <= OtpLength then typed else typed[..OtpLength]
  }

  class OrderBoard {
    var orders: seq<Order>
    var activeTab: Tab
    var verifyingOrderId: Option<string>
    var otpInput: string

    constructor (fetched: seq<Order>)
      ensures orders == fetched && activeTab == AllTab && verifyingOrderId.None? && otpInput == ""
    {
      orders := fetched;
      activeTab := AllTab;
      verifyingOrderId := None;
      otpInput := "";
    }

    /** The list shown, recomputed whenever the tab or the orders change. */
    function FilteredOrders(): (r: seq<Order>)
      reads this
      ensures |r| <= |orders|
      ensures r == FilterOrders(orders, activeTab)
    {
      FilterOrders(orders, activeTab)
    }

    method SelectTab(tab: Tab)
      modifies this`activeTab
      ensures activeTab == tab
    {
      activeTab := tab;
    }

    /** `updateOrderStatus(id, newStatus)`: asking for "delivered" changes no
        order and opens the OTP check for that id; any other status is set on
        the order with that id only. */
    method UpdateOrderStatus(id: string, newStatus: string)
      modifies this`orders, this`verifyingOrderId
      ensures newStatus == Delivered ==>
        orders == old(orders) && verifyingOrderId == Some(id)
      ensures newStatus != Delivered ==>
        orders == SetStatus(old(orders), id, newStatus) && verifyingOrderId == old(verifyingOrderId)
    {
      if newStatus == Delivered {
        verifyingOrderId := Some(id);
        return;
      }
      orders := SetStatus(orders, id, newStatus);
    }

    method EnterOtp(typed: string)
      modifies this`otpInput
      ensures otpInput == OtpBoxValue(typed)
    {
      otpInput := OtpBoxValue(typed);
    }

    /** `verifyAndDeliver(order)`: the order becomes delivered exactly when
        the code typed equals its OTP, which also closes the check; a wrong
        code changes nothing and may be retried. */
    method VerifyAndDeliver(order: Order) returns (delivered: bool)
      modifies this`orders, this`verifyingOrderId, this`otpInput
      ensures delivered <==> old(otpInput) == order.otp
      ensures delivered ==>
        orders == SetStatus(old(orders), order.id, Delivered)
        && verifyingOrderId.None? && otpInput == ""
      ensures !delivered ==>
        orders == old(orders) && verifyingOrderId == old(verifyingOrderId) && otpInput == old(otpInput)
    {
      if otpInput == order.otp {
        orders := SetStatus(orders, order.id, Delivered);
        verifyingOrderId := None;
        otpInput := "";
        return true;
      }
      delivered := false;
    }

    /** The Cancel button of the OTP check. */
    method Cancel()
      modifies this`verifyingOrderId, this`otpInput
      ensures verifyingOrderId.None? && otpInput == ""
    {
      verifyingOrderId := None;
      otpInput := "";
    }
  }
}
