/** The admin dashboard (pages/Dashboard.jsx): today's order count and
    revenue and the number of pending orders, computed once from the fetched
    order list. The local calendar is abstract: `dayOf` maps a creation time
    in milliseconds to its local day number, and `today` is the current one. */
module Dashboard {
  import opened Domain
  import opened Seqs

  const Pending := "Confirmed"

  datatype Stats = Stats(todayOrders: nat, todayRevenue: int, pendingOrders: nat)

  const InitialStats := Stats(0, 0, 0)

  function OnDay(dayOf: int -> int, today: int): Order -> bool {
    (o: Order) => dayOf(o.createdAt) == today
  }

  function IsPending(): Order -> bool {
    (o: Order) => o.status == Pending
  }

  /** `order.totalPrice || 0`. */
  function PriceOrZero(o: Order): (p: int)
    ensures o.totalPrice.None? ==> p == 0
    ensures o.totalPrice.Some? ==> p == o.totalPrice.value
  {
    match o.totalPrice
    case None => 0
    case Some(v) => v
  }

  /** `orders.reduce((sum, order) => sum + (order.totalPrice || 0), 0)`:
      the prices added from the first order to the last. */
  function Revenue(orders: seq<Order>): int
    decreases |orders|
  {
    if orders == [] then 0
    else Revenue(orders[..|orders| - 1]) + PriceOrZero(orders[|orders| - 1])
  }

  /** The revenue of a list is the revenue of its parts. */
  lemma {:induction false} RevenueAppend(a: seq<Order>, b: seq<Order>)
    ensures Revenue(a + b) == Revenue(a) + Revenue(b)
    decreases |b|
  {
    if b == [] {
      assert a + b == a;
    } else {
      assert (a + b)[..|a + b| - 1] == a + b[..|b| - 1];
      RevenueAppend(a, b[..|b| - 1]);
    }
  }

  /** The sum taken from the front, the reference definition of a total. */
  function SumFromFront(orders: seq<Order>): int {
    if orders == [] then 0 else PriceOrZero(orders[0]) + SumFromFront(orders[1..])
  }

  /** The left fold adds up every price once: it equals the sum from the
      front. */
  lemma {:induction false} RevenueIsSum(orders: seq<Order>)
    ensures Revenue(orders) == SumFromFront(orders)
    decreases |orders|
  {
    if orders != [] {
      assert orders == [orders[0]] + orders[1..];
      RevenueAppend([orders[0]], orders[1..]);
      assert [orders[0]][..0] == [];
      RevenueIsSum(orders[1..]);
    }
  }

  /** With no negative price the revenue is non-negative. */
  lemma {:induction false} RevenueNonNegative(orders: seq<Order>)
    requires forall i :: 0 <= i < |orders| && orders[i].totalPrice.Some? ==> orders[i].totalPrice.value >= 0
    ensures Revenue(orders) >= 0
    decreases |orders|
  {
    if orders != [] {
      RevenueNonNegative(orders[..|orders| - 1]);
    }
  }

  /** `fetchStats()`: with `reply` the fetched list, or `None` when the
      request fails. On failure the stats keep their initial zeros. */
  function StatsAfterFetch(reply: Option<seq<Order>>, dayOf: int -> int, today: int): (s: Stats)
    ensures reply.None? ==> s == InitialStats
    ensures reply.Some? ==>
      && s.todayOrders <= |reply.value|
      && s.todayOrders == |Filter(reply.value, OnDay(dayOf, today))|
      && s.todayRevenue == SumFromFront(Filter(reply.value, OnDay(dayOf, today)))
      && s.pendingOrders == multiset(Map(reply.value, (o: Order) => o.status))[Pending]
  {
    match reply
    case None => InitialStats
    case Some(orders) =>
      var todays := Filter(orders, OnDay(dayOf, today));
      RevenueIsSum(todays);
      FilterCountIsMultiplicity(orders, (o: Order) => o.status, Pending, IsPending());
      Stats(|todays|, Revenue(todays), |Filter(orders, IsPending())|)
  }

  /** Pending orders are counted over every day, so the count can exceed
      today's orders: one pending order from yesterday gives 0 and 1. */
  lemma PendingIsNotLimitedToToday()
    ensures var yesterday := Order("a", Pending, "1234", Some(120), 0);
      var s := StatsAfterFetch(Some([yesterday]), (ms: int) => ms / 86400000, 1);
      s.todayOrders == 0 && s.pendingOrders == 1
  {
    var yesterday := Order("a", Pending, "1234", Some(120), 0);
    var orders := [yesterday];
    assert Filter(orders, OnDay((ms: int) => ms / 86400000, 1)) == [];
    assert Map(orders, (o: Order) => o.status) == [Pending];
  }
}
