/** The customer's order history (pages/customer/MyOrders.jsx): reading the
    order list out of the reply, "all", "active" and "delivered" filters with
    badges shown only when non-zero, status information with a fallback, the
    relative date of an order, and when Reorder is offered. The page uses the
    statuses "preparing", "ontheway", "delivered" and "cancelled". */
module CustomerMyOrders {
  import opened Domain
  import opened Seqs
  import opened Text

  const Preparing := "preparing"
  const OnTheWay := "ontheway"
  const Delivered := "delivered"
  const Cancelled := "cancelled"

  const MsPerMinute := 60000
  const MsPerHour := 3600000
  const LoadFailed := "Failed to load orders. Please try again."

  /** The body of the order-list reply: an object with an `orders` array, a
      bare array, a falsy value other than null, or null/undefined (reading
      `.orders` of which throws). */
  datatype ReplyBody = WithOrders(orders: seq<Order>) | BareList(list: seq<Order>) | FalsyBody | NullBody

  /** The page's list and error message after a fetch. */
  datatype Loaded = Loaded(orders: seq<Order>, error: string)

  /** `fetchOrders()`: `data.orders`, else `data`, else `[]`; a body that
      cannot be read keeps the previous list and sets the error. */
  function AfterFetch(previous: seq<Order>, body: ReplyBody): (r: Loaded)
    ensures body.WithOrders? ==> r == Loaded(body.orders, "")
    ensures body.BareList? ==> r == Loaded(body.list, "")
    ensures body.FalsyBody? ==> r == Loaded([], "")
    ensures body.NullBody? ==> r.orders == previous && r.error == LoadFailed
    ensures r.error == "" <==> !body.NullBody?
  {
    match body
    case WithOrders(orders) => Loaded(orders, "")
    case BareList(list) => Loaded(list, "")
    case FalsyBody => Loaded([], "")
    case NullBody => Loaded(previous, LoadFailed)
  }

  datatype Filter = AllFilter | ActiveFilter | DeliveredFilter

  predicate IsActive(status: string) {
    status == Preparing || status == OnTheWay
  }

  function ActiveOrder(): Order -> bool {
    (o: Order) => IsActive(o.status)
  }

  function DeliveredOrder(): Order -> bool {
    (o: Order) => o.status == Delivered
  }

  /** `filterOrders()`. */
  function FilterOrders(orders: seq<Order>, f: Filter): (r: seq<Order>)
    ensures f == AllFilter ==> r == orders
    ensures |r| <= |orders|
    ensures forall i :: 0 <= i < |r| ==> r[i] in orders
    ensures f == ActiveFilter ==>
      && (forall i :: 0 <= i < |r| ==> IsActive(r[i].status))
      && (forall i :: 0 <= i < |orders| && IsActive(orders[i].status) ==> orders[i] in r)
    ensures f == DeliveredFilter ==>
      && (forall i :: 0 <= i < |r| ==> r[i].status == Delivered)
      && (forall i :: 0 <= i < |orders| && orders[i].status == Delivered ==> orders[i] in r)
  {
    match f
    case AllFilter => orders
    case ActiveFilter =>
      FilterMembership(orders, ActiveOrder());
      Seqs.Filter(orders, ActiveOrder())
    case DeliveredFilter =>
      FilterMembership(orders, DeliveredOrder());
      Seqs.Filter(orders, DeliveredOrder())
  }

  /** A filter's list of a concatenation is the two lists one after the
      other, so every filter keeps the orders in the order they were fetched. */
  lemma FilterOrdersAppend(a: seq<Order>, b: seq<Order>, f: Filter)
    ensures FilterOrders(a + b, f) == FilterOrders(a, f) + FilterOrders(b, f)
  {
    match f
    case AllFilter =>
    case ActiveFilter => FilterAppend(a, b, ActiveOrder());
    case DeliveredFilter => FilterAppend(a, b, DeliveredOrder());
  }

  /** The badge of a filter button: the count, shown only when positive. */
  function BadgeOf(orders: seq<Order>, f: Filter): (b: Option<nat>)
    ensures b.Some? <==> |FilterOrders(orders, f)| > 0
    ensures b.Some? ==> b.value == |FilterOrders(orders, f)|
  {
    var n := |FilterOrders(orders, f)|;
    if n > 0 then Some(n) else None
  }

  /** A cancelled order is counted in "all" but under neither other badge, so
      the active and delivered counts add up to at most the total. */
  lemma CountsBounded(orders: seq<Order>)
    ensures |FilterOrders(orders, ActiveFilter)| + |FilterOrders(orders, DeliveredFilter)| <= |orders|
  {
    DisjointFiltersBounded(orders, ActiveOrder(), DeliveredOrder());
  }

  /** An entry of the status table; `text` is the `label` property. */
  datatype StatusInfo = StatusInfo(text: string, variant: string, icon: string)

  const PreparingInfo := StatusInfo("Preparing", "warning", "\U{1F468}\U{200D}\U{1F373}")
  const OnTheWayInfo := StatusInfo("On the way", "info", "\U{1F697}")
  const DeliveredInfo := StatusInfo("Delivered", "success", "\U{2705}")
  const CancelledInfo := StatusInfo("Cancelled", "danger", "\U{274C}")

  /** `getStatusInfo(status)`: the table entry, or the preparing entry for a
      status the table does not have. */
  function GetStatusInfo(status: string): (info: StatusInfo)
    ensures status == OnTheWay ==> info == OnTheWayInfo
    ensures status == Delivered ==> info == DeliveredInfo
    ensures status == Cancelled ==> info == CancelledInfo
    ensures status !in {OnTheWay, Delivered, Cancelled} ==> info == PreparingInfo
  {
    if status == OnTheWay then OnTheWayInfo
    else if status == Delivered then DeliveredInfo
    else if status == Cancelled then CancelledInfo
    else PreparingInfo
  }

  /** Distinct known statuses get distinct entries, so only unknown statuses
      are shown as "Preparing" without being so. */
  lemma StatusInfoDistinguishesKnown(s: string, t: string)
    requires s in {Preparing, OnTheWay, Delivered, Cancelled} && t in {Preparing, OnTheWay, Delivered, Cancelled}
    requires s != t
    ensures GetStatusInfo(s) != GetStatusInfo(t)
  {
  }

  /** The relative date of an order. */
  datatype Stamp = MinutesAgo(minutes: int) | HoursAgo(hours: nat) | Yesterday | OnDate(ms: int)

  /** `formatDate(createdAt)` at time `now`, both in milliseconds. The hour
      comparisons of the source are on the exact quotient, which for whole
      milliseconds is the same as comparing the milliseconds. */
  function FormatDate(nowMs: int, createdMs: int): (s: Stamp)
    ensures s.MinutesAgo? <==> nowMs - createdMs < MsPerHour
    ensures s.MinutesAgo? ==>
      s.minutes < 60 && s.minutes * MsPerMinute <= nowMs - createdMs < (s.minutes + 1) * MsPerMinute
    ensures s.HoursAgo? ==>
      1 <= s.hours < 24 && s.hours * MsPerHour <= nowMs - createdMs < (s.hours + 1) * MsPerHour
    ensures s.Yesterday? <==> 24 * MsPerHour <= nowMs - createdMs < 48 * MsPerHour
    ensures s.OnDate? <==> nowMs - createdMs >= 48 * MsPerHour
    ensures s.OnDate? ==> s.ms == createdMs
  {
    var d := nowMs - createdMs;
    if d < MsPerHour then MinutesAgo(d / MsPerMinute)
    else if d < 24 * MsPerHour then HoursAgo(d / MsPerHour)
    else if d < 48 * MsPerHour then Yesterday
    else OnDate(createdMs)
  }

  /** `${n} minute${n !== 1 ? 's' : ''}` and the like. */
  function Plural(n: int, unit: string): (t: string)
    ensures n == 1 ==> t == "1 " + unit
    ensures n != 1 ==> t == IntToString(n) + " " + unit + "s"
  {
    IntToString(n) + " " + unit + (if n != 1 then "s" else "")
  }

  /** The text of a stamp; a date is rendered by the browser's locale, which
      is not part of this model, so it has none here. */
  function StampText(s: Stamp): (t: Option<string>)
    ensures s.OnDate? <==> t.None?
    ensures s.Yesterday? ==> t == Some("Yesterday")
    ensures s.MinutesAgo? ==> t == Some(Plural(s.minutes, "minute") + " ago")
    ensures s.HoursAgo? ==> t == Some(Plural(s.hours, "hour") + " ago")
  {
    match s
    case MinutesAgo(m) => Some(Plural(m, "minute") + " ago")
    case HoursAgo(h) => Some(Plural(h, "hour") + " ago")
    case Yesterday => Some("Yesterday")
    case OnDate(_) => None
  }

  /** An order stamped a few seconds in the future reads "-1 minutes ago":
      the minute bucket has no lower bound. */
  lemma FutureOrderReadsNegative()
    ensures FormatDate(1000000, 1000001) == MinutesAgo(-1)
    ensures StampText(MinutesAgo(-1)) == Some("-1 minutes ago")
  {
    assert NatToString(1) == "1";
    assert IntToString(-1) == "-1";
    assert Plural(-1, "minute") == "-1 minutes";
    assert "-1 minutes" + " ago" == "-1 minutes ago";
  }

  /** Reorder is offered exactly for delivered orders. */
  predicate OffersReorder(o: Order) {
    o.status == Delivered
  }

  /** Reorder appears exactly on the orders the "delivered" filter lists. */
  lemma {:induction false} ReorderIffDeliveredFilter(orders: seq<Order>, k: nat)
    requires k < |orders|
    ensures OffersReorder(orders[k]) <==> orders[k] in FilterOrders(orders, DeliveredFilter)
  {
    var r := FilterOrders(orders, DeliveredFilter);
    if orders[k] in r {
      var i :| 0 <= i < |r| && r[i] == orders[k];
      assert r[i].status == Delivered;
    }
  }
}
