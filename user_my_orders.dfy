/** The user's order history (pages/user/MyOrders.jsx): "all", "active" and
    "delivered" tabs with their counts, the status label and style, the
    relative time shown for an order, and when its OTP is shown. The page
    uses the statuses "Confirmed", "on-the-way" and "delivered". */
module UserMyOrders {
  import opened Domain
  import opened Seqs
  import opened Text

  const Confirmed := "Confirmed"
  const OnTheWay := "on-the-way"
  const Delivered := "delivered"

  const MsPerMinute := 60000
  const MinutesPerHour := 60
  const MinutesPerDay := 1440

  datatype Tab = AllTab | ActiveTab | DeliveredTab

  /** An order still on its way to the customer. */
  predicate IsActive(status: string) {
    status == Confirmed || status == OnTheWay
  }

  function ActiveOrder(): Order -> bool {
    (o: Order) => IsActive(o.status)
  }

  function DeliveredOrder(): Order -> bool {
    (o: Order) => o.status == Delivered
  }

  /** `filterOrders()`. */
  function FilterOrders(orders: seq<Order>, tab: Tab): (r: seq<Order>)
    ensures tab == AllTab ==> r == orders
    ensures |r| <= |orders|
    ensures forall i :: 0 <= i < |r| ==> r[i] in orders
    ensures tab == ActiveTab ==>
      && (forall i :: 0 <= i < |r| ==> IsActive(r[i].status))
      && (forall i :: 0 <= i < |orders| && IsActive(orders[i].status) ==> orders[i] in r)
    ensures tab == DeliveredTab ==>
      && (forall i :: 0 <= i < |r| ==> r[i].status == Delivered)
      && (forall i :: 0 <= i < |orders| && orders[i].status == Delivered ==> orders[i] in r)
  {
    match tab
    case AllTab => orders
    case ActiveTab =>
      FilterMembership(orders, ActiveOrder());
      Filter(orders, ActiveOrder())
    case DeliveredTab =>
      FilterMembership(orders, DeliveredOrder());
      Filter(orders, DeliveredOrder())
  }

  /** A tab's list of a concatenation is the two lists one after the other,
      so every tab keeps the orders in the order they were fetched. */
  lemma FilterOrdersAppend(a: seq<Order>, b: seq<Order>, tab: Tab)
    ensures FilterOrders(a + b, tab) == FilterOrders(a, tab) + FilterOrders(b, tab)
  {
    match tab
    case AllTab =>
    case ActiveTab => FilterAppend(a, b, ActiveOrder());
    case DeliveredTab => FilterAppend(a, b, DeliveredOrder());
  }

  /** The count shown on a tab. */
  function Count(orders: seq<Order>, tab: Tab): nat {
    |FilterOrders(orders, tab)|
  }

  /** The "active" and "delivered" tabs select disjoint orders, so their
      counts add up to at most the "all" count. */
  lemma CountsBounded(orders: seq<Order>)
    ensures Count(orders, ActiveTab) + Count(orders, DeliveredTab) <= Count(orders, AllTab)
  {
    DisjointFiltersBounded(orders, ActiveOrder(), DeliveredOrder());
  }

  /** `getStatusLabel(status)`. */
  function StatusLabel(status: string): (shown: string)
    ensures status == OnTheWay ==> shown == "On the Way"
    ensures status != OnTheWay ==> shown == status
  {
    if status == OnTheWay then "On the Way" else status
  }

  /** `getStatusClass(status)`. */
  function StatusClass(status: string): (c: string)
    ensures status == Confirmed ==> c == "status-confirmed"
    ensures status == OnTheWay ==> c == "status-on-the-way"
    ensures status == Delivered ==> c == "status-delivered"
    ensures c == "" <==> !IsActive(status) && status != Delivered
  {
    if status == Confirmed then "status-confirmed"
    else if status == OnTheWay then "status-on-the-way"
    else if status == Delivered then "status-delivered"
    else ""
  }

  /** The OTP box is shown for an order exactly when it is active. */
  predicate ShowsOtp(o: Order) {
    IsActive(o.status)
  }

  /** An order of the list shows its OTP exactly when the "active" tab
      lists it. */
  lemma {:induction false} OtpShownIffActiveTab(orders: seq<Order>, k: nat)
    requires k < |orders|
    ensures ShowsOtp(orders[k]) <==> orders[k] in FilterOrders(orders, ActiveTab)
  {
    var r := FilterOrders(orders, ActiveTab);
    if orders[k] in r {
      var i :| 0 <= i < |r| && r[i] == orders[k];
      assert IsActive(r[i].status);
    }
  }

  /** The relative time of an order: `formatDate` on whole minutes. */
  datatype Stamp = JustNow | MinutesAgo(minutes: nat) | HoursAgo(hours: nat) | OnDate(ms: int)

  /** `formatDate(createdAt)` at time `now`, both in milliseconds. */
  function FormatDate(nowMs: int, createdMs: int): (s: Stamp)
    ensures s == JustNow <==> nowMs - createdMs < MsPerMinute
    ensures s.MinutesAgo? ==>
      1 <= s.minutes < MinutesPerHour
      && s.minutes * MsPerMinute <= nowMs - createdMs < (s.minutes + 1) * MsPerMinute
    ensures s.HoursAgo? ==> 1 <= s.hours < 24
    ensures s.OnDate? <==> nowMs - createdMs >= MinutesPerDay * MsPerMinute
    ensures s.OnDate? ==> s.ms == createdMs
  {
    var diffMinutes := (nowMs - createdMs) / MsPerMinute;
    if diffMinutes < 1 then JustNow
    else if diffMinutes < MinutesPerHour then MinutesAgo(diffMinutes)
    else if diffMinutes < MinutesPerDay then HoursAgo(diffMinutes / MinutesPerHour)
    else OnDate(createdMs)
  }

  /** The hour count is the whole number of hours elapsed: flooring to
      minutes and then to hours is flooring to hours. */
  lemma {:induction false} HoursAreWholeHours(nowMs: int, createdMs: int)
    requires FormatDate(nowMs, createdMs).HoursAgo?
    ensures var h := FormatDate(nowMs, createdMs).hours;
      h * 3600000 <= nowMs - createdMs < (h + 1) * 3600000
  {
    var d := nowMs - createdMs;
    var m := d / MsPerMinute;
    var h := m / MinutesPerHour;
    assert m * MsPerMinute <= d < (m + 1) * MsPerMinute;
    assert h * MinutesPerHour <= m < (h + 1) * MinutesPerHour;
    assert h * MinutesPerHour * MsPerMinute <= m * MsPerMinute;
    assert (m + 1) * MsPerMinute <= (h + 1) * MinutesPerHour * MsPerMinute;
  }

  /** The buckets cover every age, in increasing order of age. */
  lemma {:induction false} BucketsAreOrdered(nowMs: int, a: int, b: int)
    requires a >= b
    ensures FormatDate(nowMs, a).OnDate? ==> FormatDate(nowMs, b).OnDate?
    ensures FormatDate(nowMs, b).JustNow? ==> FormatDate(nowMs, a).JustNow?
  {
  }

  /** The text of a relative stamp; a date is rendered by the browser's
      locale, which is not part of this model, so it has none here. */
  function StampText(s: Stamp): (t: Option<string>)
    ensures s.OnDate? <==> t.None?
    ensures s.JustNow? ==> t == Some("Just now")
    ensures s.MinutesAgo? ==> t == Some(NatToString(s.minutes) + "m ago")
    ensures s.HoursAgo? ==> t == Some(NatToString(s.hours) + "h ago")
  {
    match s
    case JustNow => Some("Just now")
    case MinutesAgo(n) => Some(NatToString(n) + "m ago")
    case HoursAgo(h) => Some(NatToString(h) + "h ago")
    case OnDate(_) => None
  }

  /** Different minute counts read differently. */
  lemma MinuteTextsDiffer(m: nat, n: nat)
    requires m != n
    ensures StampText(MinutesAgo(m)) != StampText(MinutesAgo(n))
  {
    if NatToString(m) + "m ago" == NatToString(n) + "m ago" {
      var a := NatToString(m);
      var b := NatToString(n);
      assert |a| == |b|;
      assert a == (a + "m ago")[..|a|] == (b + "m ago")[..|b|] == b;
      NatToStringInjective(m, n);
    }
  }
}
