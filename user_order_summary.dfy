/** The user-panel order summary (pages/user/OrderSummary.jsx): a quantity in
    [1, 5] that ignores steps leaving the range, a total of per-thali price
    times quantity, and the data passed on to checkout. */
module UserOrderSummary {
  import opened Domain

  const MinQuantity := 1
  const MaxQuantity := 5

  /** `handleQuantityChange(change)`: the step is applied only when the result
      stays in [1, 5]; otherwise the quantity is left as it was. */
  function QuantityAfterChange(quantity: int, change: int): (q: int)
    ensures MinQuantity <= quantity + change <= MaxQuantity ==> q == quantity + change
    ensures !(MinQuantity <= quantity + change <= MaxQuantity) ==> q == quantity
  {
    var next := quantity + change;
    if next >= MinQuantity && next <= MaxQuantity then next else quantity
  }

  /** Starting from an in-range quantity, any sequence of changes stays in
      range, and a change followed by its opposite restores the quantity. */
  lemma QuantityChangeKeepsRange(quantity: int, change: int)
    requires MinQuantity <= quantity <= MaxQuantity
    ensures MinQuantity <= QuantityAfterChange(quantity, change) <= MaxQuantity
    ensures MinQuantity <= quantity + change <= MaxQuantity ==>
      QuantityAfterChange(QuantityAfterChange(quantity, change), -change) == quantity
  {
  }

  /** Unlike a clamp, an oversized step is ignored: 4 + 3 stays 4. */
  lemma OversizedStepIgnored()
    ensures QuantityAfterChange(4, 3) == 4 && QuantityAfterChange(1, -1) == 1
  {
  }

  /** `calculateTotalPrice()`. */
  function TotalPrice(order: UserOrder, quantity: int): (t: int)
    requires MinQuantity <= quantity <= MaxQuantity
    ensures order.totalPrice >= 0 ==> order.totalPrice <= t <= MaxQuantity * order.totalPrice
    ensures t == order.totalPrice * quantity
  {
    order.totalPrice * quantity
  }

  /** `handleProceedToCheckout()`: the incoming order with `quantity` and
      `finalTotalPrice` set. */
  function CheckoutData(order: UserOrder, quantity: int): (r: UserOrder)
    requires MinQuantity <= quantity <= MaxQuantity
    ensures r.quantity == Some(quantity) && r.finalTotalPrice == Some(TotalPrice(order, quantity))
    ensures r.(quantity := order.quantity, finalTotalPrice := order.finalTotalPrice) == order
  {
    order.(quantity := Some(quantity), finalTotalPrice := Some(TotalPrice(order, quantity)))
  }

  /** `getMealTimeRange()`. */
  function MealTimeRange(mealType: string): (r: string)
    ensures r == "12:00 PM - 3:00 PM" <==> mealType == "lunch"
    ensures r == "7:00 PM - 10:00 PM" <==> mealType != "lunch"
  {
    if mealType == "lunch" then "12:00 PM - 3:00 PM" else "7:00 PM - 10:00 PM"
  }

  datatype View = NotFound | Summary(order: UserOrder, quantity: int, total: int)

  class OrderSummaryPage {
    /** `location.state`: `None` when the page is opened without order data. */
    const orderData: Option<UserOrder>
    var quantity: int

    ghost predicate Valid()
      reads this
    {
      MinQuantity <= quantity <= MaxQuantity
    }

    constructor (orderData: Option<UserOrder>)
      ensures Valid() && this.orderData == orderData && quantity == 1
    {
      this.orderData := orderData;
      quantity := 1;
    }

    /** What the page shows: the "Order Not Found" view without order data,
        otherwise the summary with its total. */
    function CurrentView(): (v: View)
      reads this
      requires Valid()
      ensures v.NotFound? <==> orderData.None?
      ensures v.Summary? ==>
        v.order == orderData.value && v.quantity == quantity && v.total == orderData.value.totalPrice * quantity
    {
      if orderData.None? then NotFound
      else Summary(orderData.value, quantity, TotalPrice(orderData.value, quantity))
    }

    method HandleQuantityChange(change: int)
      requires Valid()
      modifies this`quantity
      ensures Valid() && quantity == QuantityAfterChange(old(quantity), change)
    {
      QuantityChangeKeepsRange(quantity, change);
      var newQuantity := quantity + change;
      if newQuantity >= MinQuantity && newQuantity <= MaxQuantity {
        quantity := newQuantity;
      }
    }

    /** The checkout button: the data handed to the checkout page. */
    method HandleProceedToCheckout() returns (next: UserOrder)
      requires Valid() && orderData.Some?
      ensures next == CheckoutData(orderData.value, quantity)
      ensures next.finalTotalPrice == Some(orderData.value.totalPrice * quantity)
    {
      next := orderData.value.(quantity := Some(quantity),
                               finalTotalPrice := Some(orderData.value.totalPrice * quantity));
    }
  }
}
