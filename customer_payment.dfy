/** The customer-panel payment step (pages/customer/Payment.jsx): the guard
    on a missing address, the order payload with its one-line delivery
    address, and what the page does with the answer to the order request. */
module CustomerPayment {
  import opened Domain
  import CustomerCheckout

  /** What the page reads from the order context. */
  datatype CustomerOrder = CustomerOrder(sabjisSelected: seq<string>, base: string, extraRoti: int,
                                         quantity: int, isSpecial: bool, totalPrice: int,
                                         address: Option<CustomerCheckout.DeliveryInfo>, specialInstructions: string)

  /** The body of the order request. */
  datatype OrderPayload = OrderPayload(sabjisSelected: seq<string>, base: string, extraRoti: int,
                                       quantity: int, isSpecial: bool, totalPrice: int,
                                       deliveryAddress: string, contactPhone: string,
                                       contactName: string, specialInstructions: string,
                                       paymentMethod: string)

  /** The answer to the order request: an order (with its `_id` and `id`,
      "" where absent), a reply without an order, or a failure carrying the
      server's message, "" when there is none. */
  datatype Reply = Created(mongoId: string, id: string) | NoOrder | Failed(message: string)

  const DefaultPaymentMethod := "online"
  const PaymentFailed := "Payment failed. Please try again."

  /** The one-line address: address, then the landmark and a comma only when
      the landmark is non-empty, then the city. */
  function DeliveryLine(a: CustomerCheckout.DeliveryInfo): (line: string)
    ensures |line| >= |a.address| + 2 && line[..|a.address| + 2] == a.address + ", "
    ensures |line| >= |a.city| && line[|line| - |a.city|..] == a.city
    ensures a.landmark == "" ==> |line| == |a.address| + 2 + |a.city|
    ensures a.landmark != "" ==>
      |line| == |a.address| + 2 + |a.landmark| + 2 + |a.city|
      && line[|a.address| + 2..|a.address| + 2 + |a.landmark| + 2] == a.landmark + ", "
  {
    var middle := if a.landmark != "" then a.landmark + ", " else "";
    var line := a.address + ", " + middle + a.city;
    assert line == (a.address + ", ") + (middle + a.city);
    assert line[..|a.address| + 2] == a.address + ", ";
    line
  }

  /** Two addresses differing only in a non-empty landmark give different
      lines: the landmark is never lost. */
  lemma {:induction false} LandmarkShowsInLine(a: CustomerCheckout.DeliveryInfo, landmark: string)
    requires landmark != "" && a.landmark == ""
    ensures DeliveryLine(a.(landmark := landmark)) != DeliveryLine(a)
  {
    var b := a.(landmark := landmark);
    assert |DeliveryLine(b)| == |a.address| + 2 + |landmark| + 2 + |a.city|;
    assert |DeliveryLine(a)| == |a.address| + 2 + |a.city|;
  }

  /** The payload for an order with an address and a chosen method. */
  function Payload(order: CustomerOrder, paymentMethod: string): (p: OrderPayload)
    requires order.address.Some?
    ensures p.sabjisSelected == order.sabjisSelected && p.base == order.base
    ensures p.extraRoti == order.extraRoti && p.quantity == order.quantity
    ensures p.isSpecial == order.isSpecial && p.totalPrice == order.totalPrice
    ensures p.specialInstructions == order.specialInstructions
    ensures p.contactName == order.address.value.name && p.contactPhone == order.address.value.phone
    ensures p.deliveryAddress == DeliveryLine(order.address.value)
    ensures p.paymentMethod == paymentMethod
  {
    var a := order.address.value;
    OrderPayload(order.sabjisSelected, order.base, order.extraRoti, order.quantity, order.isSpecial,
                 order.totalPrice, DeliveryLine(a), a.phone, a.name, order.specialInstructions, paymentMethod)
  }

  /** The confirmation page is addressed by `_id`, or by `id` when `_id` is
      missing. */
  function ConfirmationId(mongoId: string, id: string): (r: string)
    ensures mongoId != "" ==> r == mongoId
    ensures mongoId == "" ==> r == id
  {
    if mongoId != "" then mongoId else id
  }

  /** The error shown after a failed request. */
  function ErrorText(message: string): (r: string)
    ensures r != ""
    ensures message != "" ==> r == message
    ensures message == "" ==> r == PaymentFailed
  {
    if message != "" then message else PaymentFailed
  }

  datatype Navigation = Stay | ToCheckout | ToConfirmation(orderId: string)

  class PaymentPage {
    const order: CustomerOrder
    var selectedPaymentMethod: string
    var isProcessing: bool
    var error: string
    /** Set once `resetOrder()` has cleared the order context. */
    var orderReset: bool

    constructor (order: CustomerOrder)
      ensures this.order == order && selectedPaymentMethod == DefaultPaymentMethod
      ensures !isProcessing && error == "" && !orderReset
    {
      this.order := order;
      selectedPaymentMethod := DefaultPaymentMethod;
      isProcessing := false;
      error := "";
      orderReset := false;
    }

    method SelectPaymentMethod(m: string)
      modifies this`selectedPaymentMethod
      ensures selectedPaymentMethod == m
    {
      selectedPaymentMethod := m;
    }

    /** `handlePayment()`, with `reply` standing for the answer to the request.
        Without an address nothing is sent and the page goes back to checkout.
        Otherwise the payload is sent; an order in the reply resets the order
        and opens its confirmation; a failure clears the processing flag and
        shows an error; a reply without an order leaves the page processing. */
    method HandlePayment(reply: Reply) returns (sent: Option<OrderPayload>, nav: Navigation)
      modifies this`isProcessing, this`error, this`orderReset
      ensures order.address.None? ==>
        sent.None? && nav == ToCheckout && isProcessing == old(isProcessing)
        && error == old(error) && orderReset == old(orderReset)
      ensures order.address.Some? ==> sent == Some(Payload(order, selectedPaymentMethod))
      ensures order.address.Some? && reply.Created? ==>
        nav == ToConfirmation(ConfirmationId(reply.mongoId, reply.id)) && orderReset
        && isProcessing && error == ""
      ensures order.address.Some? && reply.NoOrder? ==>
        nav == Stay && isProcessing && error == "" && orderReset == old(orderReset)
      ensures order.address.Some? && reply.Failed? ==>
        nav == Stay && !isProcessing && error == ErrorText(reply.message)
        && orderReset == old(orderReset)
    {
      if order.address.None? {
        return None, ToCheckout;
      }
      isProcessing := true;
      error := "";
      sent := Some(Payload(order, selectedPaymentMethod));
      nav := Stay;
      match reply {
        case Created(mongoId, id) =>
          orderReset := true;
          nav := ToConfirmation(ConfirmationId(mongoId, id));
        case NoOrder =>
        case Failed(message) =>
          error := ErrorText(message);
          isProcessing := false;
      }
    }
  }
}
