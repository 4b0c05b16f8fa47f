/** Records that several pages exchange: menu items, menus, the orders the
    backend returns, and the order data the user pages pass to each other
    through navigation state. Field names follow the JavaScript objects. */
module Domain {

  datatype Option<T> = None | Some(value: T)

  /** A menu item ("sabji") as the menu endpoints return it. */
  datatype Sabji = Sabji(name: string, imageUrl: string, isSpecial: bool)

  /** A published menu. `basePrice` is `None` when the field is missing;
      `listOfSabjis` is `None` when the list is missing. */
  datatype Menu = Menu(mealType: string, basePrice: Option<int>, listOfSabjis: Option<seq<Sabji>>)

  /** An order as the order endpoints return it. `createdAt` is the creation
      time in milliseconds since the epoch; `totalPrice` is `None` when the
      field is missing. */
  datatype Order = Order(id: string, status: string, otp: string, totalPrice: Option<int>, createdAt: int)

  /** The delivery address attached by the user checkout page. `lat`/`lng`
      are `None` for JavaScript `null` (and for a saved record, which has no
      coordinates); `id` is present only on saved addresses. `labelText` is the
      `label` field (`label` is a Dafny keyword). */
  datatype DeliveryAddress = DeliveryAddress(
    id: Option<int>, labelText: string, address: string,
    lat: Option<real>, lng: Option<real>, phoneNumber: string)

  /** The order object the user pages hand to each other. The meal builder
      fills the first six fields; the order summary adds `quantity` and
      `finalTotalPrice`; the checkout adds `deliveryAddress` and `orderTime`. */
  datatype UserOrder = UserOrder(
    mealType: string,
    selectedSabjis: seq<string>,
    base: string,
    extraRoti: int,
    totalPrice: int,
    isSpecial: bool,
    quantity: Option<int>,
    finalTotalPrice: Option<int>,
    deliveryAddress: Option<DeliveryAddress>,
    orderTime: Option<string>)
}
