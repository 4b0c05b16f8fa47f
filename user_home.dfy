/** The user's home page (pages/user/Home.jsx): today's lunch and dinner
    menus, each shown on a card whose availability depends on the hour of
    the day, with a short preview of the sabjis, a starting price and an
    order button. The hour is a parameter (the browser clock is not part of
    this model). */
module UserHome {
  import opened Domain
  import opened Seqs

  const Lunch := "lunch"
  const PreviewSize := 4
  const FallbackPrice := 120
  const LunchWindowText := "12:00 PM - 3:00 PM"
  const DinnerWindowText := "7:00 PM - 10:00 PM"

  datatype MealStatus = Available | ComingSoon

  /** `getMealStatus(mealType)` at `hour`: lunch is served from 11 to 15,
      and any other meal type is treated as dinner, served from 18 to 22. */
  function GetMealStatus(mealType: string, hour: int): (s: MealStatus)
    ensures mealType == Lunch ==> (s == Available <==> 11 <= hour < 15)
    ensures mealType != Lunch ==> (s == Available <==> 18 <= hour < 22)
  {
    if mealType == Lunch then
      if 11 <= hour < 15 then Available else ComingSoon
    else
      if 18 <= hour < 22 then Available else ComingSoon
  }

  /** No hour of the day offers both lunch and dinner, and each is offered
      for four hours. */
  lemma MealWindowsDisjoint(hour: int)
    ensures !(GetMealStatus(Lunch, hour) == Available && GetMealStatus("dinner", hour) == Available)
    ensures |set h | 0 <= h < 24 && GetMealStatus(Lunch, h) == Available| == 4
    ensures |set h | 0 <= h < 24 && GetMealStatus("dinner", h) == Available| == 4
  {
    assert "dinner" != Lunch;
    assert (set h | 0 <= h < 24 && GetMealStatus(Lunch, h) == Available) == {11, 12, 13, 14};
    assert (set h | 0 <= h < 24 && GetMealStatus("dinner", h) == Available) == {18, 19, 20, 21};
  }

  /** The card advertises lunch from 12:00 PM and dinner from 7:00 PM, yet
      ordering opens an hour earlier: at 11:00 and at 18:00. */
  lemma OrderingOpensBeforeAdvertisedTime()
    ensures GetMealStatus(Lunch, 11) == Available && LunchWindowText[..2] == "12"
    ensures GetMealStatus("dinner", 18) == Available && DinnerWindowText[..1] == "7"
  {
    assert "dinner" != Lunch;
  }

  /** `response.data[0] || null`: the first menu of the reply, or none when
      the reply is empty. */
  function FirstOrNull(data: seq<Menu>): (m: Option<Menu>)
    ensures m.None? <==> data == []
    ensures m.Some? ==> m.value == data[0]
  {
    if data == [] then None else Some(data[0])
  }

  /** `fetchMenus()`: the two requests go out together; when either fails
      (`replies` is `None`) both menus stay null. */
  function FetchMenus(replies: Option<(seq<Menu>, seq<Menu>)>): (menus: (Option<Menu>, Option<Menu>))
    ensures replies.None? ==> menus == (None, None)
    ensures replies.Some? ==> menus.0 == FirstOrNull(replies.value.0) && menus.1 == FirstOrNull(replies.value.1)
  {
    match replies
    case None => (None, None)
    case Some((lunch, dinner)) => (FirstOrNull(lunch), FirstOrNull(dinner))
  }

  /** `menu.listOfSabjis?.length || 0`, the count in the card's description. */
  function SabjiCount(menu: Menu): (n: nat)
    ensures menu.listOfSabjis.None? ==> n == 0
    ensures menu.listOfSabjis.Some? ==> n == |menu.listOfSabjis.value|
  {
    if menu.listOfSabjis.Some? then |menu.listOfSabjis.value| else 0
  }

  /** The sabji tags of a card: at most four, then "+N more" with N the
      remaining count; nothing without a menu or without a list. */
  function CardPreview(menu: Option<Menu>): (p: Option<Preview<Sabji>>)
    ensures p.Some? <==> menu.Some? && menu.value.listOfSabjis.Some?
    ensures p.Some? ==>
      var list := menu.value.listOfSabjis.value;
      && p.value.shown == list[..if |list| < PreviewSize then |list| else PreviewSize]
      && (p.value.more > 0 <==> |list| > PreviewSize)
      && (p.value.more > 0 ==> p.value.more == |list| - PreviewSize)
  {
    if menu.Some? && menu.value.listOfSabjis.Some? then
      Some(PreviewOf(menu.value.listOfSabjis.value, PreviewSize))
    else None
  }

  /** `menu?.basePrice || 120`: the starting price, with 120 for a missing
      menu, a missing price or a price of 0. */
  function StartingPrice(menu: Option<Menu>): (price: int)
    ensures price != 0
    ensures (menu.Some? && menu.value.basePrice.Some? && menu.value.basePrice.value != 0) ==>
      price == menu.value.basePrice.value
    ensures !(menu.Some? && menu.value.basePrice.Some? && menu.value.basePrice.value != 0) ==>
      price == FallbackPrice
  {
    if menu.Some? && menu.value.basePrice.Some? && menu.value.basePrice.value != 0 then
      menu.value.basePrice.value
    else FallbackPrice
  }

  /** What the card's action area shows. */
  datatype Action = OrderLink(target: string) | DisabledButton(text: string)

  /** The "Order Now" link to the meal builder needs both a menu and an
      available meal; otherwise a disabled button says why. */
  function CardAction(menu: Option<Menu>, mealType: string, hour: int): (a: Action)
    ensures a.OrderLink? <==> menu.Some? && GetMealStatus(mealType, hour) == Available
    ensures a.OrderLink? ==> a.target == "/user/meal-builder?type=" + mealType
    ensures a.DisabledButton? ==> (a.text == "Not Available" <==> menu.Some?)
    ensures a.DisabledButton? && menu.None? ==> a.text == "Menu Coming Soon"
  {
    if menu.Some? && GetMealStatus(mealType, hour) == Available then
      OrderLink("/user/meal-builder?type=" + mealType)
    else if menu.Some? then DisabledButton("Not Available")
    else DisabledButton("Menu Coming Soon")
  }

  /** A failed fetch leaves both cards without an order link at every hour. */
  lemma FailedFetchOffersNothing(hour: int)
    ensures CardAction(FetchMenus(None).0, Lunch, hour) == DisabledButton("Menu Coming Soon")
    ensures CardAction(FetchMenus(None).1, "dinner", hour) == DisabledButton("Menu Coming Soon")
  {
  }
}
