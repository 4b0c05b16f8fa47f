/** The user-panel thali builder (pages/user/MealBuilder.jsx): a three-step
    wizard (sabjis, base, review) over a menu. Up to two sabjis with distinct
    names, an extra-roti counter in [0, 10] at 10 rupees each, a 20 rupee
    surcharge when a special sabji is chosen. */
module UserMealBuilder {
  import opened Domain
  import opened Seqs

  const MaxSabjis := 2
  const MaxExtraRoti := 10
  const ExtraRotiPrice := 10
  const SpecialSurcharge := 20
  const DefaultBasePrice := 120

  predicate HasName(sel: seq<Sabji>, name: string) {
    exists i :: 0 <= i < |sel| && sel[i].name == name
  }

  predicate DistinctNames(sel: seq<Sabji>) {
    forall i, j :: 0 <= i < j < |sel| ==> sel[i].name != sel[j].name
  }

  /** What the page keeps true of its selection: at most two entries, no two
      with the same name. */
  predicate ValidSelection(sel: seq<Sabji>) {
    |sel| <= MaxSabjis && DistinctNames(sel)
  }

  function NameIsNot(name: string): Sabji -> bool {
    (s: Sabji) => s.name != name
  }

  /** `removeSabji(name)`: `selectedSabjis.filter(s => s.name !== name)`. */
  function RemoveByName(sel: seq<Sabji>, name: string): (r: seq<Sabji>)
    ensures !HasName(r, name)
    ensures forall i :: 0 <= i < |sel| && sel[i].name != name ==> sel[i] in r
    ensures forall i :: 0 <= i < |r| ==> r[i] in sel
  {
    FilterMembership(sel, NameIsNot(name));
    Filter(sel, NameIsNot(name))
  }

  /** With distinct names, removing a selected name deletes exactly the one
      entry that carries it and keeps the others in order. */
  lemma {:induction false} RemoveByNameDeletesOne(sel: seq<Sabji>, k: nat)
    requires DistinctNames(sel) && k < |sel|
    ensures RemoveByName(sel, sel[k].name) == sel[..k] + sel[k + 1..]
  {
    FilterDropsOne(sel, NameIsNot(sel[k].name), k);
  }

  /** Removing a name that is not selected changes nothing. */
  lemma RemoveAbsentNameIsIdentity(sel: seq<Sabji>, name: string)
    requires !HasName(sel, name)
    ensures RemoveByName(sel, name) == sel
  {
    FilterKeepsAll(sel, NameIsNot(name));
  }

  /** `handleSabjiSelect(sabji)`. */
  function ToggleSelection(sel: seq<Sabji>, s: Sabji): (r: seq<Sabji>)
  {
    if HasName(sel, s.name) then RemoveByName(sel, s.name)
    else if |sel| < MaxSabjis then sel + [s]
    else sel
  }

  /** Selecting a selected name unselects it; selecting a new one appends it
      while fewer than two are selected, and otherwise changes nothing. The
      selection stays valid. */
  lemma ToggleSelectionMeaning(sel: seq<Sabji>, s: Sabji)
    requires ValidSelection(sel)
    ensures var r := ToggleSelection(sel, s);
      && ValidSelection(r)
      && (HasName(sel, s.name) ==> !HasName(r, s.name) && |r| == |sel| - 1)
      && (!HasName(sel, s.name) && |sel| < MaxSabjis ==> r == sel + [s])
      && (!HasName(sel, s.name) && |sel| >= MaxSabjis ==> r == sel)
  {
    var r := ToggleSelection(sel, s);
    if HasName(sel, s.name) {
      var k :| 0 <= k < |sel| && sel[k].name == s.name;
      RemoveByNameDeletesOne(sel, k);
      assert |r| <= 1;
    }
  }

  /** Selecting a new sabji and then selecting it again restores the
      selection. */
  lemma ToggleTwiceRestores(sel: seq<Sabji>, s: Sabji)
    requires ValidSelection(sel) && !HasName(sel, s.name) && |sel| < MaxSabjis
    ensures ToggleSelection(ToggleSelection(sel, s), s) == sel
  {
    var r := sel + [s];
    assert r[|sel|].name == s.name;
    RemoveByNameDeletesOne(r, |sel|);
    assert r[..|sel|] == sel;
  }

  predicate AnySpecial(sel: seq<Sabji>) {
    exists i :: 0 <= i < |sel| && sel[i].isSpecial
  }

  /** `menu?.basePrice || 120`: a missing menu, a missing price and a price of
      0 all fall back to 120. */
  function BasePriceOf(menu: Option<Menu>): (p: int)
    ensures p == DefaultBasePrice <==>
      (menu.None? || menu.value.basePrice.None? || menu.value.basePrice.value in {0, DefaultBasePrice})
    ensures p != DefaultBasePrice ==> menu.Some? && menu.value.basePrice == Some(p)
  {
    if menu.Some? && menu.value.basePrice.Some? && menu.value.basePrice.value != 0
    then menu.value.basePrice.value
    else DefaultBasePrice
  }

  /** `calculatePrice()`: the price of one thali in rupees. */
  function PerThaliPrice(menu: Option<Menu>, sel: seq<Sabji>, extraRoti: int): int
  {
    BasePriceOf(menu) + (if AnySpecial(sel) then SpecialSurcharge else 0) + ExtraRotiPrice * extraRoti
  }

  /** The price is the base price, plus 20 exactly when a special sabji is
      selected, plus 10 for every extra roti; within the counter's range it
      lies between the base price and the base price plus 120. */
  lemma PerThaliPriceBreakdown(menu: Option<Menu>, sel: seq<Sabji>, extraRoti: int)
    requires 0 <= extraRoti <= MaxExtraRoti
    ensures var p := PerThaliPrice(menu, sel, extraRoti);
      && p - ExtraRotiPrice * extraRoti - BasePriceOf(menu) == (if AnySpecial(sel) then 20 else 0)
      && BasePriceOf(menu) <= p <= BasePriceOf(menu) + SpecialSurcharge + ExtraRotiPrice * MaxExtraRoti
      && (extraRoti < MaxExtraRoti ==> PerThaliPrice(menu, sel, extraRoti + 1) == p + ExtraRotiPrice)
  {
  }

  /** The minus button: `Math.max(0, extraRoti - 1)`. */
  function DecrementRoti(n: int): (r: int)
    ensures r >= 0
    ensures n >= 1 ==> r == n - 1
    ensures n <= 1 ==> r == 0
  {
    if n - 1 < 0 then 0 else n - 1
  }

  /** The plus button: `Math.min(10, extraRoti + 1)`. */
  function IncrementRoti(n: int): (r: int)
    ensures r <= MaxExtraRoti
    ensures n < MaxExtraRoti ==> r == n + 1
    ensures n >= MaxExtraRoti - 1 ==> r == MaxExtraRoti
  {
    if n + 1 > MaxExtraRoti then MaxExtraRoti else n + 1
  }

  /** The two buttons keep the counter in [0, 10] and undo each other away
      from the bounds. */
  lemma RotiButtonsKeepRange(n: int)
    requires 0 <= n <= MaxExtraRoti
    ensures 0 <= DecrementRoti(n) <= MaxExtraRoti && 0 <= IncrementRoti(n) <= MaxExtraRoti
    ensures n > 0 ==> IncrementRoti(DecrementRoti(n)) == n
    ensures n < MaxExtraRoti ==> DecrementRoti(IncrementRoti(n)) == n
  {
  }

  /** `canProceedToNext()`: the guard of the Next button (it is disabled when
      this is false). `selectedBase` is truthy when non-empty. */
  predicate CanProceedToNext(step: int, sel: seq<Sabji>, base: string) {
    if step == 1 then |sel| >= 1
    else if step == 2 then base != ""
    else true
  }

  function SabjiName(s: Sabji): string { s.name }

  /** The order data `handleNext` passes on from the last step. */
  function BuildOrderData(mealType: string, menu: Option<Menu>, sel: seq<Sabji>, base: string, extraRoti: int): (o: UserOrder)
    ensures |o.selectedSabjis| == |sel|
    ensures forall i :: 0 <= i < |sel| ==> o.selectedSabjis[i] == sel[i].name
    ensures o.totalPrice == PerThaliPrice(menu, sel, extraRoti)
    ensures o.isSpecial <==> AnySpecial(sel)
    ensures o.mealType == mealType && o.base == base && o.extraRoti == extraRoti
    ensures o.quantity.None? && o.finalTotalPrice.None? && o.deliveryAddress.None? && o.orderTime.None?
  {
    UserOrder(mealType, Map(sel, SabjiName), base, extraRoti, PerThaliPrice(menu, sel, extraRoti),
              AnySpecial(sel), None, None, None, None)
  }

  /** Where a button press leads. */
  datatype Navigation = Stay | ToOrderSummary(order: UserOrder) | ToMenu

  class MealBuilderPage {
    const mealType: string
    const menu: Option<Menu>
    var currentStep: int
    var selectedSabjis: seq<Sabji>
    var selectedBase: string
    var extraRoti: int

    ghost predicate Valid()
      reads this
    {
      1 <= currentStep <= 3 && ValidSelection(selectedSabjis) && 0 <= extraRoti <= MaxExtraRoti
    }

    constructor (mealType: string, menu: Option<Menu>)
      ensures Valid()
      ensures this.mealType == mealType && this.menu == menu
      ensures currentStep == 1 && selectedSabjis == [] && selectedBase == "roti" && extraRoti == 0
    {
      this.mealType := mealType;
      this.menu := menu;
      currentStep := 1;
      selectedSabjis := [];
      selectedBase := "roti";
      extraRoti := 0;
    }

    method HandleSabjiSelect(s: Sabji)
      requires Valid()
      modifies this`selectedSabjis
      ensures Valid()
      ensures selectedSabjis == ToggleSelection(old(selectedSabjis), s)
    {
      ToggleSelectionMeaning(selectedSabjis, s);
      if HasName(selectedSabjis, s.name) {
        selectedSabjis := RemoveByName(selectedSabjis, s.name);
      } else if |selectedSabjis| < MaxSabjis {
        selectedSabjis := selectedSabjis + [s];
      }
    }

    method RemoveSabji(name: string)
      requires Valid()
      modifies this`selectedSabjis
      ensures Valid()
      ensures selectedSabjis == RemoveByName(old(selectedSabjis), name)
    {
      if HasName(selectedSabjis, name) {
        var k :| 0 <= k < |selectedSabjis| && selectedSabjis[k].name == name;
        ToggleSelectionMeaning(selectedSabjis, selectedSabjis[k]);
      } else {
        RemoveAbsentNameIsIdentity(selectedSabjis, name);
      }
      selectedSabjis := RemoveByName(selectedSabjis, name);
    }

    method SelectBase(base: string)
      requires Valid()
      modifies this`selectedBase
      ensures Valid() && selectedBase == base
    {
      selectedBase := base;
    }

    method DecrementExtraRoti()
      requires Valid()
      modifies this`extraRoti
      ensures Valid() && extraRoti == DecrementRoti(old(extraRoti))
    {
      extraRoti := DecrementRoti(extraRoti);
    }

    method IncrementExtraRoti()
      requires Valid()
      modifies this`extraRoti
      ensures Valid() && extraRoti == IncrementRoti(old(extraRoti))
    {
      extraRoti := IncrementRoti(extraRoti);
    }

    /** The Next button. While `canProceedToNext()` is false the button is
        disabled and nothing happens; below step 3 it advances one step; at
        step 3 it leaves for the order summary with the built order. */
    method HandleNext() returns (nav: Navigation)
      requires Valid()
      modifies this`currentStep
      ensures Valid()
      ensures !CanProceedToNext(old(currentStep), selectedSabjis, selectedBase) ==>
        nav == Stay && currentStep == old(currentStep)
      ensures CanProceedToNext(old(currentStep), selectedSabjis, selectedBase) && old(currentStep) < 3 ==>
        nav == Stay && currentStep == old(currentStep) + 1
      ensures CanProceedToNext(old(currentStep), selectedSabjis, selectedBase) && old(currentStep) == 3 ==>
        nav == ToOrderSummary(BuildOrderData(mealType, menu, selectedSabjis, selectedBase, extraRoti))
        && currentStep == 3
    {
      nav := Stay;
      if !CanProceedToNext(currentStep, selectedSabjis, selectedBase) {
        return;
      }
      if currentStep < 3 {
        currentStep := currentStep + 1;
      } else {
        nav := ToOrderSummary(BuildOrderData(mealType, menu, selectedSabjis, selectedBase, extraRoti));
      }
    }

    /** The Back button: one step back, or back to the menu from step 1. */
    method HandleBack() returns (nav: Navigation)
      requires Valid()
      modifies this`currentStep
      ensures Valid()
      ensures old(currentStep) > 1 ==> nav == Stay && currentStep == old(currentStep) - 1
      ensures old(currentStep) == 1 ==> nav == ToMenu && currentStep == 1
    {
      if currentStep > 1 {
        currentStep := currentStep - 1;
        nav := Stay;
      } else {
        nav := ToMenu;
      }
    }
  }
}
