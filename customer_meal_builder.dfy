/** The customer-panel thali builder (pages/customer/MealBuilder.jsx). The
    selection itself lives in an order context that is not part of this
    model; the page chooses the meal type from the hour, clamps the
    extra-roti count to [0, 3] at 5 rupees each, and runs a three-step wizard
    that needs exactly two sabjis to leave step 1. */
module CustomerMealBuilder {

  const MaxExtraRoti := 3
  const ExtraRotiPrice := 5
  const RequiredSabjis := 2

  datatype MealType = Lunch | Dinner

  /** The meal type chosen on load from the local hour (0..23):
      `(hour >= 19 || hour < 12) ? 'dinner' : 'lunch'`. */
  function MealTypeForHour(hour: int): (m: MealType)
    requires 0 <= hour < 24
    ensures m == Lunch <==> 12 <= hour < 19
  {
    if hour >= 19 || hour < 12 then Dinner else Lunch
  }

  /** Lunch is chosen for seven hours of the day (12:00 to 18:59). */
  lemma {:induction false} LunchHoursCount()
    ensures |set h | 0 <= h < 24 && MealTypeForHour(h) == Lunch| == 7
  {
    var lunch := set h | 0 <= h < 24 && MealTypeForHour(h) == Lunch;
    assert lunch == {12, 13, 14, 15, 16, 17, 18} by {
      forall h | h in lunch ensures h in {12, 13, 14, 15, 16, 17, 18} {
        assert 12 <= h < 19;
      }
    }
  }

  /** `handleExtraRotiChange(change)`: `Math.max(0, Math.min(3, extraRoti + change))`. */
  function ExtraRotiAfterChange(extraRoti: int, change: int): (n: int)
    ensures 0 <= n <= MaxExtraRoti
    ensures 0 <= extraRoti + change <= MaxExtraRoti ==> n == extraRoti + change
    ensures extraRoti + change < 0 ==> n == 0
    ensures extraRoti + change > MaxExtraRoti ==> n == MaxExtraRoti
  {
    var capped := if extraRoti + change < MaxExtraRoti then extraRoti + change else MaxExtraRoti;
    if capped < 0 then 0 else capped
  }

  /** Clamping twice is clamping once: a change of 0 leaves an in-range count
      alone, and the minus button undoes the plus button below the cap. */
  lemma ExtraRotiChangeRoundTrip(extraRoti: int)
    requires 0 <= extraRoti <= MaxExtraRoti
    ensures ExtraRotiAfterChange(extraRoti, 0) == extraRoti
    ensures extraRoti < MaxExtraRoti ==> ExtraRotiAfterChange(ExtraRotiAfterChange(extraRoti, 1), -1) == extraRoti
    ensures extraRoti > 0 ==> ExtraRotiAfterChange(ExtraRotiAfterChange(extraRoti, -1), 1) == extraRoti
  {
  }

  /** The surcharge shown for extra rotis. */
  function ExtraRotiSurcharge(extraRoti: int): (r: int)
    requires 0 <= extraRoti <= MaxExtraRoti
    ensures 0 <= r <= ExtraRotiPrice * MaxExtraRoti
    ensures r % ExtraRotiPrice == 0 && r / ExtraRotiPrice == extraRoti
  {
    ExtraRotiPrice * extraRoti
  }

  /** `canProceed()`: exactly two sabjis at step 1, a non-empty base at step 2. */
  predicate CanProceed(step: int, selectedCount: nat, selectedBase: string) {
    if step == 1 then selectedCount == RequiredSabjis
    else if step == 2 then selectedBase != ""
    else true
  }

  /** The base label on the review step. */
  function BaseLabel(base: string): (shown: string)
    ensures shown == "5 Roti" <==> base == "roti"
    ensures shown == "3 Roti + Rice" <==> base == "roti+rice"
    ensures shown == "Rice" <==> base != "roti" && base != "roti+rice"
  {
    if base == "roti" then "5 Roti" else if base == "roti+rice" then "3 Roti + Rice" else "Rice"
  }

  datatype Navigation = Stay | ToOrderSummary | ToHome

  /** The page's own state. `extraRoti`, `selectedCount` and `selectedBase`
      stand for the order context's values the page reads and writes. */
  class MealBuilderPage {
    var currentStep: int
    var mealType: MealType
    var extraRoti: int
    var selectedCount: nat
    var selectedBase: string

    ghost predicate Valid()
      reads this
    {
      1 <= currentStep <= 3 && 0 <= extraRoti <= MaxExtraRoti
    }

    /** Mounting the page: step 1 and the meal type for the current hour. */
    constructor (hour: int, extraRoti: int, selectedCount: nat, selectedBase: string)
      requires 0 <= hour < 24 && 0 <= extraRoti <= MaxExtraRoti
      ensures Valid() && currentStep == 1 && mealType == MealTypeForHour(hour)
      ensures this.extraRoti == extraRoti && this.selectedCount == selectedCount
      ensures this.selectedBase == selectedBase
    {
      currentStep := 1;
      mealType := MealTypeForHour(hour);
      this.extraRoti := extraRoti;
      this.selectedCount := selectedCount;
      this.selectedBase := selectedBase;
    }

    method HandleExtraRotiChange(change: int)
      requires Valid()
      modifies this`extraRoti
      ensures Valid() && extraRoti == ExtraRotiAfterChange(old(extraRoti), change)
    {
      extraRoti := ExtraRotiAfterChange(extraRoti, change);
    }

    /** The Next button, disabled while `canProceed()` is false. */
    method NextStep() returns (nav: Navigation)
      requires Valid()
      modifies this`currentStep
      ensures Valid()
      ensures !CanProceed(old(currentStep), selectedCount, selectedBase) ==>
        nav == Stay && currentStep == old(currentStep)
      ensures CanProceed(old(currentStep), selectedCount, selectedBase) && old(currentStep) < 3 ==>
        nav == Stay && currentStep == old(currentStep) + 1
      ensures CanProceed(old(currentStep), selectedCount, selectedBase) && old(currentStep) == 3 ==>
        nav == ToOrderSummary && currentStep == 3
    {
      nav := Stay;
      if !CanProceed(currentStep, selectedCount, selectedBase) {
        return;
      }
      if currentStep < 3 {
        currentStep := currentStep + 1;
      } else {
        nav := ToOrderSummary;
      }
    }

    method PrevStep() returns (nav: Navigation)
      requires Valid()
      modifies this`currentStep
      ensures Valid()
      ensures old(currentStep) > 1 ==> nav == Stay && currentStep == old(currentStep) - 1
      ensures old(currentStep) == 1 ==> nav == ToHome && currentStep == 1
    {
      if currentStep > 1 {
        currentStep := currentStep - 1;
        nav := Stay;
      } else {
        nav := ToHome;
      }
    }
  }
}
