/** The customer-panel order summary (pages/customer/OrderSummary.jsx): a
    quantity clamped to [1, 5], the base label, the bulk-discount notice, the
    redirect when nothing is selected, and a 200-character instructions box.
    Prices come from an order context that is not part of this model. */
module CustomerOrderSummary {

  const MinQuantity := 1
  const MaxQuantity := 5
  const BulkThreshold := 3
  const MaxInstructions := 200

  /** `handleQuantityChange(change)`: `Math.max(1, Math.min(5, quantity + change))`. */
  function ClampedQuantity(quantity: int, change: int): (q: int)
    ensures MinQuantity <= q <= MaxQuantity
    ensures MinQuantity <= quantity + change <= MaxQuantity ==> q == quantity + change
    ensures quantity + change < MinQuantity ==> q == MinQuantity
    ensures quantity + change > MaxQuantity ==> q == MaxQuantity
  {
    var capped := if quantity + change < MaxQuantity then quantity + change else MaxQuantity;
    if capped < MinQuantity then MinQuantity else capped
  }

  /** Clamping makes an oversized step land on the bound, where the user page
      would ignore it: 4 + 3 becomes 5 here. */
  lemma OversizedStepClamped()
    ensures ClampedQuantity(4, 3) == 5 && ClampedQuantity(1, -1) == 1
  {
  }

  /** `getBaseDisplayName()`: three known bases get fixed labels, anything
      else is shown as it is. */
  function BaseDisplayName(base: string): (shown: string)
    ensures base == "roti" ==> shown == "5 Roti"
    ensures base == "roti+rice" ==> shown == "3 Roti + Rice"
    ensures base == "rice" ==> shown == "Rice Only"
    ensures base !in {"roti", "roti+rice", "rice"} ==> shown == base
  {
    match base
    case "roti" => "5 Roti"
    case "roti+rice" => "3 Roti + Rice"
    case "rice" => "Rice Only"
    case _ => base
  }

  /** The bulk-discount notice is shown iff at least three thalis are ordered. */
  predicate ShowsBulkNotice(quantity: int) {
    quantity >= BulkThreshold
  }

  /** Within the quantity range the notice appears for exactly 3, 4 and 5. */
  lemma {:induction false} BulkNoticeQuantities()
    ensures (set q | MinQuantity <= q <= MaxQuantity && ShowsBulkNotice(q)) == {3, 4, 5}
  {
    var s := set q | MinQuantity <= q <= MaxQuantity && ShowsBulkNotice(q);
    forall q | q in s ensures q in {3, 4, 5} {
      assert 3 <= q <= 5;
    }
  }

  /** What the page's effect does each time it runs (on mount and whenever the
      selection size or the instructions change). */
  datatype SummaryEffect = RedirectToBuilder | PushInstructions(text: string)

  /** The effect: with nothing selected it navigates to the meal builder and
      stops there; otherwise it copies the local instructions into the order
      context. */
  function EffectOf(selectedCount: nat, instructions: string): (e: SummaryEffect)
    ensures e == RedirectToBuilder <==> selectedCount == 0
    ensures e.PushInstructions? ==> e.text == instructions
  {
    if selectedCount == 0 then RedirectToBuilder else PushInstructions(instructions)
  }

  /** Whatever the effect copies into the context went through the
      instructions box, so it never exceeds 200 characters. */
  lemma PushedInstructionsFit(selectedCount: nat, typed: string)
    ensures var e := EffectOf(selectedCount, InstructionsInput(typed));
      e.PushInstructions? ==> |e.text| <= MaxInstructions && e.text <= typed
  {
  }

  /** The instructions box keeps at most 200 characters of what is typed. */
  function InstructionsInput(typed: string): (r: string)
    ensures |r| <= MaxInstructions && r <= typed
    ensures |typed| <= MaxInstructions ==> r == typed
    ensures |typed| > MaxInstructions ==> r == typed[..MaxInstructions]
  {
    if |typed| <= MaxInstructions then typed else typed[..MaxInstructions]
  }

  /** The page state: the quantity kept in the order context and the
      instructions kept locally. */
  class OrderSummaryPage {
    var quantity: int
    var specialInstructions: string
    const selectedCount: nat

    ghost predicate Valid()
      reads this
    {
      MinQuantity <= quantity <= MaxQuantity && |specialInstructions| <= MaxInstructions
    }

    constructor (quantity: int, selectedCount: nat)
      requires MinQuantity <= quantity <= MaxQuantity
      ensures Valid() && this.quantity == quantity && specialInstructions == ""
      ensures this.selectedCount == selectedCount
    {
      this.quantity := quantity;
      specialInstructions := "";
      this.selectedCount := selectedCount;
    }

    /** The effect as it runs on mount: an empty selection redirects before
        anything reaches the context. */
    method Mount() returns (e: SummaryEffect)
      requires Valid()
      ensures e == EffectOf(selectedCount, specialInstructions)
      ensures e == RedirectToBuilder <==> selectedCount == 0
    {
      e := EffectOf(selectedCount, specialInstructions);
    }

    method HandleQuantityChange(change: int)
      requires Valid()
      modifies this`quantity
      ensures Valid() && quantity == ClampedQuantity(old(quantity), change)
    {
      quantity := ClampedQuantity(quantity, change);
    }

    /** Typing in the box; the effect then re-runs on the new text. */
    method EditInstructions(typed: string) returns (e: SummaryEffect)
      requires Valid()
      modifies this`specialInstructions
      ensures Valid() && specialInstructions == InstructionsInput(typed)
      ensures e == EffectOf(selectedCount, specialInstructions)
    {
      specialInstructions := InstructionsInput(typed);
      e := EffectOf(selectedCount, specialInstructions);
    }
  }
}
