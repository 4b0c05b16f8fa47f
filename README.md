# SKFood frontend: a verified model of the ordering and admin pages

SKFood is a home-made thali (meal plate) ordering service. Customers pick
sabjis (vegetable dishes), a base and extra rotis from a lunch or dinner
menu. They choose a quantity and give a delivery address, and the order is
sent. Admins publish the menus, move orders through their statuses and
confirm delivery with a one-time code (OTP). This project models the page
logic of the React frontend in Dafny, one module per page. It is not a
shared abstraction: the user-panel and customer-panel variants of a page
differ in caps, prices, sabji counts and status vocabularies, and each is
modelled as its own file writes it.

- `UserMealBuilder`, `CustomerMealBuilder`: the three-step thali builder.
  It covers sabji selection, per-thali price, the extra-roti counter, the
  step guards and navigation, and the order handed on.
- `UserOrderSummary`, `CustomerOrderSummary`: quantity changes (ignored vs.
  clamped), the total, the checkout payload, the meal-time text, the base
  label, the bulk notice and the instructions limit.
- `UserCheckout`, `CustomerCheckout`: form validation (trim, ten-digit and
  mobile-number rules), per-field editing that clears one error, the
  delivery address built per mode, and saved addresses.
- `CustomerPayment`: the missing-address guard, the order payload with its
  one-line address, and the page state after the answer.
- `AdminOrders`: the tab filters and badges, status updates by id, the
  OTP-gated delivery, the Cancel button and the status lifecycle.
- `UserMyOrders`, `CustomerMyOrders`: filters and counts, status labels and
  classes, relative-time buckets, the reply-shape fallback and Reorder.
- `CustomerOrderDetails`: the three-step tracking timeline and the
  status-table fallback.
- `Dashboard`: today's order count and revenue, and the pending count.
- `PublishMenu`: the menu editor. It is a class whose sabji list holds
  entry objects, so the in-place edits of `updateSabji`/`toggleSpecial` and
  the aliasing created by `loadHistoryMenu` are visible (see Findings).
- `UserHome`: meal availability by hour, the menu pick, the card preview
  and the price fallback.
- Shared modules:
  - `Domain`: the records several pages exchange.
  - `Seqs`: `Array.prototype.filter`/`map`, `indexOf`, and the
    "first k plus +N more" preview.
  - `Text`: JavaScript `trim`, the two phone regular expressions and
    decimal rendering of numbers.

Pages that update state in place are classes. Their fields are the React
state, and their methods are the handlers, with `modifies` clauses and
postconditions that give the new state as a function of the old one. Pure
helpers are functions with named results, and the promises of the pages
are lemmas about those functions.

These are parameters of the model:
- the clock: the hour of the day, and "now" in milliseconds;
- the local calendar: a day-number function;
- network answers: `Option` or reply datatypes;
- `localStorage` contents;
- the time stamps used as ids.

## Model

| member | source | states |
|---|---|---|
| Text.TrimStart | frontend/src/pages/user/Checkout.jsx:73 | the result is a suffix of the input, starts with a non-space and every dropped character is whitespace |
| Text.TrimEnd | frontend/src/pages/user/Checkout.jsx:73 | the result is a prefix of the input, ends with a non-space and every dropped character is whitespace |
| Text.Trim | frontend/src/pages/user/Checkout.jsx:73 | `s.trim()` is no longer than `s` and is empty or starts and ends with a non-space |
| Text.TrimIsInnerSlice | frontend/src/pages/user/Checkout.jsx:73 | `s.trim()` is the slice of `s` that starts after the leading white space, and everything before and after that slice is white space |
| Text.BlankIffTrimEmpty | frontend/src/pages/customer/Checkout.jsx:124 | `!s.trim()` holds exactly when every character of `s` is whitespace |
| Text.MobileRuleStricterThanTenDigits | frontend/src/pages/customer/Checkout.jsx:130 | every number the customer rule `^[6-9]\d{9}$` accepts is accepted by the user rule `^\d{10}$`, and "0123456789" shows the converse fails |
| Text.DigitChar | frontend/src/pages/user/MyOrders.jsx:117 | the character of digit d is a decimal digit whose code is '0' + d |
| Text.DigitValue | frontend/src/pages/user/MyOrders.jsx:117 | a digit character's value is below 10 and maps back to the same character |
| Text.NatToString | frontend/src/pages/user/MyOrders.jsx:117 | the decimal text of a number is non-empty, all digits, with no leading zero except for 0 itself |
| Text.NatToStringRoundTrip | frontend/src/pages/user/MyOrders.jsx:117 | reading back the decimal text of n gives n |
| Text.NatToStringInjective | frontend/src/pages/user/MyOrders.jsx:117 | different numbers have different decimal texts |
| Text.IntToString | frontend/src/pages/customer/MyOrders.jsx:86-87 | an integer's text starts with '-' exactly when it is negative and is otherwise the digits of its magnitude |
| Seqs.Filter | frontend/src/pages/Orders.jsx:37-42 | `filter` keeps only elements satisfying the predicate and never lengthens the list |
| Seqs.FilterMembership | frontend/src/pages/Orders.jsx:37-42 | an element is in the filtered list exactly when it is in the list and satisfies the predicate |
| Seqs.FilterAppend | frontend/src/pages/Orders.jsx:37-42 | filtering distributes over concatenation, so order is kept |
| Seqs.FilterKeepsAll | frontend/src/pages/user/MealBuilder.jsx:48 | filtering a list whose every element passes returns the list |
| Seqs.FilterDropsOne | frontend/src/pages/user/MealBuilder.jsx:48 | when exactly one element fails, filtering removes that element and keeps the rest in order |
| Seqs.DisjointFiltersBounded | frontend/src/pages/user/MyOrders.jsx:155-166 | two filters with disjoint predicates keep at most as many elements together as the list has |
| Seqs.FilterCountIsMultiplicity | frontend/src/pages/Orders.jsx:122-136 | the number of elements kept by `x => f(x) === v` is the multiplicity of v among the mapped values |
| Seqs.Map | frontend/src/pages/user/MealBuilder.jsx:71 | `map` keeps the length and applies the function at every position |
| Seqs.PreviewOf | frontend/src/pages/user/Home.jsx:80-90 | a list longer than k shows exactly its first k elements with "+N more" where N = length - k; a list of at most k shows all of it with no tag |
| Seqs.IndexOf | frontend/src/pages/customer/OrderDetails.jsx:72 | `indexOf` is -1 exactly for an absent value, and otherwise the first position holding it |
| UserMealBuilder.RemoveByName | frontend/src/pages/user/MealBuilder.jsx:47-49 | after `removeSabji(name)` no entry has that name, every other entry is kept, and nothing new appears |
| UserMealBuilder.RemoveByNameDeletesOne | frontend/src/pages/user/MealBuilder.jsx:47-49 | with distinct names, removing a selected name deletes exactly that entry and keeps the others in order |
| UserMealBuilder.RemoveAbsentNameIsIdentity | frontend/src/pages/user/MealBuilder.jsx:47-49 | removing a name that is not selected leaves the selection unchanged |
| UserMealBuilder.ToggleSelectionMeaning | frontend/src/pages/user/MealBuilder.jsx:39-45 | selecting a selected name unselects it; a new name is appended while fewer than 2 are selected and ignored otherwise; the selection stays at most 2 with distinct names |
| UserMealBuilder.ToggleSelection | frontend/src/pages/user/MealBuilder.jsx:39-45 | `ToggleSelectionMeaning` states it: a selected name is removed, a new one appended only while fewer than 2 are selected |
| UserMealBuilder.ToggleTwiceRestores | frontend/src/pages/user/MealBuilder.jsx:39-45 | selecting a new sabji and then selecting it again restores the selection |
| UserMealBuilder.BasePriceOf | frontend/src/pages/user/MealBuilder.jsx:52 | the base price is 120 exactly when the menu, its price or a non-zero price is missing (or the price is 120), and otherwise the menu's own price |
| UserMealBuilder.PerThaliPriceBreakdown | frontend/src/pages/user/MealBuilder.jsx:51-56 | the per-thali price is base + 20 when any selected sabji is special + 10 per extra roti, lies within [base, base+120] and grows by 10 per roti |
| UserMealBuilder.PerThaliPrice | frontend/src/pages/user/MealBuilder.jsx:51-56 | `PerThaliPriceBreakdown` states it: base + 20 exactly when a special sabji is selected + 10 per extra roti |
| UserMealBuilder.DecrementRoti | frontend/src/pages/user/MealBuilder.jsx:268 | the minus button never goes below 0 and otherwise subtracts one |
| UserMealBuilder.IncrementRoti | frontend/src/pages/user/MealBuilder.jsx:276 | the plus button never goes above 10 and otherwise adds one |
| UserMealBuilder.RotiButtonsKeepRange | frontend/src/pages/user/MealBuilder.jsx:266-278 | both buttons keep the counter in [0,10] and undo each other away from the bounds |
| UserMealBuilder.BuildOrderData | frontend/src/pages/user/MealBuilder.jsx:69-76 | the order passed on lists the selected names in selection order, is special exactly when a selected sabji is, carries the calculated price, and has no later-stage fields |
| UserMealBuilder.MealBuilderPage.constructor | frontend/src/pages/user/MealBuilder.jsx:10-19 | the page starts at step 1 with no sabji, base "roti" and no extra roti |
| UserMealBuilder.MealBuilderPage.HandleSabjiSelect | frontend/src/pages/user/MealBuilder.jsx:39-45 | the selection becomes the toggled selection and the page invariant (step 1..3, at most 2 distinct names, roti 0..10) is kept |
| UserMealBuilder.MealBuilderPage.RemoveSabji | frontend/src/pages/user/MealBuilder.jsx:47-49 | the selection loses the entries with that name and the invariant is kept |
| UserMealBuilder.MealBuilderPage.SelectBase | frontend/src/pages/user/MealBuilder.jsx:233 | the chosen base is stored |
| UserMealBuilder.MealBuilderPage.DecrementExtraRoti | frontend/src/pages/user/MealBuilder.jsx:268 | the counter goes down by one, floored at 0 |
| UserMealBuilder.MealBuilderPage.IncrementExtraRoti | frontend/src/pages/user/MealBuilder.jsx:276 | the counter goes up by one, capped at 10 |
| UserMealBuilder.MealBuilderPage.HandleNext | frontend/src/pages/user/MealBuilder.jsx:64-80 | while `canProceedToNext()` fails nothing happens; below step 3 the step advances; at step 3 the page leaves with the built order |
| UserMealBuilder.CanProceedToNext | frontend/src/pages/user/MealBuilder.jsx:58-62 | Next needs at least one sabji at step 1 and a chosen base at step 2, and is always enabled at step 3; `HandleNext` stays put exactly when it fails |
| UserMealBuilder.MealBuilderPage.HandleBack | frontend/src/pages/user/MealBuilder.jsx:82-88 | above step 1 the step goes back one; at step 1 the page returns to the menu |
| CustomerMealBuilder.MealTypeForHour | frontend/src/pages/customer/MealBuilder.jsx:29-30 | the meal is lunch exactly for hours 12 to 18, dinner otherwise |
| CustomerMealBuilder.LunchHoursCount | frontend/src/pages/customer/MealBuilder.jsx:29-30 | seven hours of the day choose lunch |
| CustomerMealBuilder.ExtraRotiAfterChange | frontend/src/pages/customer/MealBuilder.jsx:74-77 | the new count is the old one plus the change, clamped to [0,3] on either side |
| CustomerMealBuilder.ExtraRotiChangeRoundTrip | frontend/src/pages/customer/MealBuilder.jsx:74-77 | a zero change is the identity, and +1 then -1 (or -1 then +1) restores the count away from the bounds |
| CustomerMealBuilder.ExtraRotiSurcharge | frontend/src/pages/customer/MealBuilder.jsx:264 | the displayed surcharge is a multiple of 5 whose quotient is the roti count, at most 15 |
| CustomerMealBuilder.BaseLabel | frontend/src/pages/customer/MealBuilder.jsx:293-294 | "5 Roti" exactly for "roti", "3 Roti + Rice" exactly for "roti+rice", "Rice" for anything else |
| CustomerMealBuilder.MealBuilderPage.constructor | frontend/src/pages/customer/MealBuilder.jsx:27-33 | the page starts at step 1 with the meal type the hour gives |
| CustomerMealBuilder.MealBuilderPage.HandleExtraRotiChange | frontend/src/pages/customer/MealBuilder.jsx:74-77 | the stored count becomes the clamped new count |
| CustomerMealBuilder.MealBuilderPage.NextStep | frontend/src/pages/customer/MealBuilder.jsx:79-85 | while `canProceed()` fails (not exactly 2 sabjis at step 1, an empty base at step 2) nothing happens; below step 3 the step advances; at step 3 the page goes to the summary |
| CustomerMealBuilder.CanProceed | frontend/src/pages/customer/MealBuilder.jsx:95-99 | the step needs exactly two sabjis at step 1 and a chosen base at step 2; `NextStep` advances only when it holds |
| CustomerMealBuilder.MealBuilderPage.PrevStep | frontend/src/pages/customer/MealBuilder.jsx:87-93 | above step 1 the step goes back one; at step 1 the page goes home |
| UserOrderSummary.QuantityAfterChange | frontend/src/pages/user/OrderSummary.jsx:33-38 | a change is applied when the result lies in [1,5] and ignored otherwise |
| UserOrderSummary.QuantityChangeKeepsRange | frontend/src/pages/user/OrderSummary.jsx:33-38 | from a quantity in [1,5] every change leaves it in [1,5] |
| UserOrderSummary.OversizedStepIgnored | frontend/src/pages/user/OrderSummary.jsx:33-38 | a step past the bounds is ignored, not clamped: 4+3 stays 4 and 1-1 stays 1 |
| UserOrderSummary.TotalPrice | frontend/src/pages/user/OrderSummary.jsx:29-31 | the total is the per-thali price times the quantity, between one and five thalis' worth |
| UserOrderSummary.CheckoutData | frontend/src/pages/user/OrderSummary.jsx:40-48 | the checkout payload adds the quantity and the total and leaves every other field of the order unchanged |
| UserOrderSummary.MealTimeRange | frontend/src/pages/user/OrderSummary.jsx:50-52 | "12:00 PM - 3:00 PM" exactly for lunch, "7:00 PM - 10:00 PM" for any other meal type |
| UserOrderSummary.OrderSummaryPage.constructor | frontend/src/pages/user/OrderSummary.jsx:8-10 | the page starts with quantity 1 and the incoming order data |
| UserOrderSummary.OrderSummaryPage.CurrentView | frontend/src/pages/user/OrderSummary.jsx:13-27 | without order data the "Order Not Found" view is shown, otherwise the summary with price times quantity |
| UserOrderSummary.OrderSummaryPage.HandleQuantityChange | frontend/src/pages/user/OrderSummary.jsx:33-38 | the quantity becomes the in-range result or stays |
| UserOrderSummary.OrderSummaryPage.HandleProceedToCheckout | frontend/src/pages/user/OrderSummary.jsx:40-48 | the order passed on is the checkout payload, whose final total is price times quantity |
| CustomerOrderSummary.ClampedQuantity | frontend/src/pages/customer/OrderSummary.jsx:36-39 | the new quantity is the old one plus the change, clamped to [1,5] on either side |
| CustomerOrderSummary.OversizedStepClamped | frontend/src/pages/customer/OrderSummary.jsx:36-39 | unlike the user page, 4+3 becomes 5 |
| CustomerOrderSummary.BaseDisplayName | frontend/src/pages/customer/OrderSummary.jsx:45-52 | roti, roti+rice and rice get their labels and any other base is shown as it is |
| CustomerOrderSummary.BulkNoticeQuantities | frontend/src/pages/customer/OrderSummary.jsx:172-179 | among quantities 1..5 the bulk notice shows exactly for 3, 4 and 5 |
| CustomerOrderSummary.ShowsBulkNotice | frontend/src/pages/customer/OrderSummary.jsx:172-179 | the bulk notice shows exactly at quantities of 3 or more; `BulkNoticeQuantities` pins this to 3, 4 and 5 within the counter range |
| CustomerOrderSummary.EffectOf | frontend/src/pages/customer/OrderSummary.jsx:22-31 | the effect redirects to the meal builder exactly when no sabji is selected, and otherwise copies the current instructions into the order context |
| CustomerOrderSummary.PushedInstructionsFit | frontend/src/pages/customer/OrderSummary.jsx:22-31 | instructions that reach the context came through the box, so they are a prefix of what was typed and at most 200 characters |
| CustomerOrderSummary.InstructionsInput | frontend/src/pages/customer/OrderSummary.jsx:186-196 | an entry of at most 200 characters is kept whole; a longer one is cut to exactly its first 200 characters |
| CustomerOrderSummary.OrderSummaryPage.constructor | frontend/src/pages/customer/OrderSummary.jsx:9 | the page starts with the context's quantity and empty instructions |
| CustomerOrderSummary.OrderSummaryPage.Mount | frontend/src/pages/customer/OrderSummary.jsx:24-28 | on mount an empty selection redirects to the meal builder before anything is pushed to the context |
| CustomerOrderSummary.OrderSummaryPage.HandleQuantityChange | frontend/src/pages/customer/OrderSummary.jsx:36-39 | the quantity becomes the clamped result |
| CustomerOrderSummary.OrderSummaryPage.EditInstructions | frontend/src/pages/customer/OrderSummary.jsx:186-196 | the stored instructions are the typed text cut to 200 characters, and the re-run effect pushes that text unless nothing is selected |
| UserCheckout.TenDigitsNotBlank | frontend/src/pages/user/Checkout.jsx:79-82 | a phone number matching `^\d{10}$` is never blank |
| UserCheckout.FormErrorsMeaning | frontend/src/pages/user/Checkout.jsx:69-92 | manual mode flags a blank label, a blank address and a phone that is not ten digits ("required" when blank, "invalid" otherwise); geolocation mode fails iff no location; saved mode fails iff no saved address |
| UserCheckout.FormErrors | frontend/src/pages/user/Checkout.jsx:69-92 | `FormErrorsMeaning` states it: which keys the error map holds in each address mode, and with which message |
| UserCheckout.DeliveryAddressFor | frontend/src/pages/user/Checkout.jsx:99-117 | geolocation gives "Current Location" with the fixed phone and the coordinates; manual gives the typed fields with null coordinates, all validated; saved passes the chosen record unchanged |
| UserCheckout.CheckoutPage.constructor | frontend/src/pages/user/Checkout.jsx:10-35 | the page starts in geolocation mode with no location, an empty manual form, no errors and no saved address chosen |
| UserCheckout.CheckoutPage.ValidateForm | frontend/src/pages/user/Checkout.jsx:69-92 | the stored errors are the form's errors and the form is valid iff there are none |
| UserCheckout.CheckoutPage.HandlePlaceOrder | frontend/src/pages/user/Checkout.jsx:94-126 | an invalid form sends nothing; a valid one passes on the incoming order with the delivery address and order time added and nothing else changed |
| UserCheckout.CheckoutPage.HandleManualAddressChange | frontend/src/pages/user/Checkout.jsx:128-141 | only the edited field changes, and only that field's error is cleared |
| UserCheckout.CheckoutPage.SelectMode | frontend/src/pages/user/Checkout.jsx:175 | the chosen address mode is stored |
| UserCheckout.CheckoutPage.SetCurrentLocation | frontend/src/pages/user/Checkout.jsx:50 | the obtained location is stored |
| UserCheckout.CheckoutPage.SelectSavedAddress | frontend/src/pages/user/Checkout.jsx:269 | the chosen saved address is stored |
| CustomerCheckout.MountNavigation | frontend/src/pages/customer/Checkout.jsx:27-33 | the page redirects to the meal builder exactly when no sabji is selected, and never to payment |
| CustomerCheckout.MobileNumberNotBlank | frontend/src/pages/customer/Checkout.jsx:128-132 | a number matching `^[6-9]\d{9}$` is never blank |
| CustomerCheckout.FormErrorsMeaning | frontend/src/pages/customer/Checkout.jsx:121-140 | name, address and city are flagged exactly when blank; the phone exactly when not a ten-digit number starting 6 to 9, with "required" when blank and "invalid" otherwise; no other key |
| CustomerCheckout.FormErrors | frontend/src/pages/customer/Checkout.jsx:121-140 | `FormErrorsMeaning` and `ValidIffNoErrors` state it: exactly the blank or malformed fields are flagged, and the map is empty exactly when all pass |
| CustomerCheckout.LandmarkNotValidated | frontend/src/pages/customer/Checkout.jsx:121-140 | changing the landmark never changes the errors |
| CustomerCheckout.ValidIffNoErrors | frontend/src/pages/customer/Checkout.jsx:138-140 | the error map is empty exactly when all four checked fields pass |
| CustomerCheckout.WithField | frontend/src/pages/customer/Checkout.jsx:45-47 | editing a field changes that field of the delivery info only |
| CustomerCheckout.ClearedError | frontend/src/pages/customer/Checkout.jsx:48-50 | an existing error of the edited field becomes "" and every other error is kept, with no key added |
| CustomerCheckout.WithSavedAddress | frontend/src/pages/customer/Checkout.jsx:92-100 | a saved address overwrites address, landmark and city and keeps name and phone |
| CustomerCheckout.SavedButInvalid | frontend/src/pages/customer/Checkout.jsx:102-106 | saving checks emptiness without trimming, so an address of one blank is saved yet rejected by validation |
| CustomerCheckout.CanSave | frontend/src/pages/customer/Checkout.jsx:102-106 | saving needs a non-empty address and city, untrimmed; `SavedButInvalid` shows it accepts what validation rejects |
| CustomerCheckout.CheckoutPage.constructor | frontend/src/pages/customer/Checkout.jsx:14-43 | the form starts from the profile and the stored address, with the saved list loaded, nothing chosen and no errors |
| CustomerCheckout.CheckoutPage.HandleInputChange | frontend/src/pages/customer/Checkout.jsx:45-51 | the delivery info gets the edited field and the errors get that field's error cleared |
| CustomerCheckout.CheckoutPage.SelectSavedAddress | frontend/src/pages/customer/Checkout.jsx:92-100 | the chosen id is stored and the saved address is copied into the form |
| CustomerCheckout.CheckoutPage.SaveCurrentAddress | frontend/src/pages/customer/Checkout.jsx:102-119 | with an empty address or city nothing is saved; otherwise exactly one entry is appended and the earlier entries are unchanged |
| CustomerCheckout.CheckoutPage.ValidateForm | frontend/src/pages/customer/Checkout.jsx:121-140 | the stored errors are the form's errors and the form is valid iff there are none |
| CustomerCheckout.CheckoutPage.HandleProceedToPayment | frontend/src/pages/customer/Checkout.jsx:142-149 | the address is committed and the page goes to payment exactly when there is no error; otherwise nothing is committed |
| CustomerPayment.DeliveryLine | frontend/src/pages/customer/Payment.jsx:64 | the address line starts with "address, " and ends with the city, with "landmark, " between exactly when the landmark is non-empty |
| CustomerPayment.LandmarkShowsInLine | frontend/src/pages/customer/Payment.jsx:64 | a non-empty landmark always changes the address line |
| CustomerPayment.Payload | frontend/src/pages/customer/Payment.jsx:57-69 | the payload copies the order fields unchanged, takes contact name and phone from the address, and carries the chosen payment method |
| CustomerPayment.ConfirmationId | frontend/src/pages/customer/Payment.jsx:78 | the confirmation page uses `_id`, or `id` when `_id` is missing |
| CustomerPayment.ErrorText | frontend/src/pages/customer/Payment.jsx:84 | the error shown is the server's message when there is one, and exactly "Payment failed. Please try again." when there is none; never empty |
| CustomerPayment.PaymentPage.constructor | frontend/src/pages/customer/Payment.jsx:15-17 | the page starts with "online", not processing and no error |
| CustomerPayment.PaymentPage.SelectPaymentMethod | frontend/src/pages/customer/Payment.jsx:120 | the chosen method is stored |
| CustomerPayment.PaymentPage.HandlePayment | frontend/src/pages/customer/Payment.jsx:47-87 | without an address nothing is sent and the page goes to checkout; otherwise the payload is sent; an order in the reply resets the order and opens its confirmation; a failure clears processing and sets the error |
| AdminOrders.FilterOrders | frontend/src/pages/Orders.jsx:33-43 | "all" keeps every order; each other tab keeps exactly the orders with its status, in their original order |
| AdminOrders.FilterOrdersAppend | frontend/src/pages/Orders.jsx:33-43 | a tab's list of two concatenated order lists is the concatenation of their lists |
| AdminOrders.Badge | frontend/src/pages/Orders.jsx:115-136 | the "all" badge is the list length, each status badge counts the orders with that status, and each badge is the length of its tab's list |
| AdminOrders.StatusBadgesBounded | frontend/src/pages/Orders.jsx:122-136 | the three status badges add up to at most the "all" badge |
| AdminOrders.MultiplicitiesBounded | frontend/src/pages/Orders.jsx:122-136 | three distinct statuses occur at most as often together as the list is long |
| AdminOrders.SetStatus | frontend/src/pages/Orders.jsx:57-60 | the order with the given `_id` gets the new status and every other order is unchanged |
| AdminOrders.SetStatusMovesOne | frontend/src/pages/Orders.jsx:57-60 | with unique ids a status change moves one order from its old status's count to the new one's |
| AdminOrders.SetStatusIdempotent | frontend/src/pages/Orders.jsx:57-60 | setting the same status twice is setting it once |
| AdminOrders.NextStatus | frontend/src/pages/Orders.jsx:279-303 | Confirmed offers on-the-way, on-the-way offers delivered, and every other status offers no action |
| AdminOrders.LifecycleIsLinear | frontend/src/pages/Orders.jsx:279-303 | no action leads back to Confirmed or stays on the same status, and delivered is final |
| AdminOrders.StatusColor | frontend/src/pages/Orders.jsx:89-100 | the three known statuses get their classes and only unknown statuses get "" |
| AdminOrders.OtpBoxValue | frontend/src/pages/Orders.jsx:251-258 | an entry of at most 4 characters is kept whole; a longer one is cut to exactly its first 4 characters |
| AdminOrders.OrderBoard.constructor | frontend/src/pages/Orders.jsx:6-11 | the board starts on "all" with the fetched orders, no verification open and an empty OTP input |
| AdminOrders.OrderBoard.FilteredOrders | frontend/src/pages/Orders.jsx:33-43 | the shown list is the active tab's filter of the orders |
| AdminOrders.OrderBoard.SelectTab | frontend/src/pages/Orders.jsx:112 | the chosen tab is stored |
| AdminOrders.OrderBoard.UpdateOrderStatus | frontend/src/pages/Orders.jsx:52-64 | asking for delivered changes no order and opens the OTP check for that id; any other status changes only the order with that id |
| AdminOrders.OrderBoard.EnterOtp | frontend/src/pages/Orders.jsx:255 | the OTP input holds the typed text cut to 4 characters |
| AdminOrders.OrderBoard.VerifyAndDeliver | frontend/src/pages/Orders.jsx:66-77 | the order becomes delivered exactly when the typed code equals its OTP, which also closes the check; a wrong code changes nothing and can be retried |
| AdminOrders.OrderBoard.Cancel | frontend/src/pages/Orders.jsx:267-271 | Cancel closes the check and empties the input without a status change |
| UserMyOrders.FilterOrders | frontend/src/pages/user/MyOrders.jsx:93-103 | "all" keeps every order, "active" exactly the Confirmed and on-the-way ones, "delivered" exactly the delivered ones |
| UserMyOrders.FilterOrdersAppend | frontend/src/pages/user/MyOrders.jsx:93-103 | each tab's list splits over concatenation, so the orders keep their fetched order |
| UserMyOrders.CountsBounded | frontend/src/pages/user/MyOrders.jsx:144-166 | the active and delivered counts add up to at most the "all" count |
| UserMyOrders.Count | frontend/src/pages/user/MyOrders.jsx:144-166 | a tab count is the length of that tab's filter; `CountsBounded` bounds active plus delivered by all |
| UserMyOrders.StatusLabel | frontend/src/pages/user/MyOrders.jsx:128-131 | "on-the-way" reads "On the Way" and every other status reads as it is |
| UserMyOrders.StatusClass | frontend/src/pages/user/MyOrders.jsx:133-138 | the three known statuses get their classes and only the others get "" |
| UserMyOrders.OtpShownIffActiveTab | frontend/src/pages/user/MyOrders.jsx:304 | an order shows its OTP exactly when the "active" tab lists it |
| UserMyOrders.ShowsOtp | frontend/src/pages/user/MyOrders.jsx:304 | `OtpShownIffActiveTab` states it: the OTP shows exactly on the orders the "active" tab lists |
| UserMyOrders.FormatDate | frontend/src/pages/user/MyOrders.jsx:111-126 | under a minute is "Just now"; under an hour, the whole minutes elapsed (1..59); under a day, 1..23 hours; otherwise a date |
| UserMyOrders.HoursAreWholeHours | frontend/src/pages/user/MyOrders.jsx:114-118 | flooring to minutes and then to hours gives the whole hours elapsed |
| UserMyOrders.BucketsAreOrdered | frontend/src/pages/user/MyOrders.jsx:111-126 | an older order is never in a younger bucket than a newer one |
| UserMyOrders.StampText | frontend/src/pages/user/MyOrders.jsx:116-118 | the stamp reads "Just now", "Nm ago" or "Nh ago", and a date has no relative text |
| UserMyOrders.MinuteTextsDiffer | frontend/src/pages/user/MyOrders.jsx:117 | different minute counts read differently |
| CustomerMyOrders.AfterFetch | frontend/src/pages/customer/MyOrders.jsx:24-37 | the list is `data.orders`, else `data`, else empty; an unreadable body keeps the previous list and sets the error |
| CustomerMyOrders.FilterOrders | frontend/src/pages/customer/MyOrders.jsx:39-51 | "all" keeps every order, "active" exactly the preparing and ontheway ones, "delivered" exactly the delivered ones |
| CustomerMyOrders.FilterOrdersAppend | frontend/src/pages/customer/MyOrders.jsx:39-51 | each filter's list splits over concatenation, so the orders keep their fetched order |
| CustomerMyOrders.BadgeOf | frontend/src/pages/customer/MyOrders.jsx:138-169 | a filter badge is rendered exactly when its count is positive, and then shows the count |
| CustomerMyOrders.CountsBounded | frontend/src/pages/customer/MyOrders.jsx:138-169 | the active and delivered counts add up to at most the total |
| CustomerMyOrders.GetStatusInfo | frontend/src/pages/customer/MyOrders.jsx:53-78 | known statuses get their entries and any unknown status the preparing entry |
| CustomerMyOrders.StatusInfoDistinguishesKnown | frontend/src/pages/customer/MyOrders.jsx:53-78 | the four known statuses get four different entries |
| CustomerMyOrders.FormatDate | frontend/src/pages/customer/MyOrders.jsx:80-100 | under an hour gives whole minutes, under a day 1..23 whole hours, under two days "Yesterday", otherwise the date |
| CustomerMyOrders.Plural | frontend/src/pages/customer/MyOrders.jsx:87 | the unit is singular exactly for a count of 1 |
| CustomerMyOrders.StampText | frontend/src/pages/customer/MyOrders.jsx:85-93 | minute and hour stamps read "N minute(s) ago" and "N hour(s) ago", "Yesterday" reads so, and a date has no relative text |
| CustomerMyOrders.FutureOrderReadsNegative | frontend/src/pages/customer/MyOrders.jsx:85-87 | an order stamped one millisecond in the future reads "-1 minutes ago" |
| CustomerMyOrders.ReorderIffDeliveredFilter | frontend/src/pages/customer/MyOrders.jsx:285-296 | Reorder is offered exactly on the orders the "delivered" filter lists |
| CustomerMyOrders.OffersReorder | frontend/src/pages/customer/MyOrders.jsx:285-296 | `ReorderIffDeliveredFilter` states it: Reorder shows exactly on the orders the "delivered" filter lists |
| CustomerOrderDetails.GetStatusInfo | frontend/src/pages/customer/OrderDetails.jsx:33-62 | known statuses get their entries and any unknown status the preparing entry |
| CustomerOrderDetails.TrackingSteps | frontend/src/pages/customer/OrderDetails.jsx:64-79 | always three steps, preparing, ontheway and delivered; step i is completed iff i is at most the status index and active iff it equals it |
| CustomerOrderDetails.KnownStatusTimeline | frontend/src/pages/customer/OrderDetails.jsx:71-78 | for a known status exactly one step, the status's own, is active, and the completed steps are those up to it |
| CustomerOrderDetails.CompletedIsPrefix | frontend/src/pages/customer/OrderDetails.jsx:71-78 | completed steps always form a prefix |
| CustomerOrderDetails.UnknownStatusTimeline | frontend/src/pages/customer/OrderDetails.jsx:71-78 | an unknown status, cancelled included, has no completed and no active step |
| CustomerOrderDetails.AdminStatusesShowNoProgress | frontend/src/pages/customer/OrderDetails.jsx:61-78 | orders in the admin's "Confirmed" or "on-the-way" status show an empty timeline and the preparing entry |
| CustomerOrderDetails.ReorderAfterFullTimeline | frontend/src/pages/customer/OrderDetails.jsx:342 | when Reorder shows, the timeline is shown and fully completed |
| CustomerOrderDetails.ShowsTimeline | frontend/src/pages/customer/OrderDetails.jsx:161 | the timeline is drawn for every status but "cancelled"; `ReorderAfterFullTimeline` shows it drawn and complete whenever Reorder is offered |
| CustomerOrderDetails.OffersReorder | frontend/src/pages/customer/OrderDetails.jsx:342 | Reorder needs a delivered order; `ReorderAfterFullTimeline` shows the whole timeline completed then |
| Dashboard.PriceOrZero | frontend/src/pages/Dashboard.jsx:32 | a missing price counts as 0, otherwise the order's price |
| Dashboard.RevenueAppend | frontend/src/pages/Dashboard.jsx:32 | the reduce over a concatenation is the sum of the two reduces |
| Dashboard.RevenueIsSum | frontend/src/pages/Dashboard.jsx:32 | the left-to-right reduce equals the sum taken from the front, so every price counts once |
| Dashboard.Revenue | frontend/src/pages/Dashboard.jsx:32 | `RevenueAppend` and `RevenueIsSum` state it: the reduce splits over concatenation and equals the front-to-back sum of the prices |
| Dashboard.RevenueNonNegative | frontend/src/pages/Dashboard.jsx:32 | without negative prices the revenue is non-negative |
| Dashboard.StatsAfterFetch | frontend/src/pages/Dashboard.jsx:18-45 | a failed fetch keeps the zeros; otherwise today's count is the number of today's orders (at most the total), today's revenue their summed prices, and pending the number of Confirmed orders of any day |
| Dashboard.PendingIsNotLimitedToToday | frontend/src/pages/Dashboard.jsx:26-33 | one pending order from an earlier day counts as pending but not as today's |
| PublishMenu.SabjiEntry.constructor | frontend/src/pages/PublishMenu.jsx:46 | a new entry object holds the given values |
| PublishMenu.DistinctAppend | frontend/src/pages/PublishMenu.jsx:46 | appending an object not yet in the list keeps the entries distinct objects |
| PublishMenu.ToggleAt | frontend/src/pages/PublishMenu.jsx:96-100 | toggling flips `isSpecial` of the entry at the index and nothing else |
| PublishMenu.ToggleTwiceRestores | frontend/src/pages/PublishMenu.jsx:96-100 | toggling the same entry twice restores the list |
| PublishMenu.WithField | frontend/src/pages/PublishMenu.jsx:54-58 | an update changes the given field of the entry and nothing else |
| PublishMenu.ImageOptionalButRequired | frontend/src/pages/PublishMenu.jsx:110-120 | a sabji with a name and no image passes the add check but blocks publishing, though the dialog calls the image optional (line 393) |
| PublishMenu.HistoryCardPreview | frontend/src/pages/PublishMenu.jsx:188-196 | a history card shows exactly the first 3 sabjis and "+N more" with N = length - 3 when the list is longer, the whole list and no tag otherwise, nothing without a list |
| PublishMenu.NewEntry | frontend/src/pages/PublishMenu.jsx:46 | `{ ...newSabji }` is a fresh object with the draft's values, shared with nothing |
| PublishMenu.CopyEntries | frontend/src/pages/PublishMenu.jsx:102-108 | the copies are fresh, distinct, hold the same values in order, and leave the history unchanged |
| PublishMenu.PublishMenuPage.constructor | frontend/src/pages/PublishMenu.jsx:6-16 | the editor starts on lunch at 120 with no sabjis, an empty draft, dialogs closed and "save as new history" on |
| PublishMenu.PublishMenuPage.OpenModal | frontend/src/pages/PublishMenu.jsx:31-34 | opening the dialog resets the draft |
| PublishMenu.PublishMenuPage.EditDraft | frontend/src/pages/PublishMenu.jsx:385-429 | the draft holds what was typed |
| PublishMenu.PublishMenuPage.AddSabji | frontend/src/pages/PublishMenu.jsx:41-48 | a draft with a blank name is refused and nothing changes; otherwise a copy of the draft is appended after the unchanged earlier entries and the dialog closes with a reset draft |
| PublishMenu.PublishMenuPage.AppendCopy | frontend/src/pages/PublishMenu.jsx:46 | a fresh entry with the given values is appended, the earlier entries are kept, and the list stays separate from the history |
| PublishMenu.PublishMenuPage.RemoveSabji | frontend/src/pages/PublishMenu.jsx:50-52 | the entry at the index is deleted and the others keep their order; an index out of range changes nothing |
| PublishMenu.PublishMenuPage.UpdateSabji | frontend/src/pages/PublishMenu.jsx:54-58 | only the given field of the entry at the index changes, and a list separate from the history leaves the history unchanged |
| PublishMenu.PublishMenuPage.ToggleSpecial | frontend/src/pages/PublishMenu.jsx:96-100 | only `isSpecial` of the entry at the index flips, and a list separate from the history leaves the history unchanged |
| PublishMenu.PublishMenuPage.LoadHistoryMenuAsWritten | frontend/src/pages/PublishMenu.jsx:102-108 | as written: meal type, price and the history's own entry objects (or none) are loaded and "save as new history" is turned off |
| PublishMenu.PublishMenuPage.LoadHistoryMenu | frontend/src/pages/PublishMenu.jsx:102-108 | corrected: the editor gets fresh copies holding the history menu's values (none when absent), with its meal type and price, the section closed and "save as new history" off; the list is separate from the history |
| PublishMenu.PublishMenuPage.Publish | frontend/src/pages/PublishMenu.jsx:110-142 | nothing is sent for an empty list or an entry without name or image; otherwise the payload carries meal type, price, the list and `isNewMeal`, and a success clears the list and turns "save as new history" back on |
| PublishMenu.LoadThenToggleChangesHistory | frontend/src/pages/PublishMenu.jsx:96-108 | as written: loading a history menu and toggling its sabji special changes the history menu itself |
| PublishMenu.LoadCopyThenToggleKeepsHistory | frontend/src/pages/PublishMenu.jsx:96-108 | corrected: the same steps leave the history menu as it was |
| UserHome.GetMealStatus | frontend/src/pages/user/Home.jsx:37-45 | lunch is available exactly for 11 <= hour < 15, any other meal type exactly for 18 <= hour < 22 |
| UserHome.MealWindowsDisjoint | frontend/src/pages/user/Home.jsx:37-45 | no hour offers both meals, and each is offered for four hours |
| UserHome.OrderingOpensBeforeAdvertisedTime | frontend/src/pages/user/Home.jsx:37-61 | ordering opens at 11:00 and 18:00 though the cards advertise 12:00 PM and 7:00 PM |
| UserHome.FirstOrNull | frontend/src/pages/user/Home.jsx:23-24 | the menu is the first of the reply, or null exactly when the reply is empty |
| UserHome.FetchMenus | frontend/src/pages/user/Home.jsx:16-30 | a failed fetch leaves both menus null; otherwise each is the first of its reply |
| UserHome.SabjiCount | frontend/src/pages/user/Home.jsx:73 | the count is the list's length, or 0 without a list |
| UserHome.CardPreview | frontend/src/pages/user/Home.jsx:78-90 | the card shows the first 4 sabjis and "+N more" with N = length - 4 when longer, nothing without a menu or list |
| UserHome.StartingPrice | frontend/src/pages/user/Home.jsx:97 | the price is the menu's non-zero price, otherwise 120; never 0 |
| UserHome.CardAction | frontend/src/pages/user/Home.jsx:104-123 | the Order link shows exactly when a menu exists and the meal is available; otherwise "Not Available" with a menu and "Menu Coming Soon" without |
| UserHome.FailedFetchOffersNothing | frontend/src/pages/user/Home.jsx:16-30 | after a failed fetch neither card offers an order link at any hour |

## Left out

- The network layer (`services/api.js`) is not part of this model. Network answers are parameters of the operations that read them: menus, orders, the order reply and the dashboard list. The image upload, the menu-history refetch after publishing and the menu fetch of the meal builders are not modelled.
- The customer pages call `userAPI.createOrder` and `userAPI.getAllOrders`, which `api.js` does not define. The model treats their answers as given.
- The customer pages read their order, price, discount and tax from an order context (`OrderContext`), which is not part of this model. `selectSabji`, `selectBase`, `getOrderData` and `calculatePrice` appear only through the values they supply.
- Geolocation and the reverse-geocoding request (customer `Checkout.jsx` 53-90, user `Checkout.jsx` 37-66) are not modelled. A location is a parameter.
- `localStorage` is not modelled. Stored addresses are a constructor parameter, and writes back are not modelled.
- The clipboard, `alert`, `setTimeout` and the simulated payment delay are not modelled.
- The random OTP and time-based ids of the confirmation pages are not modelled. OTPs are strings given with each order.
- Locale formatting is not modelled: `toLocaleString`, `toLocaleDateString` and `Intl.NumberFormat`. A date stamp carries its milliseconds and has no text.
- "Same day" on the dashboard is equality of an abstract day number given by a parameter function. This stands in for the `setHours(0,0,0,0)` comparison.
- JSX rendering, CSS and SVG are not modelled, except where a condition decides what is shown. Badges, the timeline, Reorder, the OTP box and the card actions are those conditions.
- Loading flags are not modelled: `loading`, `locationLoading`, `isLoadingLocation`, `uploadingSabjiIndex`. Neither is the `copiedOTP` indicator.
- Tabs and filters are enumerations. A tab string the page never sets has no counterpart.
- The filtered list of `Orders.jsx` is a function of the orders and the active tab (`FilteredOrders`). The source instead recomputes it in an effect after each change.
- JavaScript property lookups are modelled only for the status values the tables list. A status equal to an inherited property name, such as "constructor", is not modelled.
- The customer meal builder's demo fallback menu is not modelled, and neither is the user pages' mock data.
- PublishMenu.PublishMenuPage.UpdateSabji: models every field for a valid index. In the source it is reached only from `handleImageUpload`, with the `imageUrl` field, and that handler is not wired to any control.
- PublishMenu.PublishMenuPage.LoadHistoryMenu: does not state that the history values are unchanged. Its `modifies` clause already excludes the history entries, and the lemma `LoadCopyThenToggleKeepsHistory` shows the consequence.
- PublishMenu.PublishMenuPage.LoadHistoryMenuAsWritten: requires that the history's entry lists share no objects. The entries must be distinct objects for the editor's invariant to hold, and menus fetched from the server always satisfy this.
- UserOrderSummary.TotalPrice: requires a quantity in [1,5]. The page never holds any other quantity.
- CustomerMealBuilder.MealTypeForHour: requires an hour in [0,23], the range of `Date.getHours`.
- CustomerMealBuilder.ExtraRotiSurcharge: requires a count in [0,3]. The counter never holds any other count.
- CustomerPayment.DeliveryLine: treats a missing landmark as the empty string, so `undefined` and `""` are not distinguished.
- CustomerPayment.PaymentPage.HandlePayment: models the source's behaviour when the reply holds no order. The page then stays processing, with no error and no navigation.
- CustomerMyOrders.AfterFetch: `ReplyBody` has no case for an object body whose `orders` field is missing or falsy. `response.data.orders || response.data` then stores the object itself, and the filter effect fails on it. The model covers only bodies that carry a list.
- CustomerMyOrders.FormatDate: works on whole milliseconds. The fractional hour comparisons of the source agree with these.
- CustomerOrderSummary.InstructionsInput: lengths are counted in Unicode code points, while `maxLength` and the `.length` counter count UTF-16 code units. A character outside the Basic Multilingual Plane counts once here and twice in the browser, so for such text the 200-character limit holds in the model's unit, not the page's. The same holds for `PushedInstructionsFit` and `OrderSummaryPage.EditInstructions`, which rely on it.
- AdminOrders.OtpBoxValue: the 4-character cut is in code points, while `maxLength="4"` counts UTF-16 code units, so 4 characters outside the Basic Multilingual Plane are kept where the browser keeps 2. `OrderBoard.EnterOtp` stores this value.

## Findings

| source | as written | input that shows it | evidently intended | confidence | as-written member | corrected member |
|---|---|---|---|---|---|---|
| frontend/src/pages/PublishMenu.jsx:102-108 | `loadHistoryMenu` puts the history menu's own sabji objects into the editor. `toggleSpecial` and `updateSabji` (lines 96-100, 54-58) then mutate those objects in place, so the history card (lines 188-191) changes too. | Load a history menu with one non-special sabji, then toggle that sabji special: the history entry shows ★ without anything being published. | The editor works on copies of the history menu's sabjis, and the history stays as fetched. | not executed | PublishMenu.LoadThenToggleChangesHistory | PublishMenu.PublishMenuPage.LoadHistoryMenu |
