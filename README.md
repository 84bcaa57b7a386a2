# Biillo-Retail point of sale, modelled in Dafny

Biillo-Retail is a small shop's point-of-sale app. It has these pages:

- **Billing.** The cashier scans or types item codes into a cart. They can alter quantities, give a flat or percentage discount, record a customer phone and complete the sale. One switch turns the page into return mode.
- **Add stock.** Registers a new item with validated form fields and a random six-character code, then prints QR label sheets for it.
- **Manage.** Searches, edits and labels the existing items.
- **Analytics.** Shows the stock value, the low-stock count, the positive sales of a period and the inventory table with its stock column.
- **Sales.** Splits a day's bills into cash, online and udhaar (credit).
- **Udhaar register.** Lists the pending credit bills, settles them and sends reminders.

The phone app's back button is modelled too: it goes home, or exits on a double press on the dashboard.

This project models that core:

- Records are datatypes. Money is exact (`real`); see "## Left out" for what that drops.
- Each page's calculations are functions or methods with contracts.
- The state the handlers update step by step becomes classes:
  - `Billing.BillingSession`: the cart, return mode, discount and phone;
  - `Udhaar.UdhaarRegister`: the pending list and its outstanding total;
  - `BackButton.BackButtonListener`: the route and the remembered press time.
- The loops of the source are methods with loop invariants:
  - the item-code generator;
  - the label layout loop;
  - the stock write loop of checkout.
- Lemmas relate the operations to the properties the pages rely on.

The database is never called. Where a page reads or writes it, the model takes the fetched table, or a flag telling whether the request succeeded, as a parameter. It returns the rows the page would write. `Math.random()` becomes a sequence of draws in [0, 1), and `Date.now()` a clock reading.

Files:

- `base.dfy`: option and result types, sums, order-preserving filters, the JavaScript integer operators.
- `text.dfy`: ASCII case mapping, `includes`, digit stripping, `parseInt` and integer printing.
- `records.dfy`: the database rows.
- `billing.dfy`, `labels.dfy`, `inventory.dfy`, `manage.dfy`, `analytics.dfy`, `sales.dfy`, `udhaar.dfy`, `back_button.dfy`: one per page, plus the label grid shared by two pages.

## Model

| member | source | states |
|---|---|---|
| Billing.Subtotal | src/pages/billing/Billing.tsx:77 | definition: the `reduce` that adds price × pieces over the cart lines, from left to right |
| Billing.SubtotalNonNegative | src/pages/billing/Billing.tsx:77 | the subtotal, a sum of price × pieces over the cart, is non-negative for non-negative prices and quantities |
| Billing.FinalTotal | src/pages/billing/Billing.tsx:79 | the amount payable is never negative, is at least subtotal − discount, and is either 0 or exactly subtotal − discount |
| Billing.DiscountClamp | src/pages/billing/Billing.tsx:78-79 | the discount is not clamped: a discount at or above the subtotal gives a final total of 0, a smaller one is subtracted exactly, and p percent leaves (100 − p)% of the subtotal |
| Billing.IndexOf | src/pages/billing/Billing.tsx:83 | `find` by id: the first line with that id, or −1 exactly when no line has it |
| Billing.AddToCart | src/pages/billing/Billing.tsx:81-103 | definition: the cart after adding q pieces of an item, refused over stock outside return mode; its effect is stated by the AddToCart lemmas below |
| Billing.AddToCartShape | src/pages/billing/Billing.tsx:81-103 | over stock outside return mode the cart is unchanged; an existing line grows by q in place (others unchanged); otherwise one new line is appended; return mode never refuses |
| Billing.AddToCartValid | src/pages/billing/Billing.tsx:81-103 | adding keeps item ids unique and, for q > 0, every quantity positive |
| Billing.AddToCartSubtotal | src/pages/billing/Billing.tsx:77-103 | an accepted add raises the subtotal by q × the selling price, taken from the existing line's snapshot when there is one |
| Billing.AddToCartWithinStock | src/pages/billing/Billing.tsx:84-93 | in sale mode an accepted add leaves the item's line at most the looked-up stock |
| Billing.SteppedCartAbsent | src/pages/billing/Billing.tsx:192-213 | ± for an id with no line leaves the cart unchanged |
| Billing.SteppedCart | src/pages/billing/Billing.tsx:192-213 | definition: the `map` that steps the line with the id and the `filter(Boolean)` that drops the lines stepped to ≤ 0; its effect is stated by the SteppedCart lemmas below |
| Billing.SteppedCartShape | src/pages/billing/Billing.tsx:192-213 | ± on the line at position k (ids unique): a result ≤ 0 deletes the line and closes the gap; above stock in sale mode keeps the cart; otherwise only that line's quantity changes, in place |
| Billing.SteppedCartValid | src/pages/billing/Billing.tsx:192-213 | stepping keeps ids unique and quantities positive |
| Billing.SteppedCartSubtotal | src/pages/billing/Billing.tsx:192-213 | ± on the line at position k: the subtotal loses that line's amount when it is deleted, or moves by delta × the line's snapshot price when the step is accepted |
| Billing.EditedCart | src/pages/billing/Billing.tsx:223-251 | definition: the typed text read with `parseInt` and applied to the edited line, or the refusal |
| Billing.EditedCartEffect | src/pages/billing/Billing.tsx:223-251 | for the value `parseInt` gives (`EditedCart` applies these checks to `ParseInt` of the typed text): saving is refused as invalid exactly when there is no value or it is not positive, and as over stock when it exceeds the snapshot's stock outside return mode; on success exactly the edited line takes the typed quantity, and the cart keeps its invariant |
| Billing.SaveUnchangedText | src/pages/billing/Billing.tsx:215-226 | the dialog opens with the line's quantity as text, and saving that text unchanged gives back the same cart (printing then `parseInt` round trip) |
| Billing.CartWithout | src/pages/billing/Billing.tsx:260-262 | definition: the `filter` that keeps the lines with another id |
| Billing.CartWithoutMembers | src/pages/billing/Billing.tsx:260-262 | removing keeps exactly the lines with another id, in order, and changes nothing when no line has the id |
| Billing.CartWithoutEffect | src/pages/billing/Billing.tsx:260-262 | the kept subtotal plus the removed lines' amount is the old subtotal; ids stay unique and quantities positive |
| Billing.CartWithoutUnique | src/pages/billing/Billing.tsx:260-262 | with unique ids exactly one line's amount leaves the subtotal |
| Billing.BillingSession.HandleAddToCart | src/pages/billing/Billing.tsx:81-109 | the cart becomes the `AddToCart` result, the outcome tells the stock-limit refusal apart, and the session invariant is kept |
| Billing.BillingSession.AddByCode | src/pages/billing/Billing.tsx:111-156 | lookup by the upper-cased code: no row means not found; more than one row is a lookup error; a pack item opens the unit dialog with the cart unchanged; any other item adds one piece; closing the dropdown clears the search results |
| Billing.BillingSession.ChoosePackUnit | src/pages/billing/Billing.tsx:609-624 | the dialog adds a full pack or a single piece of its item and closes |
| Billing.BillingSession.UpdateQuantity | src/pages/billing/Billing.tsx:192-213 | the cart becomes the stepped cart and the invariant holds |
| Billing.BillingSession.OpenEditQuantity | src/pages/billing/Billing.tsx:215-221 | opens the dialog on the line with its quantity printed as text |
| Billing.BillingSession.TypeEditText | src/pages/billing/Billing.tsx:554-558 | the dialog's text becomes what was typed |
| Billing.BillingSession.SaveEditedQuantity | src/pages/billing/Billing.tsx:223-258 | with no dialog open nothing changes; a refused value keeps cart and dialog and reports the error; an accepted one sets the cart and closes the dialog |
| Billing.BillingSession.RemoveFromCart | src/pages/billing/Billing.tsx:260-262 | the cart loses the lines with the id and keeps its invariant |
| Billing.BillingSession.ClearCart | src/pages/billing/Billing.tsx:264-270 | cart, discount value, phone, typed code and search results are reset; the discount type is kept |
| Billing.BillingSession.SetReturnMode | src/pages/billing/Billing.tsx:653-657 | toggling sets the mode and clears the cart, so return mode never carries a discount or phone |
| Billing.BillingSession.SetDiscountType | src/pages/billing/Billing.tsx:837-852 | the discount buttons, available only for a non-empty cart outside return mode, set the type |
| Billing.BillingSession.SetDiscountValue | src/pages/billing/Billing.tsx:837-860 | the discount input, available only for a non-empty cart outside return mode, sets the value |
| Billing.BillingSession.SetCustomerPhone | src/pages/billing/Billing.tsx:837-868 | the phone input, available only for a non-empty cart outside return mode, sets the phone |
| Billing.CheckoutOf | src/pages/billing/Billing.tsx:272-322 | definition: the bill row, the item rows and the stock writes `completeSale` sends for a cart, its mode, its discount and its phone |
| Billing.BillingSession.PrepareCheckout | src/pages/billing/Billing.tsx:272-322 | empty cart exactly when nothing is sent, otherwise the rows are `Billing.CheckoutOf` of the session; the bill carries the signed subtotal, the discount (0 in return mode), the signed final total and the phone or null; one item row per line with the signed quantity and snapshot price; each stock write is snapshot stock − signed quantity, lower for a sale, higher for a return, never negative in a sale within stock |
| Billing.BillingSession.CompleteSale | src/pages/billing/Billing.tsx:272-335 | an empty cart or a failed request leaves the session as it was; success returns the rows `Billing.CheckoutOf` gives for the old cart, discount and phone, and clears the cart |
| Labels.LayOut | src/pages/inventory/AddInventory.tsx:214-225 | one placement per label in order, label k at page k / 15, row (k mod 15) / 3, column (k mod 15) mod 3, a page break before every fifteenth label but the first, and ⌈n/15⌉ pages |
| Labels.PlacedAtDetermined | src/pages/manage/Manage.tsx:216-219 | the grid cell of a label is determined by its number |
| Labels.PlacementsDisjoint | src/pages/manage/Manage.tsx:216-224 | two labels never occupy the same spot of the same page |
| Labels.LabelCount | src/pages/inventory/AddInventory.tsx:211-212 | a pack item gets the fewest labels whose packs cover the stock (⌈q/ppb⌉); any other item gets one per piece |
| Labels.LabelCountWholePacks | src/pages/inventory/AddInventory.tsx:211-212 | stock of exactly n packs gets exactly n labels |
| Labels.LabelName | src/pages/inventory/AddInventory.tsx:250-252 | names over 15 characters become their first 15 and "...", shorter ones are kept |
| Labels.LabelNameIdempotent | src/pages/manage/Manage.tsx:239 | shortening twice equals shortening once |
| Inventory.GenerateItemCode | src/pages/inventory/AddInventory.tsx:50-57 | six characters, the k-th picked from the 36-character alphabet by the k-th draw; the code is its own upper-case form, so the billing lookup finds it however it is typed |
| Inventory.Validate | src/pages/inventory/AddInventory.tsx:17-46 | the schema accepts a form exactly when every field rule and both refinements hold; a refusal lists at least one issue |
| Inventory.ValidateReports | src/pages/inventory/AddInventory.tsx:17-46 | a refused form names what it breaks: the empty name, the missing stock, the missing per-piece price of a multi-piece pack |
| Inventory.Submit | src/pages/inventory/AddInventory.tsx:131-174 | definition: the row `onSubmit` inserts, as written, or the schema's issues |
| Inventory.SubmitCorrected | src/pages/inventory/AddInventory.tsx:119-174 | definition: the same row with the quantity the page shows |
| Inventory.SubmitStores | src/pages/inventory/AddInventory.tsx:131-174 | the row `onSubmit` inserts: the code and name, at least one piece per pack (1 for a loose item), a positive per-piece price (the entered one for a multi-piece pack, else the selling price), and a positive quantity: the entered one for a loose item, packs × pieces plus the quantity field for a pack item; the corrected row differs only in its quantity, packs × pieces |
| Inventory.PackStockCountedTwice | src/pages/inventory/AddInventory.tsx:120-154 | as written, a submitted pack item stores twice the pack total the page shows |
| Inventory.PackStockCountedTwiceExample | src/pages/inventory/AddInventory.tsx:152-154 | two packs of three pieces: the page shows 6, `Inventory.Submit` as written stores 12, `Inventory.SubmitCorrected` stores 6 |
| Inventory.StoredQuantityMatchesDisplay | src/pages/inventory/AddInventory.tsx:119-125 | the corrected row (`Inventory.SubmitCorrected`) stores what the page shows, positive, at least one pack, and one label per pack |
| Inventory.ValidPackTotal | src/pages/inventory/AddInventory.tsx:115-125 | in pack mode the validated quantity field equals packs × pieces per pack |
| Inventory.DownloadQrLabels | src/pages/inventory/AddInventory.tsx:198-255 | nothing before an item is saved; otherwise the label count on the grid with the item's code, selling price, pack size and shortened name, enough labels to cover the stock of a pack item |
| Manage.SearchItems | src/pages/manage/Manage.tsx:86-94 | the list keeps, in order, exactly the items whose name, code, brand or present supplier code contains the term ignoring case |
| Manage.SearchEmptyTerm | src/pages/manage/Manage.tsx:86-94 | an empty term lists every item |
| Manage.PrintCount | src/pages/manage/Manage.tsx:199-208 | the smaller of the label count and 60: at most both, and equal to one of them |
| Manage.GeneratePdfLabel | src/pages/manage/Manage.tsx:191-246 | a count of 0 is "No Stock"; otherwise the capped count of labels on the grid, with the item's code, selling price, pack size and shortened name |
| Manage.PrintCountCovers | src/pages/manage/Manage.tsx:203-208 | below the cap the labels of a pack item cover its whole stock |
| Manage.ValidateEdit | src/pages/manage/Manage.tsx:51-56 | the edit form is accepted exactly for a name, two positive prices and a whole stock of at least 0 |
| Manage.ApplyEdit | src/pages/manage/Manage.tsx:131-143 | the update sets exactly the four edited columns and leaves the rest of the row |
| Manage.EditOwnValues | src/pages/manage/Manage.tsx:96-107 | the dialog opens with the item's values, and saving them unchanged is accepted and leaves the row as it was |
| Analytics.ValuationBounds | src/pages/analytics/Analytics.tsx:74-86 | investment and potential revenue are non-negative, and revenue covers investment when no item sells below cost |
| Analytics.ValuationMargin | src/pages/analytics/Analytics.tsx:74-86 | revenue minus investment is the margin summed over the items |
| Analytics.LowStockCount | src/pages/analytics/Analytics.tsx:90 | the count lies between 0 and the number of items, and is 0 exactly when no item has fewer than 5 pieces |
| Analytics.LowStockSplit | src/pages/analytics/Analytics.tsx:90 | low and well-stocked items together are all items |
| Analytics.PositiveSalesTotal | src/pages/analytics/Analytics.tsx:95-118 | the period's sales sum only positive bills and are never negative |
| Analytics.PositiveSalesSplit | src/pages/analytics/Analytics.tsx:95-118 | the positive sales plus the refunds and zero bills is the net takings, so they are at least the net takings |
| Analytics.StockSplit | src/pages/analytics/Analytics.tsx:166-167 | for stock of at least 0, packs × ppb + loose pieces is the stock, with fewer loose pieces than a pack; for negative stock both parts are ≤ 0 |
| Analytics.StockSplitNegative | src/pages/analytics/Analytics.tsx:167 | negative stock does not rebuild: −3 with packs of 2 shows −2 units and −1 piece |
| Analytics.Plural | src/pages/analytics/Analytics.tsx:167-168 | the count text reads back as the count, and ends in "s" exactly when the count is not 1 |
| Analytics.StockDisplay | src/pages/analytics/Analytics.tsx:165-168 | definition: "u unit(s) + r pc(s)" for a pack item, "q pc(s)" otherwise |
| Analytics.StockDisplayReadsBack | src/pages/analytics/Analytics.tsx:166-168 | the stock column reads back as the piece count for a loose item; for a pack item it reads back as the pack count, the units text is followed by " + ", and the text after it reads back as the loose pieces |
| Analytics.InventoryQueryIsManageSearch | src/pages/analytics/Analytics.tsx:157-163 | the inventory table's test is the manage page's search test |
| Analytics.InventoryRows | src/pages/analytics/Analytics.tsx:156-169 | the rows show exactly the items that match the query, in their fetched order, and each row's stock text reads back as the item's pack count (pack item) or piece count |
| Analytics.InventoryRowsAreSearchResults | src/pages/analytics/Analytics.tsx:156-163 | the table's items are the manage search's result for the same text, in the same order |
| Sales.ItemsCount | src/pages/sales/Sales.tsx:91-94 | the item count is at least 0, and 0 exactly when every line has quantity 0 |
| Sales.ItemsCountAppend | src/pages/sales/Sales.tsx:93 | the count of two runs of lines is the sum of their counts |
| Sales.ItemsCountIgnoresSign | src/pages/sales/Sales.tsx:93 | a return shows the same count as the sale it mirrors |
| Sales.ItemsCountOfCart | src/pages/sales/Sales.tsx:91-94 | a bill written from a cart shows the cart's number of pieces, for a sale and for a return |
| Sales.AddBillOneBucket | src/pages/sales/Sales.tsx:108-124 | each bill adds its absolute amount to the total and to exactly one box: pending to udhaar whatever the method, paid online to online, any other paid bill to cash |
| Sales.CalculateStats | src/pages/sales/Sales.tsx:106-126 | total = cash + online + udhaar, and all four are ≥ 0 |
| Sales.StatsAreBucketSums | src/pages/sales/Sales.tsx:106-126 | each box is the sum of the absolute amounts of exactly the bills counted in it, and the total that of all bills |
| Sales.BucketsPartition | src/pages/sales/Sales.tsx:115-122 | every bill is counted in one box: the box sizes add up to the number of bills |
| Sales.PaymentLabel | src/pages/sales/Sales.tsx:144-148 | definition: "Udhaar" for a pending bill, else "Online" or "Cash" by method |
| Sales.PaymentLabelMatchesBucket | src/pages/sales/Sales.tsx:144-148 | a bill's label names the box it is counted in, and the three labels are distinct |
| Udhaar.SettleMatchesRefetch | src/pages/udhaar/Udhaar.tsx:88-107 | the local list after a settle is what fetching the pending bills of the updated table again would give |
| Udhaar.RemoveBillTotal | src/pages/udhaar/Udhaar.tsx:107-108 | with unique ids, dropping the settled bill lowers the sum of what is owed by exactly its absolute amount |
| Udhaar.RemovedOne | src/pages/udhaar/Udhaar.tsx:107 | with unique ids exactly one bill leaves the list |
| Udhaar.FilteredBills | src/pages/udhaar/Udhaar.tsx:137-140 | the shown bills, in order, are those whose lower-cased name contains the lower-cased query or whose phone contains the query as typed |
| Udhaar.FilteredEmptyQuery | src/pages/udhaar/Udhaar.tsx:137-140 | an empty query shows every bill |
| Udhaar.SendReminder | src/pages/udhaar/Udhaar.tsx:122-134 | a missing or empty phone is an error with no message; otherwise the target is "91" followed by only the phone's digits, greeting the name when it is present and not empty and "Customer" otherwise, and the amount is exactly the bill's amount without sign |
| Udhaar.ReminderIgnoresFormatting | src/pages/udhaar/Udhaar.tsx:134 | phones with the same digits get the same target, and stripping a phone to its digits first changes nothing |
| Udhaar.UdhaarRegister.FetchPendingBills | src/pages/udhaar/Udhaar.tsx:52-80 | on success the list is the table's pending bills in order and the total is what they owe; on failure nothing changes |
| Udhaar.UdhaarRegister.SetSearchQuery | src/pages/udhaar/Udhaar.tsx:181 | the search text becomes what was typed and nothing else changes |
| Udhaar.UdhaarRegister.OpenSettle | src/pages/udhaar/Udhaar.tsx:228-231 | settling a shown bill opens the dialog on it with cash chosen |
| Udhaar.UdhaarRegister.ChoosePaymentMethod | src/pages/udhaar/Udhaar.tsx:264-274 | the dialog's method is cash or online |
| Udhaar.UdhaarRegister.CloseSettle | src/pages/udhaar/Udhaar.tsx:244-281 | closing the dialog forgets the bill |
| Udhaar.UdhaarRegister.SettlePayment | src/pages/udhaar/Udhaar.tsx:82-120 | with no bill selected nothing happens; the update asks for the selected bill with the chosen method; failure changes nothing; success removes exactly that bill, lowers the total by its absolute amount, closes the dialog, and keeps total = sum of what is owed |
| BackButton.OtherPageGoesHome | src/App.tsx:62-65 | off the dashboard a press navigates home and the remembered time stays |
| BackButton.DashboardPress | src/App.tsx:48-61 | on the dashboard a press exits exactly when now − last < 2000 ms, a clock set back included; otherwise it warns and remembers now |
| BackButton.WarningThenPress | src/App.tsx:48-61 | after a warning, a press within two seconds exits and a later one warns again |
| BackButton.FirstPressWarns | src/App.tsx:28-61 | from the initial time 0 a first press on a real clock only warns |
| BackButton.BackButtonListener.Press | src/App.tsx:44-66 | the action and the new remembered time are the listener's decision on the old state; navigating home sets the route to "/" |

## Left out

- Database I/O. The requests themselves, the ordering by `created_at` and the error messages are abstracted: each request is a table parameter or a success flag, and the model returns the rows the page writes. What the page does with a response is modelled, such as the no-row and many-row errors of `maybeSingle` in `Billing.BillingSession.AddByCode`.
- Floating point. Money is exact `real` arithmetic, not JavaScript's binary floating point. So the equalities between the udhaar page's running total, which it lowers in place on each settle, and the sum a refetch would give (`Udhaar.RemoveBillTotal`, `Udhaar.SettleMatchesRefetch`) hold exactly here, while in the app rounding can make them drift; subtotals, discounts and valuations are exact in the same way.
- Checkout is written as if atomic. In the source the bill, its items and each stock write are separate requests, and a failure midway leaves earlier writes in place.
- Concurrency. Two cashiers selling the same item at once, and React's batching of state updates, are not modelled.
- Printing and sharing. `printBill`, WhatsApp text encoding, the XLSX export, and the jsPDF drawing calls (QR images, fonts, text positions inside a label) are left out. So are `toFixed`, `Intl` currency formatting, the date text of a reminder, and the text of a label's price ("₹" on the add-stock sheet, "Rs. " on the manage sheet); the sheets record the price as a number.
- Dates and clocks. The day and month ranges of the queries, the Sales page's date navigation, and the 7-day chart of the analytics page are left out. `Date.now()` is a parameter.
- `Labels.LabelName`: measures and cuts names by Unicode characters. JavaScript's `length` and `substring` count UTF-16 code units, so a name with characters outside the Basic Multilingual Plane (an emoji) is cut at a different place by the source, perhaps inside a surrogate pair. The model agrees with the source on names of BMP characters.
- `Text.ToLower`, `Text.ToUpper`: only ASCII letters change case; JavaScript's full Unicode case mapping is not modelled.
- `Text.ParseInt`: skips only space, tab, newline and carriage return before the number, not every JavaScript whitespace character; digits are ASCII.
- NaN and string coercion. The form inputs arrive as the numbers `z.coerce.number()` produces. Text that coerces to NaN is not modelled. Neither is the rule that zod skips the refinements once a check aborted the parse: every issue is collected here.
- `Inventory.GenerateItemCode`: `Math.random()` is replaced by the six draws passed in.
- Cart snapshots. A cart line keeps the item snapshot of its first add: a later scan of the same item adds to that line and checks stock against the freshly fetched row, but the line keeps the old price and stock. The model follows the source here.
- Negative stock display. For oversold (negative) stock, JavaScript's truncating `%` and the floored pack count do not add back up; `Analytics.StockSplitNegative` shows the case.
- The billing page's search dropdown query (`ilike` on the item code or the item name, at most 5 rows) and the typed-code field's handling are left out; only the lookup by code that adds to the cart is modelled.
- Manage page: item deletion (`handleDelete`) and the fetching of the item list are left out.
- Settings page and platform code: the status bar, the Electron and Capacitor setup, and the other pages are not part of this model.
- Payment columns of a new bill. The billing page sends no payment status or method, so the bill row leaves them to the database's defaults. How a bill becomes pending credit is not visible in these pages.

## Findings

| source | as written | input that shows it | evidently intended | confidence | as-written member | corrected member |
|---|---|---|---|---|---|---|
| src/pages/inventory/AddInventory.tsx:120-154 | In pack mode the form already writes packs × pieces into the quantity field, and `onSubmit` stores `numBoxes * piecesPerBox + quantity`. That is packs × pieces counted twice. | 2 packs of 3 pieces: the page shows "Total Quantity" 6, and the row stores 12 | store the total the page shows, `numBoxes * piecesPerBox` | not executed | Inventory.Submit, Inventory.SubmitStores, Inventory.PackStockCountedTwice, Inventory.PackStockCountedTwiceExample | Inventory.SubmitCorrected, Inventory.StoredQuantityMatchesDisplay |
