# Khozza storefront: cart and checkout, modelled in Dafny

`script.js` runs the shop's cart and checkout pages in the browser. This
project models its logic and proves properties of that model:

- the cart kept under the storage key `cart`: adding by name, removing by
  position, the two ways the page totals it, and the checkout gate;
- the checkout form's four rules and the `<script>` sanitiser;
- the five-tick countdown that stages the customer's details;
- the twelve-digit UPI-reference gate;
- the order number `KHOZZA-YYYYMMDD-NNNN`;
- `confirmOrder`, which appends one order under `khozzaOrders` and clears
  the cart.

Modules, one file each:

- `options.dfy` (`Options`): the `Option` type.
- `strings.dfy` (`Strings`): the built-ins the script leans on.
  - `String.prototype.trim`, with ECMAScript's full whitespace set.
  - `\d` (ASCII digits only), `String(n)` and `padStart`.
  - `toFixed(2)`, on amounts held as whole paise.
  - `replace(/<script>/gi, '')`. Without the `u` flag, only ASCII letters
    fold onto the ASCII letters of `<script>`.
- `carts.dfy` (`Carts`): the cart as a sequence of entries, its operations
  as functions, and the two totals.
  - The `reduce` is a function.
  - The `forEach` accumulation is a method with a loop.
- `orders.dfy` (`Orders`): contact details, the order record, the UPI gate
  and `generateOrderId`.
- `store.dfy` (`Storage`): class `Store`, whose two fields are the two
  storage keys. Its methods are the cart-page functions and the storage
  half of `confirmOrder`.
- `checkout.dfy` (`Checkout`): the form rules, `validateAndSave`, and the
  countdown as a step function. Class `Session` holds what the page keeps:
  - the phase;
  - the staged details (the script's `window.tempOrder`);
  - the error flags.

Money is a natural number of paise, so totals are exact.

A storage key is `Missing`, `Corrupt`, `Null` or `Saved(list)`:

- `Missing` reads as the empty list (`|| '[]'`). Removing a key makes it
  `Missing`.
- `Corrupt` is non-empty text that `JSON.parse` rejects. Parsing throws,
  the surrounding `catch` shows its notice, and nothing is written.
- `Null` is the JSON value `null`. Parsing succeeds, but a list operation
  on it throws. The cart-page operations then write nothing (`removeItem`
  with a negative index stops at its bounds test before touching the
  list, also writing nothing). A `null` orders key throws at `push`,
  before anything is written. A `null` cart in `confirmOrder` is
  different: the order is written with `null` items, the cart key is
  removed and the confirmation shown, and only then does the item count
  throw, so the catch block's notice follows a placed order
  (`PlacedThenFailed`).

## Model

| member | source | states |
|---|---|---|
| Strings.TrimStartSplits | script.js:138 | trim's leading pass drops a prefix that is all whitespace, and what remains does not start with whitespace |
| Strings.TrimEndSplits | script.js:138 | trim's trailing pass drops a suffix that is all whitespace, and what remains does not end with whitespace |
| Strings.TrimFacts | script.js:138-142 | a trimmed value is empty exactly when the input is all whitespace; otherwise it neither starts nor ends with whitespace; it is never longer |
| Strings.DecimalStringValue | script.js:130-133 | `String(n)` reads back as n |
| Strings.DecimalStringLength | script.js:133 | a number in [10^(k-1), 10^k) is spelled with exactly k digits |
| Strings.TwoDigits | script.js:130-131 | `String(n).padStart(2, '0')` for n < 100 is two digits that read back as n |
| Strings.FormatAmountValue | script.js:63 | `toFixed(2)` on an amount in paise gives rupee digits, a point and two paise digits that together read back as the amount |
| Strings.StripScriptTags | script.js:174-177 | the sanitiser never lengthens a value, and the number of characters it deletes is a multiple of eight |
| Strings.StripDeletesTag | script.js:174-177 | the global replace scans left to right: text in which no tag starts is kept, the first tag after it is deleted, and the scan resumes right after that tag |
| Strings.NoTagUnchanged | script.js:174-177 | a value with no `<script>` in any letter case comes back unchanged |
| Strings.TagShrinks | script.js:174-177 | a value holding a `<script>` in any letter case comes back strictly shorter |
| Strings.StripUnchangedIffNoTag | script.js:174-177 | the sanitiser changes a value exactly when it holds a `<script>` in any letter case |
| Strings.DigitsUnchanged | script.js:175-176 | a string of digits, such as an accepted phone or pincode, passes the sanitiser unchanged |
| Strings.StripIsSinglePass | script.js:174 | one pass over `<scr<script>ipt>` leaves `<script>` behind |
| Carts.FindByName | script.js:23 | `cart.find` by name: the first entry with that name, or none when no entry has it |
| Carts.AddItem | script.js:22-26 | merge by name: a present name's quantity goes up by one and nothing else changes; otherwise one entry with quantity 1 is appended at the end |
| Carts.AddItemKeepsValid | script.js:22-26 | adding keeps names unique and quantities positive |
| Carts.AddTwiceMerges | script.js:23-25 | adding a new name twice gives one entry with quantity 2, and keeps the first price and images |
| Carts.AddItemQty | script.js:24-25 | adding raises that name's unit count by exactly one and leaves every other name's count alone |
| Carts.AddItemTotal | script.js:24-25 | adding raises the total by the unit price: the stored price when the name is present, the given price otherwise |
| Carts.RemoveAt | script.js:74 | `splice(index, 1)` removes exactly entry `index` and keeps the others in order |
| Carts.RemoveAtKeepsValid | script.js:73-74 | removing keeps names unique and quantities positive |
| Carts.RemoveAtTotalAndQty | script.js:74 | removing takes exactly that entry's line amount off the total and its quantity off its name's count |
| Carts.ReduceTotalIsTotal | script.js:62 | the `reduce` computes the sum of price times quantity over the cart |
| Carts.AccumulateTotal | script.js:103-109 | the `forEach` accumulation equals the cart total and the `reduce` |
| Carts.TotalLabelShowsTotal | script.js:40-63 | the total element is empty exactly for an empty cart, and otherwise shows the cart total to two decimals |
| Orders.UpiRefExamples | script.js:207 | the gate refuses a short reference and one holding a letter, and accepts twelve digits |
| Orders.RandomSuffix | script.js:132 | the random suffix lies in [1000, 9999] |
| Orders.GenerateOrderId | script.js:127-134 | an order number starts with `KHOZZA-` |
| Orders.DateStampValue | script.js:129-131 | for a four-digit year and a calendar date, the date part is eight digits that read back as the date |
| Orders.OrderIdLayout | script.js:127-134 | for a four-digit year the order number is 20 characters: the prefix, eight date digits, a dash at index 15, and four digits reading back as the suffix |
| Storage.Store.constructor | script.js:22 | a browser that never stored either key reads both as empty lists |
| Storage.Store.AddToCart | script.js:20-32 | a readable cart gets the merged cart written back, and a valid cart stays valid; an unreadable one is left alone; the orders never change |
| Storage.Store.RemoveItem | script.js:70-82 | an in-bounds index writes the cart without that entry; any other index, or an unreadable cart, writes nothing |
| Storage.Store.GoToCheckout | script.js:84-96 | navigates exactly when the stored cart reads as a non-empty list |
| Storage.Store.LoadCart | script.js:34-68 | the total element is empty exactly for an empty cart and shows the formatted total otherwise; an unreadable cart is reported as an error |
| Storage.Store.LoadProductSummary | script.js:98-125 | the error message exactly for an unreadable cart, the "no items" guidance exactly for an empty one, and otherwise the cart total |
| Storage.Store.ConfirmOrder | script.js:202-222 | a reference that is not twelve digits after trimming changes nothing; otherwise, when the cart parses and the orders read as a list, exactly one order is appended, holding the prior cart (or `null` for a `null` cart), status `Confirmed` and the reference, and the cart key is removed; a `null` cart is reported as a failure after that write; in every other case nothing changes |
| Checkout.FormErrorsMeaning | script.js:152-171 | a name or address error is raised exactly for an all-whitespace value, and no error is raised exactly when all four rules pass |
| Checkout.ValidateForm | script.js:136-177 | every rule runs and flags its own field; the sanitised details are staged exactly when the form is valid |
| Checkout.PhoneRuleExamples | script.js:158-163 | a phone with a letter fails; ten digits with a six-digit pincode pass |
| Checkout.StagedFromValidForm | script.js:173-177 | on a valid form the phone and pincode are staged as typed after trimming, with the country code in front of the phone; a name or address changes exactly when it holds a tag |
| Checkout.TagOnlyNameStagedEmpty | script.js:152-174 | the rules run before the sanitiser, so a name that is only a `<script>` tag is accepted and staged empty |
| Checkout.CountdownStillRunning | script.js:180-186 | before k ticks a countdown started at k still shows k minus the ticks run |
| Checkout.CountdownRunsOut | script.js:180-194 | after exactly k ticks a countdown started at k reaches the UPI step with its details staged |
| Checkout.TicksAfterCountdownIdle | script.js:186-187 | once the interval is cleared, further ticks change nothing |
| Checkout.Session.ValidateAndSave | script.js:136-182 | the errors are cleared and each field's flag is set by its rule; a valid form starts the countdown at 5 holding the sanitised details; an invalid one stages and starts nothing |
| Checkout.Session.Tick | script.js:183-195 | one interval callback moves the phase and the staged details one countdown step |
| Checkout.Session.ConfirmOrder | script.js:202-222 | the reference error shows exactly when the reference is refused; an order is written exactly when the reference passes, the cart parses and the orders read as a list; it holds the staged details, the prior cart (or `null`), the amount, the generated order number, status `Confirmed` and the trimmed reference, is appended to the orders, clears the cart and shows its number, and for a `null` cart the error notice follows; otherwise the phase and the store are unchanged |

## Left out

- Rendering is not modelled. That covers `innerHTML` templates, `aria-invalid` attributes, `alert`, the overlay and the showing or hiding of sections.
- `localStorage` and JSON are abstracted to the four-state key (`Missing`, `Corrupt`, `Null`, `Saved`). A stored list whose entries have the wrong field types is not modelled.
- `getItem`, `setItem` and `removeItem` are assumed not to throw; a full or disabled storage is not modelled. In the browser a failing `setItem('khozzaOrders', …)` at line 217 would skip line 218 and leave both keys as they were, where `Storage.Store.ConfirmOrder` reports a placed order.
- Races between tabs writing the same key are not modelled.
- Timers are not modelled. `setInterval` is a `Tick` step that the page calls.
- A second submit during a running countdown starts a second timer in the browser. The model keeps only one countdown, the latest.
- `Date` and `Math.random` are parameters: the year, month and day, and a draw in [0, 1).
- `totalAmount` in `validateAndSave` and `confirmOrder` is not declared in the script. It resolves only through the browser's named-element access. The model passes the order amount to `ConfirmOrder` as a parameter instead.
- Checkout.CountdownRunsOut: assumes `totalAmount` holds a number. If it is an element, or undeclared, line 192 throws inside the timer callback, before line 193 stages the details; the UPI section is then shown with nothing staged. `AfterTick`, `Session.Tick` and this lemma stage the details unconditionally.
- Checkout.Session.ConfirmOrder: assumes `totalAmount` holds a number. Otherwise line 214 (undeclared) throws before anything is written, or line 222 (an element) throws after the order is written and the cart removed, so the error notice follows a placed order.
- Stored JSON that parses to something other than an array or `null` is not modelled. For example, `goToCheckout` navigates on a stored string, and `loadProductSummary` shows the no-items guidance on a stored object.
- Floating point is not modelled. Prices are whole paise, so `toFixed(2)` is exact. Rounding of fractional or very large amounts is out of scope.
- `toggleMenu`, `preloadImages`, the Swiper set-up, the year stamp and `copyOrderID` are not modelled. They are page decoration and asynchronous browser calls.
- Storage.Store.AddToCart: the entry is updated as a new sequence value. The in-place `item.qty += 1` on the parsed array has no other reader, so no aliasing is lost.
