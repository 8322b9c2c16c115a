# Mahia Travesuras shopping cart, modelled in Dafny

This project models the cart and checkout logic of the Mahia Travesuras
storefront script `scripts/inicio.js`. That logic covers:

- the in-memory cart of line items (`{ name, price, qty }`) and the
  operations on it: add, remove, change quantity, clear, and the unit count
  on the cart badge;
- the price of a product as `parsePrice` reads it off a product card;
- the subtotal, the delivery fee (8000 pesos for delivery orders under
  170000) and the total;
- the checkout button: an empty-cart notice, the delivery form or the pickup
  prompt;
- the validation of the delivery form, where every field must be non-empty
  after trimming;
- the WhatsApp order message `buildWhatsAppMessage` writes.

Each operation is a pure function from the cart before to the cart after. The
page state the script reads from the DOM becomes a parameter:

- the checked shipping radio button;
- the values typed into the form fields;
- the customer's answer to a prompt;
- the currency formatter `formatCOP`, passed as an arbitrary `fmt: int -> string`.

Modules: `Wrappers` (Option), `Numbers` (digits, numerals, `parsePrice`),
`Text` (join, split, trim), `Cart`, `Pricing`, `Message`, `Checkout`.

Two behaviours of the script worth stating plainly:

- `handleCheckout` (scripts/inicio.js:209-241) has only three branches: an
  empty cart, delivery and pickup. `Checkout.HandleCheckout` has the same three.
- `removeItemFromCart` (scripts/inicio.js:124-127) keeps every entry whose
  name differs (`filter`, line 125), so it drops all entries with that name,
  not only the first. `Cart.Remove` states that.

## Model

| member | source | states |
|---|---|---|
| Cart.FindIndex | scripts/inicio.js:112 | -1 exactly when no entry has the name; otherwise an entry with the name and no earlier one |
| Cart.FirstIsFindIndex | scripts/inicio.js:112 | the index `findIndex` returns is the one and only first entry with the name |
| Cart.Add | scripts/inicio.js:114-121 | a new name is appended at the end with the given price and quantity; for a known name the length, every name and every price are unchanged and only the first entry with that name gains `qty` units |
| Cart.AddKeepsValid | scripts/inicio.js:114-121 | adding positive units keeps names unique and quantities positive |
| Cart.AddToUniqueCart | scripts/inicio.js:114-121 | in a cart with unique names, adding raises exactly the entry carrying the name and leaves every other entry equal |
| Cart.AddUnits | scripts/inicio.js:99-121 | adding `qty` units raises the badge count by exactly `qty`, whether the name is new or known |
| Cart.AddAll | scripts/inicio.js:114-121 | a sequence of adds raises the unit count by the sum of their quantities |
| Cart.AddToLast | scripts/inicio.js:114-121 | adding to a product that is the last entry only grows that entry and keeps its stored price |
| Cart.RepeatedAdds | scripts/inicio.js:114-121 | repeated adds of a new product leave one entry at the end with the first price and the summed quantity |
| Cart.Remove | scripts/inicio.js:124-127 | the result holds exactly the entries of the cart whose name differs; the name is gone; an absent name leaves the cart unchanged |
| Cart.RemoveKeepsValid | scripts/inicio.js:124-127 | removal keeps names unique and quantities positive |
| Cart.RemoveAppend | scripts/inicio.js:124-127 | removal distributes over concatenation, so surviving entries keep their order |
| Cart.ClampQty | scripts/inicio.js:132 | the stored quantity is at least 1; a floor of 1 or more is kept; NaN, 0 and anything below 1 become 1 |
| Cart.ChangeQty | scripts/inicio.js:129-135 | only the first entry with the name gets the clamped quantity; names, prices and all other entries are unchanged; an absent name changes nothing |
| Cart.ChangeQtyKeepsValid | scripts/inicio.js:129-135 | changing a quantity keeps names unique and quantities positive |
| Cart.Clear | scripts/inicio.js:174-183 | the cart ends empty, and the notice is shown exactly when it had entries |
| Cart.Units | scripts/inicio.js:101 | with positive quantities, the unit count is at least the number of entries |
| Cart.UnitsAppend | scripts/inicio.js:101 | the unit count of two carts joined is the sum of their counts |
| Cart.UnitsUpdate | scripts/inicio.js:101 | changing one entry's quantity by `delta` changes the count by `delta` |
| Cart.Badge | scripts/inicio.js:99-108 | the badge shows the unit count when it is positive and is hidden otherwise |
| Cart.BadgeShownIffNonEmpty | scripts/inicio.js:99-108 | with positive quantities, the badge is shown exactly when the cart has entries |
| Pricing.Subtotal | scripts/inicio.js:137 | the subtotal of an empty cart is 0 and never negative when quantities are positive |
| Pricing.SubtotalAppend | scripts/inicio.js:137 | the subtotal of two carts joined is the sum of their subtotals |
| Pricing.SubtotalPermutation | scripts/inicio.js:137 | any rearrangement of the same entries has the same subtotal |
| Pricing.SubtotalUpdate | scripts/inicio.js:137 | replacing one entry changes the subtotal by the difference of the two entries' costs |
| Pricing.AddSubtotalKnown | scripts/inicio.js:114-137 | adding units of a known product raises the subtotal by `qty` times the stored price; the price passed with the add is ignored |
| Pricing.AddSubtotalNew | scripts/inicio.js:114-137 | adding a new product raises the subtotal by its price times `qty` |
| Pricing.Shipping | scripts/inicio.js:139-142 | the fee is 0 or 8000, and 8000 exactly for delivery with a subtotal strictly between 0 and 170000 |
| Pricing.ComputeTotals | scripts/inicio.js:144-147 | the total is subtotal plus fee; pickup or an empty cart pays no fee; a subtotal at or above the threshold pays no fee |
| Pricing.PickupIsFree | scripts/inicio.js:139-142 | pickup orders never pay shipping |
| Pricing.ShippingCliff | scripts/inicio.js:6-7 | a delivery order just under the threshold costs more in total than one at the threshold |
| Pricing.DressScenario | scripts/inicio.js:114-147 | two dresses at 50000 then one more: one entry of three units, subtotal 150000, fee 8000, total 158000 |
| Numbers.ParsePrice | scripts/inicio.js:111 | text without digits parses to 0; the result is below 10 to the number of digits |
| Numbers.ParsePriceIgnoresNonDigit | scripts/inicio.js:111 | inserting a non-digit character anywhere does not change the parsed price |
| Numbers.ParsePriceOfDecorated | scripts/inicio.js:111 | any text whose digits spell the numeral of `n` parses to `n` |
| Numbers.ValueOfLeadingZero | scripts/inicio.js:111 | a leading zero does not change the value of a digit string |
| Numbers.ValueOfZeros | scripts/inicio.js:111 | any number of leading zeros leaves the value of a digit string unchanged |
| Numbers.ParsePricePadded | scripts/inicio.js:111 | text whose digits are some zeros followed by the numeral of `n` ("$ 05") parses to `n`, as `Number` ignores leading zeros |
| Numbers.ParsePriceDecimal | scripts/inicio.js:111 | the plain numeral of `n` parses back to `n` |
| Numbers.ValueOfDecimal | scripts/inicio.js:111 | the value of the decimal numeral of `n` is `n` |
| Numbers.DigitsOfGrouped | scripts/inicio.js:111 | a '.'-grouped numeral keeps exactly the digits of the plain numeral |
| Numbers.ParsePriceOfPesoLabel | scripts/inicio.js:295 | a card price written as a digit-free prefix and a '.'-grouped amount parses back to that amount |
| Numbers.ParsePriceExamples | scripts/inicio.js:111 | "$ 45.000" parses to 45000 and the empty text to 0 |
| Numbers.IntToString | scripts/inicio.js:263 | the quantity as written into the message starts with '-' exactly for negatives and is the plain numeral otherwise |
| Text.Trim | scripts/inicio.js:245-247 | the result is the input without leading and trailing white space; it is empty exactly when the input is all white space |
| Text.TrimIdempotent | scripts/inicio.js:245-247 | trimming twice is trimming once |
| Text.TrimKeepsOut | scripts/inicio.js:245-247 | trimming never introduces a character the input lacked |
| Text.SplitJoin | scripts/inicio.js:282 | lines free of the separator, once joined, split back into the same lines |
| Text.JoinSplit | scripts/inicio.js:282 | splitting a text and joining the pieces gives the text back |
| Message.ItemLines | scripts/inicio.js:263 | one line per cart entry, in cart order, each `  - qty x name (price)` |
| Message.Closing | scripts/inicio.js:274-281 | with delivery details: four lines starting with the heading; without: the single pickup line (the Nombre, Dirección and Celular lines are fixed by `Message.MessageContents`) |
| Message.Build | scripts/inicio.js:258-283 | the message begins with the greeting |
| Message.BuildIsJoinedLayout | scripts/inicio.js:258-283 | the joined message array equals the joined line layout, with the embedded line breaks becoming line boundaries |
| Message.MessageLines | scripts/inicio.js:258-283 | when no name, field or formatted amount holds a line break, splitting the message at line breaks gives exactly the layout |
| Message.MessageContents | scripts/inicio.js:258-283 | line by line: the greeting, each cart entry on line 3 onwards, subtotal, method label, fee and total of the cart, then the pickup line or the heading, name, address and phone |
| Checkout.SelectedMethod | scripts/inicio.js:138 | the method is delivery exactly when no radio is checked, its value is empty, or it is "delivery" |
| Checkout.FeeFollowsSelection | scripts/inicio.js:138-142 | the fee is charged exactly when the radio reads as delivery and the subtotal lies strictly between 0 and the threshold |
| Checkout.HandleCheckout | scripts/inicio.js:209-241 | an empty cart gives the empty-cart notice; otherwise delivery opens the form and pickup opens the confirmation prompt |
| Checkout.SubmitDeliveryForm | scripts/inicio.js:243-256 | rejected exactly when a field is all white space; otherwise the details are the non-empty trims of the fields and the message is built with them |
| Checkout.RunCheckout | scripts/inicio.js:209-256 | an empty cart or a dismissed step sends nothing |
| Checkout.SentExactly | scripts/inicio.js:209-256 | a message is sent exactly when the cart has entries and either pickup is accepted or delivery has all three fields filled |
| Checkout.SentIsOrderMessage | scripts/inicio.js:209-256 | a sent message is the order message of the cart and method, with the trimmed fields for delivery and no details for pickup |
| Checkout.SentMessageReadsBack | scripts/inicio.js:209-283 | a sent message, split at line breaks, is the layout of the order with the details that were sent |

## Left out

- The DOM: rendering the cart panel, the badge element, the totals elements, the modal and the navigation menu. `Cart.Badge` and `Pricing.ComputeTotals` stand for what they display.
- Toasts and `alert`: they are shown as outcomes (`Cart.Clear`'s flag, `Checkout.Step`, `Checkout.FormOutcome.Rejected`), without their text or timing.
- `window.open` with the `wa.me` link and `encodeURIComponent`: the model ends with the message text that would be sent, so the phone number constant and URL encoding are not modelled.
- `formatCOP` (`Intl.NumberFormat` for es-CO pesos): it is an arbitrary parameter `fmt`; the only assumption made about it is that its output has no line break, in the lemmas that read the message line by line.
- JavaScript number semantics: prices and quantities are unbounded integers. So there is no floating-point rounding, no NaN or Infinity in sums, and no precision loss past 2^53. `Cart.ClampQty` models only NaN (as `None`) among the special inputs, not ±Infinity.
- `parsePrice(null)` / `undefined`: the `text || ''` fallback maps them to the empty text, which the model covers as `ParsePrice("")`.
- Numbers.ParsePrice: does not model `Number(...)` of a digit string longer than about 15 digits, which loses precision in JavaScript.
- `addItemToCart`'s default `qty = 1` is an explicit parameter; product buttons always pass the default.
- The shipping method and the cart can both change while the delivery modal or the pickup prompt is open: the prompt is a toast that does not block the page, entries can still be removed, and `buildWhatsAppMessage` re-reads the method and `cartItems` when the customer confirms (lines 236, 253, 259-263). The script can therefore send a message for a changed, even empty, cart. `Checkout.RunCheckout` fixes the cart and the method for the whole checkout, so `Checkout.SentExactly` and `Checkout.SentIsOrderMessage` speak of the cart as it was when the checkout button was pressed.
- `closeModal`, `toggleCart`, `toggleNavMenu` and the Instagram links are UI only.
- Checkout.SentMessageReadsBack: holds only when product names, form fields and formatted amounts contain no line break. Otherwise the message has more lines than entries, as in the script.
