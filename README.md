# Shopping-cart store of the juicart shop script

This project models the cart kept by the shop's browser script
(`js/script.js`): one page-global ordered list of line items
`{name, price, quantity, image}` in which the name acts as the key, mirrored
into the browser's local storage after every change. The pages call four
operations on it — add a product, remove a product, change a quantity typed
into a cart line, and complete the purchase — and two renders that total it
(the cart view and the checkout order summary).

Layout:

- `wrappers.dfy` — `Option`, standing for JavaScript's `undefined`, `NaN` or a missing page element.
- `js_text.dfy` — module `JsText`: the two string built-ins the script relies on, `String.prototype.trim` and one-argument `parseInt` (ECMA-262 sections 22.1.3.32 and 19.2.5), with their whitespace set, optional sign and `0x` prefix.
- `cart.dfy` — module `Cart`: the line item, the `find` and `filter` helpers, the new list each operation produces (`Added`, `WithQuantity`, `Without`), the total (`Sum`, and the looping `ComputeTotal` that rendering runs), and the lemmas relating them.
- `cart_store.dfy` — module `Store`: class `CartStore` with the in-memory cart `items` and the stored copy `stored`; its methods are the script's operations, each stating the new cart in terms of the old one and that `stored == items` after every successful change, while every refused call leaves both untouched. `Store.ExampleSession` walks one session through the store: a mug added twice (total 1998 paise), a non-numeric quantity ignored, the quantity set to 0 emptying the cart, and checkout of the empty cart refused.

Money is whole paise, so `price * quantity` is exact. Three behaviours of
the code are kept exactly as written:

- addToCart checks only that the price is of type number (js/script.js:32), so a price of 0 is accepted; `Cart.OperationsKeepWellFormed` shows that such an entry then makes every render fail its integrity check (js/script.js:122, 196).
- updateQuantity refuses only a quantity that is `undefined` (js/script.js:73); any string, including a non-numeric one, goes on to `parseInt`, and NaN re-renders without changing the cart (js/script.js:77-82).
- Each subtotal goes through `toFixed(2)` and `parseFloat` (js/script.js:125-126, 199-200); with integer paise that rounding is the identity.

## Model

| member | source | states |
|---|---|---|
| Store.CartStore.Load | js/script.js:12-21 | a page starts from the stored cart, or from an empty cart written back at once; either way the stored copy equals the cart |
| Store.CartStore.AddToCart | js/script.js:30-51 | an empty name, a non-number price or an empty image is refused with nothing changed; otherwise the cart becomes `Added(old cart, …)` and the stored copy equals it |
| Store.CartStore.RemoveFromCart | js/script.js:54-68 | an empty name is refused with nothing changed; otherwise the cart keeps exactly the entries of other names and the stored copy equals it |
| Store.CartStore.UpdateQuantity | js/script.js:71-101 | empty name or absent quantity is refused, a NaN quantity only re-renders, an unknown name is not found, all without change; a parsed quantity of at least 1 is set on the first entry of that name, a smaller one gives exactly the cart removeFromCart gives; the stored copy follows every change |
| Store.CartStore.RenderCart | js/script.js:104-151 | no view on the page: nothing; an entry with zero price or quantity: the render fails; otherwise it shows the sum of `price * quantity` and the empty notice exactly when the cart is empty |
| Store.CartStore.RenderOrderSummary | js/script.js:182-216 | same integrity failure and the same total as the cart view, without an empty notice |
| Store.CartStore.CompletePurchase | js/script.js:219-255 | an empty cart (`EmptyCart`), then a missing input (`FieldMissing`), then an input blank once trimmed (`FieldBlank`) are refused in that order with nothing changed; it succeeds exactly when the cart is non-empty and all four inputs are non-blank, and then the cart and its stored copy are empty |
| Cart.Added | js/script.js:36-42 | the cart after an accepted add: the first entry of that name gets quantity + 1, or, when there is none, `{name, price, quantity: 1, image}` goes at the end |
| Cart.AddRejected | js/script.js:32 | the arguments addToCart refuses: an empty name, a price that is not a number, or an empty image |
| Cart.WithQuantity | js/script.js:83-88 | the cart with the first entry of that name given quantity q, every other entry untouched; the cart itself when no entry has the name |
| Cart.Intact | js/script.js:122 | the render integrity check: no entry has a zero (falsy) price or quantity |
| Cart.Sum | js/script.js:121-126 | the total, adding `price * quantity` entry by entry in list order from 0 |
| JsText.ParseInt | js/script.js:77 | one-argument `parseInt`: leading whitespace skipped, one optional sign, base 16 after `0x`/`0X`, the longest digit prefix read, NaN (`None`) when there is no digit |
| Store.Blank | js/script.js:235-240 | a checkout value that is empty once trimmed |
| Store.AllFilled | js/script.js:231-240 | all four checkout inputs are on the page and none is blank once trimmed |
| Cart.FindIndex | js/script.js:36 | the index found holds an entry of that name and no earlier entry has it; no index exactly when no entry has the name |
| Cart.Without | js/script.js:60 | an item is in the result exactly when it is in the cart under another name; the result is shorter by the number of entries of that name |
| Cart.QuantityAfterAdd | js/script.js:36-42 | an add raises the quantity of its name by exactly one and leaves every other name's quantity unchanged |
| Cart.AddKeepsNamesUnique | js/script.js:36-42 | an add keeps names unique and leaves its name in the cart |
| Cart.AddChangesNothingElse | js/script.js:36-42 | with the added name filtered out, the cart before and after an add is the same list, order included |
| Cart.AddAllCounts | js/script.js:30-44 | after any sequence of add calls names stay unique and each name's quantity grows by the number of accepted calls for it, so n adds of a new name give quantity n |
| Cart.WithoutAppend | js/script.js:60 | filtering keeps the order: the filter of a list with one more entry at the end is the filtered list followed by that entry, unless the entry has the removed name |
| Cart.WithoutIdempotent | js/script.js:60 | removing a name twice gives the same cart as removing it once |
| Cart.WithoutAbsent | js/script.js:60 | removing a name that is not in the cart leaves the cart as it was |
| Cart.WithoutKeepsNamesUnique | js/script.js:60 | after a removal no entry has that name and names stay unique |
| Cart.SetQuantityEffect | js/script.js:83-88 | setting the quantity of an existing entry gives its name that quantity, keeps the length and keeps names unique |
| Cart.SumAppend | js/script.js:121-126 | the total accumulated over two lists in turn is the sum of their totals |
| Cart.SumWithQuantity | js/script.js:88 | setting a quantity replaces that entry's old subtotal in the total by its new one, everything else in the total unchanged |
| Cart.TotalAfterAdd | js/script.js:36-42 | an add raises the total by the existing entry's price, or by the new price for a new name |
| Cart.TotalAfterRemove | js/script.js:60 | with unique names, a removal lowers the total by the removed entry's subtotal |
| Cart.OperationsKeepWellFormed | js/script.js:32-34 | positive prices and quantities of at least 1 survive an add with a positive price, a quantity set of at least 1 and any removal; an add of a new name at price 0 makes the cart fail the integrity check |
| Cart.RunKeepsIntact | js/script.js:30-101 | from a cart of positive prices and quantities, any sequence of adds at positive prices, removals and quantity updates keeps prices positive and quantities at least 1, so the cart always passes the integrity check of both renders (js/script.js:122, 196) and they show a total instead of failing |
| Cart.ComputeTotal | js/script.js:115-126 | the loop fails exactly when some entry has a zero price or quantity and otherwise returns the sum of `price * quantity` over the cart |
| JsText.Trim | js/script.js:235-240 | a trimmed value is empty exactly when the input is all whitespace, so an all-whitespace field is refused like an empty one; a non-empty result neither starts nor ends with whitespace |
| JsText.ParseIntDecimal | js/script.js:77 | parseInt of the decimal text of any integer, as a cart line writes its quantity into its input, gives that integer back |
| JsText.ParseIntWithoutDigits | js/script.js:77-78 | text with no decimal digit parses to NaN |

## Left out

- Floating-point money: prices are integer paise, so `toFixed(2)` and `parseFloat` on each subtotal (js/script.js:125-126, 199-200) are exact and not modelled; NaN and infinite prices cannot be expressed.
- Store.CartStore.AddToCart: the price argument is `Option<int>`, `None` standing for any value whose type is not number; NaN, which has type number, is not modelled.
- JsText.ParseIntDecimal: JavaScript numbers lose precision past 2^53, while the model's integers are unbounded, so very long digit strings parse exactly here.
- Store.CartStore.UpdateQuantity: the quantity argument is the input element's string value; a number passed directly, which parseInt first converts to text, is not modelled.
- Local storage and JSON: the stored copy is a field holding the list itself. Serialisation, failed writes and the reset of a corrupted stored cart (js/script.js:13-27, 262-269) are not modelled; `Load` treats an unusable stored cart like an absent one, and the page-load re-read is the same `Load`.
- Entries are objects updated in place (`existingItem.quantity += 1`, `item.quantity = quantity`); here they are values replaced in the list, which is the same because nothing else holds a reference to an entry.
- HTML building, `textContent` writes, alerts, console logging with timestamps, `window.onerror` and navigation to the cart page after checkout (js/script.js:2-9, 128-145, 202-210, 250): presentation and diagnostics. The renders are reduced to what they compute, and the re-render after a removal or a quantity change is left to the caller.
- applyCoupon and updateCart (js/script.js:154-179): placeholders that change no state.
- The DOMContentLoaded wiring (js/script.js:258-282): page events, not cart logic.
