# Storefront shopping domain in Dafny

This project models the client-side shopping logic of a mobile-phone storefront. It covers five parts:

- the **cart state manager**: an ordered list of `{product, quantity}` lines with two derived fields, `total` and `itemCount`;
- the **checkout page**: address validation, 18% GST, invoice construction, and the address → payment → invoice flow that clears the cart;
- the **cart page's** guarded commands and displayed amounts;
- the **product page's** quantity selector, image fallback and add-to-cart loop;
- the **catalog page's** search-and-category filter and its category list.

Modules, one per source file:

| module | file | models |
|---|---|---|
| `Types` | Types.dfy | `Product`, `CartItem`, `Address`, `InvoiceItem`, `Invoice`, the five-value `OrderStatus`, `User`, and a `Navigation` result for router calls |
| `Text` | Text.dfy | ASCII `toLowerCase`, `includes`, the decimal rendering of numbers, and the `/^\d{n}$/` test |
| `CartContext` | CartContext.dfy | the reducer bodies as functions (`FindIndex`, `Added`, `Removed`, `WithQuantity`, `Total`, `ItemCount`); the provider as the class `CartStore` (fields `items`, `total`, `itemCount`) |
| `Checkout` | Checkout.dfy | `ValidateAddress` (the loop with early return), `CheckAddress` (its specification), totals, invoices, and the class `CheckoutPage` |
| `CartPage` | CartPage.dfy | the cart page's handlers as methods on a `CartStore`, and the summary amounts |
| `ProductDetail` | ProductDetail.dfy | `ProductImages`, and the class `ProductDetailPage` (selected quantity, gallery index, add-to-cart and buy-now handlers) |
| `Dashboard` | Dashboard.dfy | `FilteredProducts`, `Categories`, and the card's stock-guarded add |
| `Listing` | Listing.dfy | `getDeliveryText` and the low-stock note, which both pages define identically (src/pages/Dashboard.tsx:24-29, 336 and src/pages/ProductDetail.tsx:38-43, 276-284) |
| `Scenarios` | Scenarios.dfy | concrete cases: adding twice, removal via quantity 0, address examples, the tax on 1000, and filtering two products |

Modelling choices:

- Prices and quantities are `int`.
- GST is exact `real` arithmetic (`subtotal * 0.18`, where `0.18` is the exact rational).
- Every cart operation is an atomic replacement of the lines, followed by recomputation of the totals.
- `CartStore.Valid()` holds after every operation. It says the derived fields equal the sums over the lines and that no product id has two lines.
- `AllPositive` is preserved by every operation. For `AddToCart` this holds only when the added amount is positive, because the source accepts any number there.

Where the code is more specific than its design description, the model follows the code:

- `addToCart` on an id already present raises the quantity of the FIRST matching line. That line keeps the product record it already holds, so the total rises by the stored line's price (`CartContext.UnitPrice`), not the price of the product passed in.
- `removeFromCart` filters out every line with the id. With unique ids that is exactly one line (`CartContext.RemovedAt`).
- The category list also drops empty categories (`.filter(Boolean)`). The `"all"` option is prepended without deduplication, so a product whose category is literally `"all"` would make that option appear twice.
- The low-stock condition tests `stockCount` for truthiness, not for being positive. A negative count would also show the note.
- The product page's add-to-cart handler does not check stock. Only its button is disabled for out-of-stock products (src/pages/ProductDetail.tsx:339). The catalog card's handler does check stock.

## Model

| member | source | states |
|---|---|---|
| CartContext.Total | src/contexts/CartContext.tsx:45 | definition: the left fold Σ price × quantity; its behaviour under add, remove and update is in `AddedTotals` and `CartStore` |
| CartContext.ItemCount | src/contexts/CartContext.tsx:46 | definition: the left fold Σ quantity; properties in `AddedTotals` and `CartStore` |
| CartContext.SumOfAppend | src/contexts/CartContext.tsx:45-46 | the fold over a + b is the fold over a plus the fold over b |
| CartContext.SumOfPointwise | src/contexts/CartContext.tsx:45-46 | two sequences whose elements weigh the same position by position have the same sum; this is the one induction behind `LinesTotalIsCartTotal` and `LineSubtotalsAddUp` |
| CartContext.FindIndex | src/contexts/CartContext.tsx:57 | the result is -1 exactly when no line has the id; otherwise it is the index of the first line with the id |
| CartContext.Added | src/contexts/CartContext.tsx:56-74 | the lines after `addToCart`: one more line exactly when the id was absent, and every existing line keeps its product record in place; the rest is in `AddedExisting` and `AddedNew` |
| CartContext.AddedExisting | src/contexts/CartContext.tsx:59-66 | adding an id already present (unique ids) keeps the number of lines, raises that line's quantity by the amount, keeps its product record, and leaves every other line unchanged |
| CartContext.AddedNew | src/contexts/CartContext.tsx:67-73 | adding an absent id appends `{product, quantity}` after the existing lines, in order |
| CartContext.AddedKeepsUnique | src/contexts/CartContext.tsx:57-73 | adding preserves "at most one line per product id" |
| CartContext.AddedKeepsPositive | src/contexts/CartContext.tsx:55-73 | adding a positive amount keeps every quantity positive |
| CartContext.UnitPrice | src/contexts/CartContext.tsx:57-66 | definition: the price of the stored line for the id when there is one, else the new product's price; used by `AddedTotals` |
| CartContext.AddedTotals | src/contexts/CartContext.tsx:43-75 | after adding, the item count rises by the amount, and the total rises by the amount times the charged unit price |
| CartContext.AddedTwice | src/contexts/CartContext.tsx:55-75 | adding `a` units and then `b` units of a product equals adding `a + b` units once |
| CartContext.Removed | src/contexts/CartContext.tsx:80 | the `filter`: never more lines than before; membership is in `RemovedSubset` |
| CartContext.RemovedSubset | src/contexts/CartContext.tsx:80 | a line remains iff it was a line before and does not carry the removed id |
| CartContext.RemovedAbsent | src/contexts/CartContext.tsx:77-82 | removing an id that no line has changes nothing |
| CartContext.RemovedAt | src/contexts/CartContext.tsx:77-82 | with unique ids, removing the id of line k gives the lines before k followed by the lines after k |
| CartContext.RemovedKeepsUnique | src/contexts/CartContext.tsx:80 | removal preserves unique ids |
| CartContext.RemovedKeepsPositive | src/contexts/CartContext.tsx:80 | removal preserves positive quantities |
| CartContext.WithQuantity | src/contexts/CartContext.tsx:91-93 | the `map`: same number of lines, each line keeps its product record in place, and lines with another id are untouched |
| CartContext.WithQuantityAbsent | src/contexts/CartContext.tsx:90-98 | setting a quantity for an absent id leaves the lines unchanged |
| CartContext.WithQuantityAt | src/contexts/CartContext.tsx:91-93 | with unique ids, setting the quantity of line k's id changes that line's quantity only |
| CartContext.WithQuantityKeepsUnique | src/contexts/CartContext.tsx:91-93 | setting a quantity preserves unique ids |
| CartContext.WithQuantityKeepsPositive | src/contexts/CartContext.tsx:84-98 | setting a positive quantity preserves positive quantities |
| CartContext.CartStore.constructor | src/contexts/CartContext.tsx:19-23 | the initial cart has no lines, total 0 and item count 0, and satisfies the invariant |
| CartContext.CartStore.RecomputeTotals | src/contexts/CartContext.tsx:43-53 | after recomputation, total = Σ price × quantity and itemCount = Σ quantity |
| CartContext.CartStore.AddToCart | src/contexts/CartContext.tsx:55-75 | the lines become `Added(old lines)`; itemCount rises by the amount; total rises by the amount times the unit price; the invariant and positivity are kept |
| CartContext.CartStore.RemoveFromCart | src/contexts/CartContext.tsx:77-82 | the lines become the old lines without that id; an absent id is a no-op; the invariant is kept |
| CartContext.CartStore.UpdateQuantity | src/contexts/CartContext.tsx:84-99 | a quantity ≤ 0 acts as removal; otherwise only the matching line's quantity is set; an absent id changes nothing; no non-positive quantity is ever stored |
| CartContext.CartStore.ClearCart | src/contexts/CartContext.tsx:101-107 | from any state, the result is `{items: [], total: 0, itemCount: 0}`, the same as the initial cart |
| Checkout.CheckAddress | src/pages/Checkout.tsx:46-67 | definition of the verdict; characterised by `CheckAddressAccepts` and `CheckAddressMissing` |
| Checkout.ValidateAddress | src/pages/Checkout.tsx:46-67 | the field-by-field loop with early return yields the verdict `CheckAddress` |
| Checkout.FirstEmptyIsFirst | src/pages/Checkout.tsx:47-53 | the scan finds nothing iff every field is filled; otherwise it reports an empty field, and every field before it is filled |
| Checkout.CheckAddressAccepts | src/pages/Checkout.tsx:46-67 | an address is accepted iff all seven required fields are non-empty, the phone is exactly 10 digits and the pincode exactly 6 digits |
| Checkout.CheckAddressMissing | src/pages/Checkout.tsx:47-53 | the missing-field error names field f iff f is empty and every field before f (name, email, phone, street, city, state, pincode) is filled |
| Checkout.PhoneCheckedBeforePincode | src/pages/Checkout.tsx:55-64 | when all required fields are present, a bad phone is reported whatever the pincode is |
| Checkout.LandmarkNeverRequired | src/pages/Checkout.tsx:47 | changing the landmark never changes the verdict |
| Checkout.CalculateTotals | src/pages/Checkout.tsx:37-42 | subtotal = cart total, gst = 18% of it, total = subtotal + gst = 1.18 × subtotal |
| Checkout.InvoiceLines | src/pages/Checkout.tsx:77-82 | one invoice line per cart line, in order; each copies name, quantity and price, and its total is price × quantity |
| Checkout.LinesTotalIsCartTotal | src/pages/Checkout.tsx:77-82 | the invoice line totals add up to the cart's Σ price × quantity |
| Checkout.PaymentLabel | src/pages/Checkout.tsx:92 | definition: "Cash on Delivery" for "cod", else "Online Payment"; stated in `GenerateInvoice` |
| Checkout.InvoiceId | src/pages/Checkout.tsx:85 | definition: "INV-" followed by the clock's decimal digits; properties in `InvoiceIdInjective` |
| Checkout.InvoiceIdInjective | src/pages/Checkout.tsx:85 | orders placed at different clock readings get different invoice ids |
| Checkout.GenerateInvoice | src/pages/Checkout.tsx:76-95 | status is confirmed; the payment label is "Cash on Delivery" iff the method is "cod", else "Online Payment"; address and subtotal are copied; gst = 18% of the subtotal; total = subtotal + gst; lines as above |
| Checkout.InvoiceAddsUp | src/pages/Checkout.tsx:84-94 | an invoice built from a consistent cart has subtotal = Σ line totals and total = 1.18 × that sum |
| Checkout.CheckoutPage.View | src/pages/Checkout.tsx:109-114 | the page redirects to the cart iff the cart is empty and no invoice is shown; it shows the invoice iff one has been generated |
| Checkout.CheckoutPage.constructor | src/pages/Checkout.tsx:13-28 | the page starts on step 1, with no invoice, payment method "cod", and the address pre-filled from the user's display name and email (else empty) |
| Checkout.CheckoutPage.EditAddress | src/pages/Checkout.tsx:289 | editing the form replaces the address |
| Checkout.CheckoutPage.SelectPaymentMethod | src/pages/Checkout.tsx:410 | choosing a payment option sets the method |
| Checkout.CheckoutPage.HandleAddressSubmit | src/pages/Checkout.tsx:69-74 | the step becomes 2 exactly when validation accepts the address; otherwise it stays 1 |
| Checkout.CheckoutPage.BackToAddress | src/pages/Checkout.tsx:440 | "Back to Address" returns to step 1 with the address unchanged |
| Checkout.CheckoutPage.HandlePlaceOrder | src/pages/Checkout.tsx:97-103 | the invoice is generated from the cart as it was before the order; then the cart is cleared and the invoice screen is shown |
| CartPage.HandleQuantityChange | src/pages/Cart.tsx:18-21 | a new quantity below 1 leaves the cart unchanged; otherwise only the matching line's quantity is set; positivity is kept |
| CartPage.DecreaseLine | src/pages/Cart.tsx:130 | "-" on a line whose quantity is above 1 lowers that line by one; at quantity 1 or below nothing changes |
| CartPage.IncreaseLine | src/pages/Cart.tsx:142 | "+" raises that line by one and the item count by one; every other line is unchanged |
| CartPage.HandleRemoveItem | src/pages/Cart.tsx:23-26 | "Remove" drops the lines with that id |
| CartPage.HandleClearCart | src/pages/Cart.tsx:28-32 | afterwards the cart is empty with zero totals; on an already empty cart nothing changes |
| CartPage.HandleCheckout | src/pages/Cart.tsx:34-40 | goes to /checkout iff the cart has lines; otherwise stays and reports "Your cart is empty" |
| CartPage.LineSubtotalsAddUp | src/pages/Cart.tsx:163 | the per-line subtotals (price × quantity) shown on the page add up to the cart total |
| CartPage.DisplayedGst | src/pages/Cart.tsx:192 | definition: cart total × 0.18; related to checkout in `SummaryAgreesWithCheckout` |
| CartPage.DisplayedGrandTotal | src/pages/Cart.tsx:199 | definition: cart total × 1.18; related to checkout in `SummaryAgreesWithCheckout` |
| CartPage.SummaryAgreesWithCheckout | src/pages/Cart.tsx:190-200 | the displayed GST (total × 0.18) and grand total (total × 1.18) equal the checkout page's gst and subtotal + gst |
| ProductDetail.ProductImages | src/pages/ProductDetail.tsx:127-130 | the gallery is never empty; it is the product's images when there are some, else exactly `[image]` (so no thumbnail strip) |
| ProductDetail.IncrementDisabled | src/pages/ProductDetail.tsx:328 | definition of the "+" button's `disabled`; `Increment` is proved to respect it |
| ProductDetail.ProductDetailPage.constructor | src/pages/ProductDetail.tsx:50-53 | the page starts with quantity 1 and the first image selected, within the invariant |
| ProductDetail.ProductDetailPage.Decrement | src/pages/ProductDetail.tsx:317-323 | "-" lowers the quantity by one but never below 1 |
| ProductDetail.ProductDetailPage.Increment | src/pages/ProductDetail.tsx:325-331 | "+" adds one unless the stock count is truthy and already reached; the quantity stays within a positive stock count, and a missing or zero count imposes no cap |
| ProductDetail.ProductDetailPage.SelectImage | src/pages/ProductDetail.tsx:165-168 | a thumbnail click selects that index, which stays inside the gallery |
| ProductDetail.ProductDetailPage.HandleAddToCart | src/pages/ProductDetail.tsx:79-86 | without a product the cart is unchanged; otherwise `quantity` single adds leave the cart as one add of `quantity` units |
| ProductDetail.ProductDetailPage.HandleBuyNow | src/pages/ProductDetail.tsx:88-97 | without a user it goes to /login and leaves the cart unchanged; with a user it adds the selection and goes to /cart |
| Listing.DeliveryText | src/pages/ProductDetail.tsx:38-43 | definition of the delivery line; read back by `DeliveryTextRoundTrip` and `StandardDeliveryText` |
| Listing.DeliveryTextRoundTrip | src/pages/ProductDetail.tsx:38-43 | for a non-negative day count, parsing the delivery line gives back the free/paid flag and the number of days, with "day" used exactly for 1 |
| Listing.ParseDaysRoundTrip | src/pages/ProductDetail.tsx:40-42 | "N day" / "N days" reads back as N |
| Listing.StandardDeliveryText | src/pages/Dashboard.tsx:24-29 | without delivery information the text is "Standard delivery", which is not a dated delivery line |
| Listing.LowStockNote | src/pages/ProductDetail.tsx:280 | definition of the note's truthiness test; characterised by `LowStockNoteRange` |
| Listing.LowStockNoteRange | src/pages/ProductDetail.tsx:276-284 | for a non-negative stock count, the "Only N left" note shows iff the product is in stock and 0 < N < 10 |
| Text.ToLower | src/pages/Dashboard.tsx:63-64 | lower-casing keeps the length, maps each upper-case letter to its lower-case letter (code + 32), and leaves every other character as it is |
| Text.ToLowerIdempotent | src/pages/Dashboard.tsx:63-64 | lower-casing twice is lower-casing once |
| Text.IncludesIffOccurs | src/pages/Dashboard.tsx:63-64 | `includes` is true iff the term occurs at some position of the text |
| Text.IncludesEmpty | src/pages/Dashboard.tsx:63 | the empty search term is included in every text |
| Text.NatToString | src/pages/ProductDetail.tsx:42 | the rendering of a number is a non-empty digit string without leading zeros |
| Text.DecimalRoundTrip | src/pages/ProductDetail.tsx:42 | reading the rendered digits back gives the number |
| Dashboard.MatchesSearch | src/pages/Dashboard.tsx:63-64 | definition: the lower-cased term occurs in the lower-cased name or description; `IncludesIffOccurs` gives its meaning |
| Dashboard.Matches | src/pages/Dashboard.tsx:63-66 | definition: search and category both match; `FilteredProducts` keeps exactly these |
| Dashboard.FilteredProducts | src/pages/Dashboard.tsx:62-67 | a product is shown iff it is in the catalog and matches both search and category; the result is no longer than the catalog |
| Dashboard.FilterOfConcat | src/pages/Dashboard.tsx:62 | filtering respects catalog order: the filter of a + b is the filter of a followed by the filter of b |
| Dashboard.FilterKeepsAllMatching | src/pages/Dashboard.tsx:62-67 | when every product matches, the catalog is shown unchanged |
| Dashboard.FilterIdempotent | src/pages/Dashboard.tsx:62-67 | filtering a filtered list again changes nothing |
| Dashboard.EmptySearchShowsAll | src/pages/Dashboard.tsx:63-65 | an empty search with category "all" shows the whole catalog |
| Dashboard.Categories | src/pages/Dashboard.tsx:70 | the first option is "all" |
| Dashboard.DistinctCategories | src/pages/Dashboard.tsx:70 | definition: the non-empty categories by first appearance; characterised by `DistinctCategoriesSpec` |
| Dashboard.DistinctCategoriesSpec | src/pages/Dashboard.tsx:70 | the options after "all" are exactly the non-empty product categories, each once, in order of first appearance |
| Dashboard.HandleAddToCart | src/pages/Dashboard.tsx:111-118 | an out-of-stock product leaves the cart unchanged; otherwise one unit is added |
| Scenarios.AddingTwiceMergesLines | src/contexts/CartContext.tsx:55-75 | adding a product twice, one unit each time, to an empty cart gives one line of 2 units, total 2 × price, and item count 2 |
| Scenarios.AddressExamples | src/pages/Checkout.tsx:46-67 | a complete address with phone 9876543210 and pincode 560001 is accepted; phone 12345, pincode 1234 or an empty city is rejected with that field's error |
| Scenarios.TotalsExample | src/pages/Checkout.tsx:37-42 | a subtotal of 1000 gives GST 180 and a total of 1180 |
| Scenarios.FilterExamples | src/pages/Dashboard.tsx:62-67 | on [iPhone 15 (smartphone), Galaxy Buds (accessory)]: "iphone" finds only the first; category "accessory" finds only the second; empty search with "all" finds both |

## Left out

- Persistence: loading the cart from local storage and saving it after each change (src/contexts/CartContext.tsx:25-41) is browser I/O. A missing or unparsable stored cart leaves the initial empty cart (`CartStore.constructor`). A restored cart is not checked against the invariant, and the round trip through storage after a restart is not modelled.
- React scheduling: the totals are recomputed in an effect after the lines change, so for one render `total` and `itemCount` can lag behind the lines. The model recomputes them in the same step.
- Update in place: `addToCart` raises the quantity by mutating the existing line object, which the previous cart state shares (src/contexts/CartContext.tsx:61-62). A development-mode double run of that updater would add twice. The model treats lines as values, so this aliasing is not captured.
- Authentication, the product fetch, the catalog fetch and seeding are calls to an external backend. The signed-in user and the fetched product are parameters (`HandleBuyNow`, the `ProductDetailPage` and `CheckoutPage` constructors). Navbar, ProtectedRoute and AuthContext are not part of this model.
- The clock: `Date.now()` is the parameter `now` of `HandlePlaceOrder`. The invoice id is `"INV-"` plus its digits, and the order date is the same number rather than a `Date` object.
- Output and routing: currency formatting, toasts, `window.print` and the router are not modelled. Router calls are returned as `Navigation` values. Validation messages are values (`Checkout.ErrorMessage`), and no property about their wording is proved.
- Floating point: JavaScript numbers are modelled as exact integers (prices, quantities) and exact reals (GST). In binary floating point, `total * 1.18` on the cart page and `subtotal + subtotal * 0.18` on the checkout page can differ in the last bit. The model proves them equal in exact arithmetic only. Fractional quantities are not modelled. Numbers are rendered in plain decimal (`Text.IntToString`), which matches JavaScript only below 10^21; from there on a template literal prints exponent form ("1e+21"), so for such day counts the delivery line differs from `Listing.DeliveryText`.
- The discount percentage (`Math.round` of a float division), the rating stars and the bestseller badge.
- Rendering of the "Add to Cart"/"Buy Now" buttons, which are disabled for out-of-stock products on the product page. Their handlers are modelled; the disabled state is not.
- The disabled "Online Payment" radio: the model accepts any payment method string, which the invoice labels "Online Payment" unless it is "cod".
- Text.ToLower: lower-cases ASCII letters only, because Unicode case mapping is not modelled.
- Checkout.CheckoutPage.HandleAddressSubmit: the browser's constraint validation runs before the handler and is not modelled. Every address input except the landmark is `required` and the email input is `type="email"` (src/pages/Checkout.tsx:291-384), so the browser will not submit the form until those inputs are filled and the email is well-formed. Through the form the "Please fill in …" branch is therefore unreachable, and an email such as "abc" keeps the page on step 1 although `CheckAddress` accepts it. The model covers the handler's own checks only.
- Listing.DeliveryTextRoundTrip: stated for non-negative day counts only, because a negative count renders with a minus sign that the parser does not read. For counts of 10^21 and above it holds of the model's plain-decimal rendering, not of JavaScript's exponent form.
- Listing.LowStockNoteRange: the "0 < N < 10" form is stated for non-negative stock counts only. `Listing.LowStockNote` itself follows the truthiness test for every integer.
