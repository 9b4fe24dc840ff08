# Pharmacy point-of-sale front end: billing cart and request helper

This project models the two parts of the pharmacy front end that carry rules:

- **The billing cart** (`billingModule` in `assets/js/billing.js`). The cashier searches the
  medicine catalog, adds medicines to a cart, and changes quantities with "-"/"+" buttons.
  The screen shows a subtotal, GST and an amount due after a discount. FINALIZE posts the bill.
  Module `Cart` states these rules as functions over values. Module `Billing` holds the class
  `BillingModule`, whose methods change `cart`, `allMedicines` and the submitting flag in place.
  The cart-changing methods (`AddToCart`, `UpdateQty`, `FinishCheckout`) are proved equal to
  the matching `Cart` function. `LoadInitialData` and `ClearCart` have no `Cart` counterpart:
  their contracts state the new state directly. Module `Catalog` holds the
  medicine record and the search box filter. Module `Seqs` holds `find` and `filter`.
- **The request helper** (`api` in `assets/js/api.js`), modelled in module `Api`. It covers the
  default headers, the merge of a caller's headers over them, and how a response becomes data
  or an error. It also covers how `post`/`put` encode bodies, and what `logout`/`forceLogout`
  remove from local storage. Local storage is a `map<string, string>` field of class `Browser`.

Money is exact: prices, GST percentages and the discount are `real`. The network, the
confirmation dialog and the DOM inputs are parameters. A request is given the response it
receives and the cashier's answer to the logout prompt. A checkout is given the outcome of the
bill post and of the catalog reload. The discount is given as an `Option<real>`, where `None`
means `parseFloat` produced NaN.

The invariant behind the cart is `Cart.Inv`: one line per medicine, and each line has between
1 and the catalog's stock. `Cart.RunPreservesInv` proves it survives any sequence of clicks
that the UI allows. `addToCart` does not check stock when it appends a new line, so for a
new line the invariant relies on the add button being disabled for a row without stock
(billing.js:77).

Behaviour of the code worth knowing:

- On a 401 response the code calls `logout()`, which first asks for confirmation
  (api.js:36, 81-86). The session is cleared only if the cashier confirms. It is not cleared
  unconditionally.
- A failed checkout does not reset anything. A successful one empties the cart. The discount
  field is a DOM input that the code never clears.
- A bill post that returns `success: false` without throwing leaves the cart and shows no toast
  (billing.js:199).
- Cart edits are not blocked while a bill is being posted. Only FINALIZE is disabled. A
  successful post then empties the whole cart, including lines added while waiting.
  `BeginCheckout`/`FinishCheckout` split `handleGenerateBill` at its `await` to show this.

## Model

| member | source | states |
|---|---|---|
| `Seqs.Find` | assets/js/billing.js:86-87 | the index returned holds a matching element and no earlier element matches; None exactly when nothing matches |
| `Seqs.FindIndex` | assets/js/billing.js:102-103 | the front-to-back scan stops at the first match and returns the index `Find` specifies |
| `Seqs.Filter` | assets/js/billing.js:110 | every kept element comes from the input and passes the test; every input element that passes is kept |
| `Seqs.FilterConcat` | assets/js/billing.js:110 | filtering distributes over concatenation, so kept elements stay in their original order |
| `Seqs.FilterDropsOne` | assets/js/billing.js:110 | when only the element at k fails the test, the filter returns the input without position k |
| `Catalog.Search` | assets/js/billing.js:18-24 | the result holds exactly the catalog rows whose lower-cased name, or present non-empty barcode, contains the lower-cased query |
| `Catalog.Matches` | assets/js/billing.js:20-22 | an empty needle matches every medicine; a needle longer than both the name and the barcode matches none |
| `Catalog.SearchConcat` | assets/js/billing.js:20-23 | the search keeps catalog order: searching two concatenated parts gives the results of the first part followed by those of the second |
| `Catalog.SearchEmptyQuery` | assets/js/billing.js:19-23 | an empty query returns the whole catalog in order |
| `Catalog.SearchIgnoresQueryCase` | assets/js/billing.js:19 | a query and its lower-cased form give the same result |
| `Catalog.UppercaseBarcodeNotMatchedByItself` | assets/js/billing.js:19-22 | the barcode is compared with the lower-cased query without being lower-cased itself, so a barcode starting with an upper-case letter is not found by its own text (unless the name matches) |
| `Cart.Inv` | assets/js/billing.js:77-114 | the cart invariant (one line per medicine, each with 1 <= qty <= catalog stock); under it, finding a line by its medicine id returns that line's own position |
| `Cart.AddToCart` | assets/js/billing.js:85-97 | after an add the medicine has a line in the cart; the toast is silent or the stock-limit warning, and a warning leaves the cart unchanged; the cart grows by at most one line; lines of other medicines keep their positions and values |
| `Cart.RemoveLines` | assets/js/billing.js:110 | the filtered cart holds only lines of the old cart with another medicine id, and keeps every such line |
| `Cart.UpdateQty` | assets/js/billing.js:101-112 | with no line for the id the cart is unchanged; the cart never grows; every line of another medicine survives; any changed line belongs to that medicine and has 1 <= qty <= its catalog stock |
| `Cart.AddToExistingLine` | assets/js/billing.js:89-94 | a medicine already in the cart gains exactly one unit when below stock, and all other lines stay the same; otherwise the cart is unchanged and the stock-limit warning is raised |
| `Cart.AddNewLine` | assets/js/billing.js:95-97 | a medicine not in the cart is appended at the end as one line with quantity 1, built from the catalog record; existing lines stay the same |
| `Cart.AddPreservesInv` | assets/js/billing.js:77-97 | `addToCart` keeps one line per medicine with 1 <= qty <= stock, provided a newly added medicine has stock |
| `Cart.UpdateAbsent` | assets/js/billing.js:102-105 | `updateQty` for a medicine with no line changes nothing |
| `Cart.UpdateSetsQty` | assets/js/billing.js:106-108 | when 0 < qty + delta <= stock, that line's quantity becomes qty + delta and nothing else changes |
| `Cart.UpdateToZeroRemoves` | assets/js/billing.js:109-110 | when qty + delta is exactly 0, exactly that line is removed and the others keep their order |
| `Cart.UpdateOutOfRange` | assets/js/billing.js:107-112 | a result below zero, or above stock and non-zero, leaves the cart unchanged |
| `Cart.RemoveUniqueLine` | assets/js/billing.js:110 | with unique ids, the filter removes only the line with that id and keeps the rest in order |
| `Cart.UpdatePreservesInv` | assets/js/billing.js:101-114 | `updateQty` keeps the cart invariant for every delta |
| `Cart.RunPreservesInv` | assets/js/billing.js:77-114 | from a valid cart, any sequence of allowed adds and updates yields a valid cart (no zero line, none above stock, no duplicate medicine) |
| `Cart.Discount` | assets/js/billing.js:159 | an unparsable discount counts as 0, any parsed value as itself |
| `Cart.FinalTotal` | assets/js/billing.js:160-164 | the amount due is never negative; it equals subtotal + GST - discount when that is non-negative and is 0 otherwise |
| `Cart.Subtotal` | assets/js/billing.js:146-150 | the subtotal of an empty cart is 0; with non-negative prices, rates and quantities it is non-negative |
| `Cart.GstTotal` | assets/js/billing.js:146-152 | the GST of an empty cart is 0; with non-negative prices, rates and quantities it is non-negative |
| `Cart.SubtotalConcat` | assets/js/billing.js:146-152 | subtotal and GST of a concatenation are the sums of the parts |
| `Cart.SubtotalReplace` | assets/js/billing.js:146-152 | replacing one line changes subtotal and GST by exactly that line's difference |
| `Cart.SubtotalRemoveAt` | assets/js/billing.js:146-152 | dropping one line takes exactly its amount and its GST off the totals |
| `Cart.AddRaisesSubtotalByPrice` | assets/js/billing.js:89-97 | a successful add raises the subtotal by one unit price; a refused add leaves it unchanged |
| `Cart.TotalsNonNegative` | assets/js/billing.js:146-152 | with non-negative prices, rates and quantities, subtotal and GST are non-negative |
| `Cart.GstAtUniformRate` | assets/js/billing.js:149-151 | when all lines share one GST rate, the GST equals that rate applied to the subtotal |
| `Cart.CustomerName` | assets/js/billing.js:182 | the customer name is never empty; a typed name is kept and an empty field becomes 'Walk-in Customer' |
| `Cart.BuildPayload` | assets/js/billing.js:180-191 | the payload's items match the cart line for line as (medicine_id, qty); it also carries the customer, the parsed discount and 'cash' |
| `Cart.PayloadFromValidCart` | assets/js/billing.js:185-188 | from a valid cart, each medicine appears once in the payload, with a quantity between 1 and its catalog stock |
| `Cart.AfterPost` | assets/js/billing.js:197-207 | the cart becomes empty only when the post returns success true; a thrown error keeps the cart and reports "Billing Error: " + message |
| `Cart.RetryAfterFailureSamePayload` | assets/js/billing.js:197-206 | after a failed post, the cart that remains builds the same payload again |
| `Billing.BillingModule.State` | assets/js/billing.js:174-210 | the screen is Submitting exactly while FINALIZE is disabled, Empty exactly when not submitting with an empty cart, and Populated otherwise |
| `Billing.BillingModule.constructor` | assets/js/billing.js:4-6 | the module starts with an empty cart, an empty catalog and FINALIZE enabled |
| `Billing.BillingModule.LoadInitialData` | assets/js/billing.js:39-47 | a fetched catalog replaces the old one wholesale; a failed fetch keeps it; the cart is untouched |
| `Billing.BillingModule.AddToCart` | assets/js/billing.js:85-99 | the new cart and the toast are those of `Cart.AddToCart`; the catalog is unchanged; the invariant is kept under the add-button condition |
| `Billing.BillingModule.UpdateQty` | assets/js/billing.js:101-114 | the new cart is that of `Cart.UpdateQty`; the catalog is unchanged; the invariant is kept |
| `Billing.BillingModule.ComputeTotals` | assets/js/billing.js:146-152 | the `forEach` accumulation yields the subtotal and GST sums over all lines |
| `Billing.BillingModule.RenderCart` | assets/js/billing.js:121-164 | the summary shows the line count, (0, 0) for an empty cart, else the two sums, and the floored amount due after the discount |
| `Billing.BillingModule.ClearCart` | assets/js/billing.js:167-172 | the cart is emptied exactly when the cashier confirms |
| `Billing.BillingModule.BeginCheckout` | assets/js/billing.js:174-195 | an empty cart gives the warning and no payload, and leaves the state Empty; otherwise the payload comes from the cart and the state becomes Submitting; the cart is unchanged |
| `Billing.BillingModule.FinishCheckout` | assets/js/billing.js:197-210 | the cart and toast are those of `Cart.AfterPost`; the catalog is reloaded only after a success; FINALIZE is enabled again |
| `Billing.BillingModule.HandleGenerateBill` | assets/js/billing.js:174-211 | an empty cart sends nothing and stays empty, and the catalog is untouched; otherwise the cart is posted as its payload and emptied only on success, and the catalog is replaced only by a reload after a success |
| `Api.Token` | assets/js/api.js:6-13 | a token exists exactly when the `token` entry is present and non-empty |
| `Api.DefaultHeaders` | assets/js/api.js:5-17 | Content-Type application/json is present exactly when the body is not FormData; Authorization "Bearer " + token is present exactly when a token is stored; there are no other keys |
| `Api.MergeHeaders` | assets/js/api.js:25-28 | the merged headers have every key of both maps, and the caller's value wins on a clash |
| `Api.FetchInit` | assets/js/api.js:20-29 | fetch receives the caller's method, body and headers; the JSON content type and the bearer token are added only where the caller gave none |
| `Api.EncodeBody` | assets/js/api.js:52 | a FormData payload stays a form and any other value becomes JSON text; the body is never absent |
| `Api.EncodeBodyRoundTrip` | assets/js/api.js:49-59 | decoding the encoded body gives back exactly what the caller passed |
| `Api.PostAndPutHeaders` | assets/js/api.js:49-61 | `post` and `put` send the JSON content type exactly for a non-form body, and the bearer token exactly when one is stored |
| `Api.GetAndDeleteDeclareJson` | assets/js/api.js:45-47 | `get` and `delete` always send Content-Type application/json |
| `Api.ErrorMessage` | assets/js/api.js:38 | the error message is the server's truthy `message`, otherwise 'Something went wrong'; it is never falsy |
| `Api.Classify` | assets/js/api.js:33-41 | an ok response returns the parsed body unchanged; a non-ok one fails with the server message or the fallback (a null body fails with a TypeError); only status 401 starts a logout |
| `Api.ServerMessageSurfaces` | assets/js/api.js:38 | a failing response with a non-empty string message surfaces that message; one without a message surfaces the fallback |
| `Api.WithoutSession` | assets/js/api.js:89-90 | exactly the `token` and `user` keys are removed, and every other entry keeps its value |
| `Api.NoAuthorizationAfterLogout` | assets/js/api.js:13-15 | once the session keys are removed, no request carries an Authorization header unless its caller supplied one |
| `Api.Browser.GetHeaders` | assets/js/api.js:5-17 | the headers built by conditional assignment are those of `DefaultHeaders` for the stored token |
| `Api.Browser.ForceLogout` | assets/js/api.js:88-92 | local storage loses exactly `token` and `user`, and the page goes to login.html |
| `Api.Browser.Logout` | assets/js/api.js:81-86 | the session is cleared and the page goes to login only when confirmation is true; otherwise nothing changes |
| `Api.Browser.Request` | assets/js/api.js:20-42 | the request goes to the base URL plus the endpoint with merged headers; the result is the classification; the session is cleared only on 401 with a confirmed logout |

## Left out

- HTML rendering: search-result and cart markup, `toFixed` formatting, the clock (`updateTime`), toast animation and auto-dismiss timers, the confirmation overlay. Toasts appear only as the returned `Notice`; confirmation is a boolean parameter.
- `fetch`, `response.json()` and JSON parsing failures: a request is given an already parsed `Response`. `JSON.stringify` is not modelled as text; `JsonText(v)` stands for the serialised value.
- `Api.ErrorMessage`: the thrown `Error` turns its argument into a string; the model keeps the JSON value instead.
- `Api.Browser.Request`: the logout it starts is not awaited, so in the browser the storage change happens after the error is thrown. The model applies the effect the cashier's answer leads to, within the same call.
- `Api.MergeHeaders`: header names are compared exactly. HTTP's case-insensitive matching is not modelled (for example `content-type` beside `Content-Type`).
- `isLoggedIn` (JWT expiry via `atob`, `JSON.parse`, `Date.now`), the page-load redirect that uses it, `loadSidebar` and role-based menus, `togglePassword`, `showNotification` markup, and `delete`'s call site.
- `assets/js/auth.js`, `assets/js/medicines.js` and `assets/js/reports.js` are not part of this model.
- Floating point: totals are exact sums of reals, so JavaScript rounding errors and NaN/Infinity prices are not represented. Prices and stock are assumed to arrive as numbers, not numeric strings.
- `Catalog.Search`: lower-casing covers ASCII letters only, not Unicode case mapping. A medicine name or barcode of null is not represented.
- `Cart.AddToCart`: requires the medicine to be in the catalog, for the same reason as the method below.
- `Billing.BillingModule.AddToCart`: requires the medicine to be in the catalog, because its only callers are buttons rendered from catalog rows. For an unknown id the code would throw (existing line) or push a line holding only `qty: 1`.
- `Billing.BillingModule.FinishCheckout`: a success body without `data.bill_number` would throw inside the `try` and keep the cart. The outcome is assumed to carry the bill number.
- The `submitting` flag stands for the disabled FINALIZE button. Interleavings of cart edits with the catalog reload after a successful bill are not modelled; the reload is part of `FinishCheckout`.
- Cart lines are values in a sequence. The JavaScript line objects are fresh copies (`{...med, qty}`) with no other references, so updating them in place and replacing them agree.
