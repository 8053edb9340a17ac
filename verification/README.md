# Storefront core in Dafny

A model of the logic inside a client-side pharmacy storefront. The model covers:

- the shopping cart: a reducer over add, remove, set-quantity, clear and load actions; the getters derived from the cart lines; and the cart saved to the browser store as `{items}`;
- the cart's money summary: subtotal, 8% tax, 9.99 shipping that is waived above 100, the total, and the free-shipping fields, each rounded to cents;
- the catalog service, which provides:
  - a five-minute response cache;
  - the merge of the store's own products with twelve products from an external store;
  - category mapping, lookups and search;
  - the filter pipeline and its sort options;
- the category page's own sort of the products it shows;
- error handling:
  - classification of thrown errors by name, message and HTTP status;
  - user-facing messages and recovery suggestions;
  - the wrapping done by `addError`, `handleAsync` and `retry`;
- accessibility helpers:
  - hex colour parsing, the contrast ratio and its WCAG levels;
  - the heading-level scan;
  - the ARIA string builders and the root font size;
- the product slider's index arithmetic.

The Dafny modules follow the source files:

| module | file | source |
|---|---|---|
| `Common` | `common.dfy` | optional values, JavaScript truthiness, ASCII `toLowerCase`, `includes`, `filter`, `join` |
| `Sorting` | `sorting.dfy` | `Array.prototype.sort` as a stable insertion sort |
| `Catalog` | `catalog.dfy` | `src/services/api.js` |
| `Cart` | `cart.dfy` | the reducer, getters and persistence of `src/context/CartContext.jsx` |
| `Pricing` | `pricing.dfy` | the money getters and `getCartSummary` of `src/context/CartContext.jsx` |
| `CategoryPage` | `category_page.dfy` | the `sortedProducts` computation of `src/pages/Category/index.jsx` |
| `Errors` | `errors.dfy` | `src/hooks/useErrorHandler.js` |
| `Accessibility` | `accessibility.dfy` | `useColorContrast`, `useAria`, `checkSemanticStructure` and `updateFontSize` of `src/hooks/useAccessibility.js` |
| `Slider` | `slider.dfy` | `src/components/ui/Slider.jsx` |

## Modelling choices

- **Money** is an exact `real`. `Math.round(x * 100) / 100` is written out as `Pricing.Round2(x) = floor(100x + 0.5) / 100`. `Math.round` rounds halves up, toward positive infinity, so the model does the same rather than rounding half away from zero.
- **The total** is rounded from the unrounded sum of subtotal, tax and shipping, because that is what `getCartSummary` computes. It is not the sum of the rounded parts shown beside it.
  - The shown total can therefore differ by a cent from the sum of the shown subtotal, tax and shipping. `Pricing.TotalIsNotSumOfShownParts` gives such a subtotal (50.065).
- **An empty cart** reports a total of 9.99, not 0, since shipping is charged whenever the subtotal is at most 100 (`Pricing.EmptyCartSummary`).
- **Sorting.** JavaScript's `sort` with a comparator `cmp` is modelled as a stable insertion sort on the relation `cmp(a, b) <= 0`. `sort` has been stable since ECMAScript 2019, and for a consistent comparator the stable order is unique, so every conforming engine gives this result.
- **`localeCompare`** is a parameter `collate(a, b)`, meaning `a.localeCompare(b) <= 0`. Ordering lemmas assume it is a total preorder.
- **The catalog's `rating` sort** reads `rating.rate` of every product it compares. That throws a `TypeError` as soon as two products are compared and one of them has no rating. `Catalog.SortProducts` models this as a `TypeError` outcome.
- **The category page's `rating` sort** treats a missing rating as 0 instead of throwing.
- **The time and the network are parameters.**
  - The cache and `getAllProducts` take the current time.
  - `getAllProducts` takes the body of the external store's response, or `None` when the request fails.
  - `retry` and `handleAsync` take the outcome of each call of the wrapped operation.
- **The browser store** is the value `Cart.Stored`: nothing saved, text that does not parse, or a parsed object whose `items` may be missing.
- **Slider indices** are JavaScript numbers.
  - `%` is truncating.
  - With no slides `(i + 1) % 0` is NaN, which `Slider.Index` has as a value of its own.
- **`toLowerCase`** is modelled on ASCII letters only.
- **The luminance gamma curve** (`Math.pow`) is a parameter `transfer` that maps each channel value 0..255 into [0, 1]. The luminance is the weighted sum of the three curves, with the weights the code uses.

## Model

| member | source | states |
|---|---|---|
| Catalog.GetCachedData | src/services/api.js:8-14 | data comes back only for a stored key whose entry is less than 300000 ms old (strict), and it is the stored data |
| Catalog.SetCachedData | src/services/api.js:16-21 | the key maps to the data stamped with the current time; every other key keeps its entry |
| Catalog.CacheSetThenGet | src/services/api.js:6-21 | a read after a write at the same instant returns the data; a later read returns it exactly while less than five minutes have passed; other keys are unaffected |
| Catalog.MapFakeStoreCategory | src/services/api.js:253-261 | the four known external names map as listed, every other name maps to `weight-loss`, and the result is always a key of the category table |
| Catalog.MapFakeStoreCategoryAsWritten | src/services/api.js:253-261 | the plain-object lookup as written agrees with the mapping except on names inherited from `Object.prototype`, where it yields an inherited member instead of a category |
| Catalog.MapFakeStoreCategoryAsWrittenLeaks | src/services/api.js:253-261 | the name `constructor` reaches `Object.prototype.constructor` in the code as written, while the corrected mapping gives `weight-loss` |
| Catalog.TransformFakeStore | src/services/api.js:189-203 | at most the first twelve external products are kept, in order; each has id `fs-<id>`, the same title, price, description, image and rating, an empty period, the mapped category (always one of the six) and `featured` false |
| Catalog.PharmacyProductsCategorised | src/services/api.js:58-171 | every product of the storefront's own list belongs to one of the six categories |
| Catalog.GetAllProducts | src/services/api.js:176-216 | a fresh cache entry is returned as it is; otherwise the store's own products come first, followed by the converted external products, or stand alone when the request failed; the result is cached under `all-products` at the current time |
| Catalog.GetProductsByCategory | src/services/api.js:219-222 | exactly the catalog products with the category, in catalog order: an order-preserving subsequence holding every occurrence of a matching product and none of any other |
| Catalog.GetFeaturedProducts | src/services/api.js:225-228 | exactly the featured products, in catalog order: an order-preserving subsequence holding every occurrence of a featured product and none of any other |
| Catalog.GetProduct | src/services/api.js:231-234 | none exactly when no product has the id; otherwise the first product with that id |
| Catalog.SearchProducts | src/services/api.js:237-245 | exactly the products whose lower-cased title, description or category contains the lower-cased query, in catalog order and with every occurrence kept |
| Catalog.SearchEmptyQueryFindsAll | src/services/api.js:237-245 | an empty query returns the whole catalog unchanged |
| Catalog.SortProducts | src/services/api.js:298-313 | the result is a permutation of the input; an unknown key returns the input itself; `rating` throws exactly when there are two or more products and one has no rating |
| Catalog.SortProductsByPrice | src/services/api.js:300-303 | `price-low` is non-decreasing by price and `price-high` non-increasing |
| Catalog.SortProductsByRating | src/services/api.js:304-305 | when every product is rated, `rating` succeeds and is non-increasing by rate |
| Catalog.SortProductsByName | src/services/api.js:306-307 | `name` orders titles by the collation when it is a total preorder |
| Catalog.SortProductsByFeatured | src/services/api.js:308-309 | `featured` returns the featured products in input order followed by the others in input order, so every featured product precedes every other one |
| Catalog.FeaturedSortIsStablePartition | src/services/api.js:308-309 | sorting by the featured comparator equals the featured products followed by the non-featured ones, each group in input order |
| Catalog.FeaturedSortPutsFeaturedFirst | src/services/api.js:308-309 | after the featured sort no non-featured product precedes a featured one |
| Catalog.ByCategoryIsFilter | src/services/api.js:267-270 | the category step filters only for a non-empty category other than `all`, and then keeps exactly that category |
| Catalog.ByMinPriceIsFilter | src/services/api.js:272-275 | the minimum-price step applies only when the bound is given, and it is inclusive |
| Catalog.ByMaxPriceIsFilter | src/services/api.js:276-278 | the maximum-price step applies only when the bound is given, and it is inclusive |
| Catalog.BySearchIsFilter | src/services/api.js:280-287 | a non-empty search keeps exactly the products whose lower-cased title or description contains the lower-cased query; the category is not consulted |
| Catalog.FilterStepsMatch | src/services/api.js:264-287 | the four filter steps in sequence keep exactly the products passing all four tests, in input order |
| Catalog.GetFilteredProductsSound | src/services/api.js:264-294 | before sorting, the result is an order-preserving subsequence of the catalog holding exactly the matching products; without a sort key it is returned as is; sorting only permutes it |
| Catalog.GetFilteredProductsNoFilters | src/services/api.js:264-294 | with no filters the catalog comes back unchanged |
| Cart.IsInCart | src/context/CartContext.jsx:163-165 | true exactly when some line has the id |
| Cart.GetCartItem | src/context/CartContext.jsx:174-176 | none exactly when the id is not in the cart; otherwise the first line with the id |
| Cart.GetItemQuantity | src/context/CartContext.jsx:168-171 | 0 for an absent id; otherwise the quantity of the first line with the id |
| Cart.GetItemQuantityUnique | src/context/CartContext.jsx:168-171 | when ids are unique, the quantity reported for a line's id is that line's quantity |
| Cart.ItemCount | src/context/CartContext.jsx:141-143 | the sum of quantities is at least the number of lines when every quantity is at least 1, and 0 for an empty cart |
| Cart.ItemCountAppend | src/context/CartContext.jsx:141-143 | the item count of two carts joined is the sum of their counts |
| Cart.Subtotal | src/context/CartContext.jsx:145-147 | the sum of price times quantity is non-negative when prices and quantities are, and 0 for an empty cart |
| Cart.SubtotalAppend | src/context/CartContext.jsx:145-147 | the subtotal of two carts joined is the sum of their subtotals |
| Cart.Add | src/context/CartContext.jsx:15-34 | for an id already present, the line count is unchanged, each line with the id keeps its product (stored price included) and gains the amount (default 1), and all other lines are untouched; for a new id, the line `{product, amount}` is appended after the unchanged lines; either way the id is then in the cart |
| Cart.Remove | src/context/CartContext.jsx:36-41 | no line with the id remains, the result is an order-preserving subsequence, every line with another id survives, and removing an absent id changes nothing |
| Cart.RemoveKeepsCopies | src/context/CartContext.jsx:36-41 | a remove keeps every copy of every line with another id, as many times as it occurred, and none with the id |
| Cart.Update | src/context/CartContext.jsx:43-59 | a quantity of 0 or less is exactly a remove; a positive quantity replaces only the quantity of the lines with the id and keeps everything else; an absent id changes nothing |
| Cart.Reduce | src/context/CartContext.jsx:13-78 | clear empties the cart, load installs the payload's items or an empty list, any other action type returns the state itself, and the add, remove and update actions leave the id present, absent, or the line count unchanged |
| Cart.ReducePreservesValid | src/context/CartContext.jsx:13-66 | unique ids and quantities of at least 1 survive add (with an amount of at least 1), remove, update and clear |
| Cart.LoadDoesNotRevalidate | src/context/CartContext.jsx:68-73 | a load can take a valid cart to an invalid one, because it installs its lines unchecked |
| Cart.AddZeroDoesNotRevalidate | src/context/CartContext.jsx:15-34 | an add of amount 0 can take a valid cart to an invalid one |
| Cart.AddItemCount | src/context/CartContext.jsx:15-34 | with unique ids an add raises the item count by the amount, whether merged or appended |
| Cart.RemoveItemCount | src/context/CartContext.jsx:36-41 | with unique ids a remove lowers the item count by the removed id's quantity |
| Cart.UpdateItemCount | src/context/CartContext.jsx:43-59 | with unique ids a set-quantity swaps the line's old quantity for the new one, or drops it for a quantity of 0 or less |
| Cart.Hydrate | src/context/CartContext.jsx:93-103 | nothing saved or unreadable text leaves the cart empty; a parsed value is loaded as a load action, so the cart holds exactly the saved list, or nothing when the saved object has no `items` |
| Cart.Save | src/context/CartContext.jsx:106-112 | hydrating what was saved gives back the same cart |
| Pricing.Round2 | src/context/CartContext.jsx:187-192 | the result is a whole number of cents within half a cent of the input (halves go up) |
| Pricing.Round2Monotone | src/context/CartContext.jsx:187-192 | rounding to cents preserves order |
| Pricing.Round2Idempotent | src/context/CartContext.jsx:187-192 | rounding an already rounded amount changes nothing |
| Pricing.Tax | src/context/CartContext.jsx:149-151 | tax is 8% of the subtotal, between 0 and the subtotal for a non-negative subtotal |
| Pricing.Shipping | src/context/CartContext.jsx:153-155 | shipping is 0 exactly when the subtotal exceeds 100, and 9.99 otherwise |
| Pricing.Total | src/context/CartContext.jsx:157-160 | the total is 1.08 times the subtotal, plus 9.99 unless the subtotal exceeds 100 |
| Pricing.CartSummary | src/context/CartContext.jsx:179-194 | subtotal, tax, shipping and total are each the whole-cent rounding of their exact values, the total rounded from the unrounded sum; the item count is the sum of quantities; free shipping is eligible exactly when the subtotal exceeds 100, which is exactly when shipping is 0; the remaining amount is 0 when eligible and otherwise the rounded shortfall, within [0, 100] for a non-negative subtotal; subtotal and total are within half a cent of their exact values |
| Pricing.RemainingBounds | src/context/CartContext.jsx:192 | for a subtotal in [0, 100] the rounded shortfall lies in [0, 100] |
| Pricing.EmptyCartSummary | src/context/CartContext.jsx:179-194 | an empty cart reports 0 items, subtotal 0, tax 0, shipping 9.99, total 9.99, not eligible, 100 remaining |
| Pricing.SummaryAboveThreshold | src/context/CartContext.jsx:179-194 | lines of 2 x 10, 1 x 5.50 and 1 x 100 give 125.50, tax 10.04, free shipping and total 135.54 |
| Pricing.SummaryBelowThreshold | src/context/CartContext.jsx:179-194 | a 20.00 cart gives tax 1.60, shipping 9.99, total 31.59 and 80 remaining |
| Pricing.TotalIsNotSumOfShownParts | src/context/CartContext.jsx:183-190 | at subtotal 50.065 the shown parts 50.07 + 4.01 + 9.99 add up to 64.07 while the shown total is 64.06 |
| CategoryPage.SortedProducts | src/pages/Category/index.jsx:30-47 | missing products give an empty list; otherwise the result is a permutation of the products |
| CategoryPage.SortedByPrice | src/pages/Category/index.jsx:35-38 | `price-low` is non-decreasing by price and `price-high` non-increasing |
| CategoryPage.SortedByRating | src/pages/Category/index.jsx:39-40 | `rating` is non-increasing by rate, a missing rating counting as 0 |
| CategoryPage.SortedByName | src/pages/Category/index.jsx:41-42 | `name` orders titles by the collation when it is a total preorder |
| CategoryPage.SortedByFeatured | src/pages/Category/index.jsx:43-45 | `featured` and every other key give the featured products first, each group in input order |
| CategoryPage.AgreesWithCatalogSort | src/pages/Category/index.jsx:30-47 | where the catalog's sort succeeds on a key the page knows, both sorts agree; on other keys the catalog keeps the order while the page sorts by `featured` |
| Errors.NewAppError | src/hooks/useErrorHandler.js:24-33 | an application error keeps its message, type, severity and the details it is given, defaulting to type `UNKNOWN`, severity `MEDIUM` and empty details |
| Errors.StatusOf | src/hooks/useErrorHandler.js:149-150 | the status is `status` when it is present and non-zero, otherwise `response.status` when that is present and non-zero, otherwise none |
| Errors.StatusType | src/hooks/useErrorHandler.js:152-156 | 401 selects authentication, 403 authorization, 404 not-found, 500 and above server, any other code from 400 to 499 API, and a code below 400 selects no type |
| Errors.GetErrorType | src/hooks/useErrorHandler.js:140-165 | no error is `UNKNOWN`; `NETWORK` exactly for the name `NetworkError` or a message containing `fetch`; otherwise 401, 403 and 404 select authentication, authorization and not-found, 500 and above selects server, any other code of 400 or more selects API; `VALIDATION` exactly when no such status applies and the name is `ValidationError` or the message contains `validation`; `UNKNOWN` exactly when nothing applies |
| Errors.FormatErrorMessage | src/hooks/useErrorHandler.js:168-189 | no error gives the unknown-error text; network, authentication, authorization, not-found and server errors show their type's fixed text; any other error shows its own message when it is non-empty, and otherwise the fallback text of its type (`Invalid input…` for validation, `API error…` for API, `An unexpected error occurred.` for the rest); the result is never empty |
| Errors.TypeText | src/hooks/useErrorHandler.js:171-187 | each error type is paired with its own text: the fixed text of network, authentication, authorization, not-found and server errors, and the fallback text of validation, API and unknown or missing types; no text is empty |
| Errors.FixedTextsIgnoreMessage | src/hooks/useErrorHandler.js:171-181 | for network, authentication, authorization, not-found and server errors the text shown is that type's fixed text, so it does not depend on the error's message |
| Errors.RecoveryActions | src/hooks/useErrorHandler.js:192-230 | network gives check-connection, retry, refresh; authentication gives log-in, refresh; not-found gives go-back, go-home; every other type gives retry, refresh (stated through each action's presence, the length, and the first and last action) |
| Errors.WrapError | src/hooks/useErrorHandler.js:40-46 | an application error is kept as it is; anything else becomes a medium-severity error of the classified type carrying the original error and its message, or a default message |
| Errors.HandleAsync | src/hooks/useErrorHandler.js:82-95 | a success is returned; a failure becomes a medium-severity error of the classified type with the given message (default `Operation failed`), the original error and no attempt count |
| Errors.RetryOperation | src/hooks/useErrorHandler.js:98-122 | with fewer than one retry allowed nothing is called; otherwise it never ends without returning or throwing, and the number of calls is the index of the first success, or the limit when every call fails; the failure error is raised exactly when every allowed call failed, with severity `HIGH`, the classified type of the last failure, and `attempts` equal to the limit; the wait after the k-th failure is `delay * k`, and no wait follows the last call |
| Accessibility.HexToRgb | src/hooks/useAccessibility.js:182-189 | a colour comes back exactly for an optional `#` followed by six hex digits in either case, with every channel in 0..255 |
| Accessibility.HexRoundTrip | src/hooks/useAccessibility.js:182-189 | parsing the `#rrggbb` spelling of a colour gives the colour back |
| Accessibility.BareSameAsHash | src/hooks/useAccessibility.js:184 | the `#` is optional: six characters parse to the same colour, or to none, with or without a leading `#` |
| Accessibility.HexToRgbIgnoresCase | src/hooks/useAccessibility.js:183 | lower-casing the text does not change the parse |
| Accessibility.Luminance | src/hooks/useAccessibility.js:192-199 | the luminance of a colour lies in [0, 1] for any gamma curve into [0, 1] |
| Accessibility.Ratio | src/hooks/useAccessibility.js:206-212 | the lighter-over-darker ratio with the 0.05 offsets lies in [1, 21] |
| Accessibility.RatioTimesDarker | src/hooks/useAccessibility.js:208-212 | the ratio times the darker luminance plus 0.05 is the lighter luminance plus 0.05, which fixes the ratio as `(brightest + 0.05) / (darkest + 0.05)` |
| Accessibility.RatioOneIffEqual | src/hooks/useAccessibility.js:208-212 | two luminances have ratio 1 exactly when they are equal |
| Accessibility.RatioBlackWhite | src/hooks/useAccessibility.js:208-212 | luminances 1 and 0, in either order, give the maximum ratio 21 |
| Accessibility.RatioMonotone | src/hooks/useAccessibility.js:208-212 | against the same darker luminance, a lighter colour never gives a lower ratio |
| Accessibility.CalculateContrast | src/hooks/useAccessibility.js:201-212 | 0 exactly when either colour does not parse, otherwise a ratio in [1, 21] |
| Accessibility.BlackOnWhite | src/hooks/useAccessibility.js:201-212 | when the gamma curve sends 0 to 0 and 255 to 1, `#000000` against `#ffffff` has contrast 21, so the luminance weights add up to 1 |
| Accessibility.ContrastSymmetric | src/hooks/useAccessibility.js:206-212 | swapping the two colours does not change the contrast |
| Accessibility.ComplianceFor | src/hooks/useAccessibility.js:215-224 | AA holds exactly from 4.5, AAA from 7, large-text AA from 3 and large-text AAA from 4.5, so AAA implies AA and AA implies large-text AA |
| Accessibility.CheckContrastCompliance | src/hooks/useAccessibility.js:215-224 | the contrast of the two colours, which does not depend on which is the foreground, with each level set exactly when the contrast reaches its threshold (4.5, 7, 3, 4.5); a colour that does not parse gives contrast 0 and passes no level |
| Accessibility.CheckSemanticStructure | src/hooks/useAccessibility.js:285-303 | an issue is reported at a heading exactly when its level exceeds the previous level (0 before the first heading) by more than one, with both levels recorded, in document order, and never more issues than headings |
| Accessibility.CreateAriaLabel | src/hooks/useAccessibility.js:235-237 | the text alone without a context, otherwise the text, `, ` and the context |
| Accessibility.CreateAriaDescription | src/hooks/useAccessibility.js:239-242 | the non-empty parts joined by `. `: both parts, only one of them, or the empty string |
| Accessibility.UpdateFontSize | src/hooks/useAccessibility.js:45-48 | the preference records the size; the root font size is 18px for `large`, 14px for `small` and 16px otherwise |
| Slider.JsRem | src/components/ui/Slider.jsx:28 | JavaScript's remainder keeps the sign of the dividend, is smaller in magnitude than the divisor, and agrees with the mathematical remainder for a non-negative dividend |
| Slider.JsRemIsRemainder | src/components/ui/Slider.jsx:28 | the dividend equals the divisor times the quotient truncated toward zero plus the remainder, which with the sign and bound pins the remainder down for every sign |
| Slider.ScrollToIndex | src/components/ui/Slider.jsx:16-25 | the index changes only while the slider element exists, and then becomes the requested index |
| Slider.NextIndex | src/components/ui/Slider.jsx:27-30 | with no slides or a NaN index the result is NaN; from an in-range index it moves one on, wrapping from the last slide to 0; from any index, in range or not, it is the JavaScript remainder of the index plus one by the slide count |
| Slider.PrevIndex | src/components/ui/Slider.jsx:32-35 | from 0 it goes to the last slide, otherwise one back; NaN stays NaN |
| Slider.StepsStayInRange | src/components/ui/Slider.jsx:27-35 | with at least one slide both steps keep an in-range index in range |
| Slider.StepsAreInverse | src/components/ui/Slider.jsx:27-35 | previous after next, and next after previous, return to the same slide |
| Slider.SingleSlideStays | src/components/ui/Slider.jsx:27-35 | with one slide both steps stay at 0 |
| Slider.NoSlidesGivesNaN | src/components/ui/Slider.jsx:27-30 | with no slides `next` makes the index NaN, and neither step leaves NaN |
| Slider.AdvanceWraps | src/components/ui/Slider.jsx:27-30 | k steps forward from slide i land on slide (i + k) mod n |

## Left out

- The network request to the external store, `Date.now`, `setTimeout` and `localStorage`: these are I/O and clocks. The response body, the current time and the stored value are parameters, and only the wait lengths of `retry` are modelled.
- Floating-point arithmetic: prices and sums are exact reals, so IEEE rounding of intermediate values is not modelled.
- Pricing.Round2: does not model the binary-floating-point error of `x * 100` before `Math.round`, because amounts are exact reals.
- Accessibility.Luminance: does not model the `Math.pow` gamma curve, because it is floating-point exponentiation. The curve is a parameter assumed to map 0..255 into [0, 1].
- Catalog.TransformFakeStore: uses the corrected category mapping, so an external category named after an `Object.prototype` member (such as `constructor`) becomes `weight-loss` rather than the inherited member; the as-written lookup is `Catalog.MapFakeStoreCategoryAsWritten`.
- Catalog.GetAllProducts: converts external products with the corrected category mapping, as in the line above.
- Unicode case mapping: `toLowerCase` is modelled on ASCII letters only.
- Product fields that no modelled operation reads (`badge`, `badgeColor`, `inStock`, `isFakeStore`, category gradients) are not part of the records.
- Non-array or `null` stored carts: a stored JSON `null` or an `items` value that is not an array would make the reducer throw during rendering. Stored values are modelled as parsed objects whose `items` is a list or missing.
- Quantities, statuses and the retry limit that are not integers, and thrown values that are not objects, are outside the model's types. For example, `retry` with a limit of 2.5 stops after two failed calls and resolves `undefined` without throwing, since `attempt === maxRetries` never holds.
- Errors.RecoveryActions: a `null` error makes the source throw a `TypeError` on `error.type`; the model takes an error value.
- The error list kept by the error-handler hook (`removeError`, `clearErrors`, `getErrorsByType`, `getErrorsBySeverity`, the timestamps and `Date.now` ids): this is React state bookkeeping. Only the error object `addError` builds is modelled.
- `getCategories` and the `useProducts` hooks: they return the category table or forward to the catalog functions with loading state.
- The screen-reader announcements, focus trapping, keyboard listeners, media-query preferences and `generateId` (`Math.random`) of the accessibility hooks, and the slider's scrolling, autoplay timer and rendering: these are DOM and timing effects.
- The cart provider's `useCart` guard, React rendering and animation everywhere.

## Findings

| source | as written | input that shows it | evidently intended | confidence | as-written member | corrected member |
|---|---|---|---|---|---|---|
| src/services/api.js:253-261 | `categoryMap[fakeStoreCategory] \|\| 'weight-loss'` looks the name up on a plain object literal, so names inherited from `Object.prototype` are found | an external product whose category is `constructor` gets the `Object` constructor function as its category | every unknown name maps to `weight-loss`, so every product has a key of the category table | not executed | Catalog.MapFakeStoreCategoryAsWritten | Catalog.MapFakeStoreCategory |
