# Barista order feed: purchase normalisation

A Dafny model of the order feed behind the coffee-shop barista display. The
`get-orders` handler obtains an access token from the card-payment provider,
fetches today's purchases, and turns the raw `purchases` array into the list
the display shows:

1. **Validate** (`Purchases.Keep`). An entry is kept only when it is an object,
   its `purchaseUUID` is truthy, and its `products` is a non-empty array.
   Invalid entries are dropped, not fatal.
2. **Format** (`Orders.FormatOrder`, `Orders.FormatItem`). Each kept purchase
   becomes an order. Its id and timestamp are copied. Its number is
   `purchaseNumber`, or `"Unknown"`. It has one line per product, in product
   order, with defaults `"Unknown Item"`, quantity `1`, and empty variant and
   comment. It starts not completed.
3. **Sort** (`Recency.SortByRecency`). Orders are put most recent first.
   JavaScript's sort is stable, so orders with equal timestamps keep their
   input order.

`Pipeline.FormatPurchases` composes the three steps and adds the
`purchases || []` fallback. `Handler.Handle` wraps the pipeline in the
handler's catch-all: every failure becomes a 500 answer with
`status: 'error'`, stage `processing`, and no orders.

JavaScript values are modelled by `Js.Scalar`, and `Js.Truthy` is
JavaScript's ToBoolean, so each `!x` guard and `x || default` is exact. For
example, a quantity of `0` or `""` becomes `1`, and an empty-string
`purchaseUUID` drops the purchase.

Modules: `Wrappers` (Option, Result), `Js`, `Errors` (the modelled ways the
handler's `try` can end in its `catch`), `Purchases` (raw input and validator),
`Orders` (display shape and formatter), `Recency` (sort), `Pipeline`, and
`Handler`.

Behaviour modelled as the code has it:

- A truthy `purchases` that is not an array has no `.filter`. The handler
  then fails with 500 (`PurchasesNotAList`).
- Validation does not look inside `products`. A kept purchase with a `null`
  or `undefined` product makes `product.name` throw, and the whole answer
  becomes a 500 (`NullProduct`), not just that purchase.
- There is one upstream source, this handler applies no completion
  filter, and orders with equal timestamps keep their input order because
  the sort is stable.
- A non-ok token reply whose body is JSON `null` fails while reading
  `errorData.error`, before the authentication message is built
  (`NullBody`, not `AuthenticationFailed`).

## Model

| member | source | states |
|---|---|---|
| Purchases.Keep | netlify/functions/get-orders.js:59-74 | a purchase is kept if and only if it is an entry of the input that is an object with a truthy `purchaseUUID` and a non-empty `products` array; never more kept than entries |
| Purchases.KeepCounts | netlify/functions/get-orders.js:59-74 | each valid purchase is kept exactly as many times as it occurs in the input, and an invalid one never: nothing is invented or duplicated |
| Purchases.KeepAppend | netlify/functions/get-orders.js:59-74 | the filter preserves input order: filtering a concatenation is the concatenation of the filtered parts |
| Orders.FormatItemDefaults | netlify/functions/get-orders.js:81-84 | a line keeps each truthy product field. A falsy name becomes "Unknown Item", a falsy quantity (including 0) becomes 1, and a falsy variant or comment becomes "". Name and quantity are always truthy |
| Orders.FormatItemIdempotent | netlify/functions/get-orders.js:81-84 | defaulting is idempotent: formatting an already formatted line changes nothing |
| Orders.FormatItemLossless | netlify/functions/get-orders.js:81-84 | when all four product fields are truthy, the line gives back the product exactly |
| Orders.FormatItems | netlify/functions/get-orders.js:80-85 | the lines have the products' length and order, one formatted line per product. The map fails if and only if a product element is null or undefined |
| Orders.FormatOrder | netlify/functions/get-orders.js:75-87 | the order's id and timestamp are the purchase's own. Its number equals `purchaseNumber` if and only if that is truthy, and is "Unknown" otherwise. It has one line per product and starts not completed. A valid purchase yields a displayable order |
| Orders.FormatAll | netlify/functions/get-orders.js:75-87 | one order per kept purchase, in purchase order. It fails if and only if some kept purchase has an unreadable product |
| Recency.SortByRecency | netlify/functions/get-orders.js:88 | the sorted list is a permutation of its input (same multiset) with timestamps non-increasing |
| Recency.SortByRecencyStable | netlify/functions/get-orders.js:88 | the sort is stable: for every timestamp, the orders carrying it keep their relative input order |
| Recency.SortByRecencyKeepsIds | netlify/functions/get-orders.js:88 | sorting keeps the multiset of order ids |
| Recency.StableRecentUnique | netlify/functions/get-orders.js:88 | two most-recent-first lists that agree on every timestamp's subsequence are equal, so any stable descending sort gives this result |
| Pipeline.FormatPurchases | netlify/functions/get-orders.js:58-88 | a falsy `purchases` yields an empty list and no error. A truthy non-array fails. Otherwise the pipeline succeeds if and only if every valid entry's products are readable. On success the list is most recent first and every order is displayable: truthy id and number, at least one line, truthy names and quantities, not completed |
| Pipeline.FormatPurchasesCounts | netlify/functions/get-orders.js:58-87 | there are exactly as many orders as kept purchases, at most as many as entries. The multiset of shown ids equals the multiset of the kept purchases' `purchaseUUID`s |
| Pipeline.FormatPurchasesShowsValid | netlify/functions/get-orders.js:59-87 | every valid entry's formatted order is in the list |
| Pipeline.FormatPurchasesInventsNothing | netlify/functions/get-orders.js:59-87 | every listed order is the formatted form of some valid entry of the input |
| Pipeline.FormatPurchasesSortedPermutation | netlify/functions/get-orders.js:75-88 | the list is a permutation of the formatted orders, sorted by timestamp non-increasing. Orders sharing a timestamp keep their purchases' input order |
| Pipeline.FormatPurchasesDetermined | netlify/functions/get-orders.js:88 | any most-recent-first list that keeps each timestamp's formatted orders in input order is exactly the list returned |
| Handler.Handle | netlify/functions/get-orders.js:21-108 | status 200 if and only if the answer is a success, and 500 if and only if it is an error with stage "processing". A non-ok token reply gives 500 with AuthenticationFailed (or NullBody when its error body is JSON `null`), and one without a truthy `access_token` gives 500 with NoAccessToken. A non-ok purchases reply is also an error. No error answer carries orders |
| Handler.HandleSucceeds | netlify/functions/get-orders.js:40-97 | the handler succeeds if and only if a token was granted, the purchases body was a readable object, and its `purchases` formats. The orders returned are exactly that formatted list |
| Handler.HandleNoPurchases | netlify/functions/get-orders.js:54-58 | with a granted token, a purchases body without `purchases` gives 200 with an empty order list |

## Left out

- Token request and purchases request (get-orders.js:9-19, 40-47): network I/O. Their outcomes are the `Handler.Reply` inputs.
- Start-of-day computation (get-orders.js:35-38): depends on `toLocaleString` with a time-zone database and on server-local `setHours`. The purchases query therefore has no modelled date.
- The `time` field (get-orders.js:78) and `lastUpdated` (get-orders.js:95): locale-dependent clock formatting. Orders carry no `time` field.
- Timestamp parsing by `new Date(...)` in the comparator (get-orders.js:88): timestamps are already-parsed integer instants. The NaN comparisons of unparsable timestamps are not modelled.
- Error message texts and the error answer's `timestamp` (get-orders.js:24, 30, 51, 105-106): the model keeps the failure kind, not its wording or the clock reading.
- A `RangeError` from `startOfDay.toISOString()` (get-orders.js:41) on an invalid start-of-day date: the start of day is not modelled, so this throw is not among the `Errors.Failure` kinds.
- Console logging and JSON serialisation of the answer body.
- Numbers: `Js.Scalar` numbers are integers plus `NaN`. Fractions and infinities are not modelled, though their truthiness follows the same rule.
- Field values that are objects or arrays (always truthy) are not modelled as `purchaseUUID`, `purchaseNumber` or product-field values.
- netlify/functions/mark-complete.js and netlify/functions/get-completed-orders.js: thin document-store calls whose only logic is a falsy `orderId` check. They are not part of this model.
- netlify/functions/explore-api.js, test-connection.js, test-connections.js: endpoint probing and credential tests, all network I/O. They are not part of this model.
