# Amazon SP-API relay: the reshaping and validation core

The relay is a small HTTP server between an order spreadsheet and Amazon's
Selling Partner API. Around its outbound calls, three request handlers hold
the logic worth verifying. This project models that logic:

- **Order-item lookup** (`getOrderItems`). The lookup fails open: a non-ok
  status gives an empty list. An empty body reads as `{}`. The item array is
  chosen by the fallback chain `payload.OrderItems || OrderItems || []`. Each
  item is mapped to `{SellerSKU, Title, QuantityOrdered}`. SKU and title fall
  back to `""` when falsy (`||`). The quantity falls back to `1` only when
  absent or `null` (`??`).
- **Order flattening** (`/orders`). The handler walks `payload.Orders || []`
  in order, one item lookup per order. It builds one flat record per order in
  which every buyer and address key is present.
- **Shipment confirmation** (`/confirm-shipment`). The handler checks
  `orderId` and `trackingNumber` for truthiness on the raw values
  (`HasRequiredFields`). It then converts the order id with `String()`,
  which throws for an object holding its own `toString` key, and trims it
  (`RequestedOrderId`). It re-reads the items with the same fallback chain
  and rejects a list whose `length` is 0 (`LengthIsZero`: an empty array or
  string, or an object whose `length` key is 0). It then builds the
  confirmation body: the marketplace id, `packageReferenceId "1"`,
  `carrierCode "SAGAWA"`, and one `{orderItemId, quantity}` per item.

JSON values are the datatype `JsValues.Json`. `undefined` is `None` in an
`Option<Json>`. JavaScript truthiness, `?.`, `||`, `??`, `Array.prototype.map`,
`String(x)` and `trim()` are written out in `js_values.dfy`. An expression
that throws evaluates to `Eval.Threw`, and each handler turns that into its
catch-all 500 (`Reply.ServerError`). Upstream responses are inputs: a status,
the raw text, and what `JSON.parse` makes of that text. The per-order item
lookup is a function from order id to response. Whether the token exchange
succeeded is a boolean `authOk`. The `/orders` loop is a method with loop
invariants. The rest is functions and lemmas.

Behaviours of index.js worth knowing, all modelled as the code has them:

- `/orders` reads only `payload.Orders`. There is no top-level `Orders`
  fallback, unlike the item lookup.
- `QuantityOrdered` defaults to 1 when absent and also when `null`.
- In `/confirm-shipment` a failed item lookup is not swallowed. Its status
  and body are propagated.
- The confirmation copies `QuantityOrdered` and `OrderItemId` with no
  defaults, so either may be missing from the body.
- The truthiness check on `orderId` runs before trimming, so an id made only
  of white space passes it and the lookup is made for `""`.
- `length === 0` is asked of whatever the fallback chain picked, so an
  object with `length: 0` gets the empty-list 400, while any other non-array
  value gets a 500 from `.map`.

Files: `js_values.dfy` (module `JsValues`), `http.dfy` (`Http`),
`order_items.dfy` (`OrderItems`), `orders.dfy` (`Orders`), `shipment.dfy`
(`Shipment`).

## Model

| member | source | states |
|---|---|---|
| JsValues.MapEval | index.js:58-62 | `map` with a callback that may throw: succeeds iff the callback succeeds on every element, and then has the same length with element i the callback's result on input element i |
| JsValues.MapArray | index.js:58 | `.map` on a value that is not an array throws; on an array it is `MapEval` over its elements |
| JsValues.DecimalValue | index.js:194 | the digits `String(n)` writes for a natural number denote `n`, and start with `0` only for `n == 0` |
| JsValues.DecimalInjective | index.js:194 | two different numbers never print as the same digits |
| JsValues.JsString | index.js:194 | `String(x)` throws exactly when `x` is, or an array holding somewhere, an object with its own `toString` key; a string converts to itself, a number to its decimal digits (after `-` when negative), any other object to `[object Object]` |
| JsValues.Join | index.js:194 | `join(",")` throws exactly when the conversion of one of the elements does |
| JsValues.Trim | index.js:194 | `trim()` returns a contiguous slice of the input with only white space before and after it, and neither of whose ends is white space; a string already without white space at its ends is returned unchanged |
| JsValues.TrimIdempotent | index.js:194 | trimming twice equals trimming once |
| JsValues.TrimBlank | index.js:194 | a string made only of white space trims to `""` |
| OrderItems.ChooseItemArray | index.js:55 | the chosen array is always truthy; a truthy `payload.OrderItems` (an empty array included) wins, else a truthy top-level `OrderItems`, else `[]` |
| OrderItems.NormalizeItem | index.js:58-62 | throws only on a `null` item; `SellerSKU`/`Title` keep a truthy source value and are `""` otherwise; `QuantityOrdered` keeps any present non-null value (0 included) and is 1 when absent or `null` |
| OrderItems.GetOrderItems | index.js:48-62 | a non-ok status gives `[]` and never an error; empty text gives `[]`; non-empty text that is not JSON throws; otherwise the result exists iff the chosen value is an array without `null` items, and then matches it one to one, in order |
| OrderItems.ItemJson | index.js:58-62 | a serialised item has exactly the keys `SellerSKU`, `Title`, `QuantityOrdered` |
| OrderItems.NormalizeIdempotent | index.js:58-62 | normalising an already normalised item changes nothing |
| OrderItems.ZeroQuantityKept | index.js:59-61 | a quantity of 0 stays 0 (`??`) while a SKU of 0 becomes `""` (`\|\|`) |
| Orders.TextField | index.js:161-169 | `parent?.key \|\| ""` is the truthy source value or `""`, and is always `""` or truthy |
| Orders.FlattenOrder | index.js:155-175 | `AmazonOrderId`, `PurchaseDate`, `OrderStatus` are copied (possibly undefined); `Items` is the lookup result; each of the eight buyer/address fields is `TextField` of its own source key under `BuyerInfo` or `ShippingAddress`, hence `""` or truthy; `OrderTotal` is the raw `Amount`, null exactly when it is absent or falsy; `Currency` is `CurrencyCode`, null exactly when it is absent or falsy |
| Orders.MissingAddressBlank | index.js:164-169 | an order with no shipping-address object gets all six address keys, each `""` |
| Orders.IdEntries | index.js:156-158 | the three verbatim keys are serialised exactly when defined |
| Orders.FixedEntries | index.js:161-174 | the serialised buyer, address, total, currency and item keys are always all present |
| Orders.RenderOrder | index.js:155-178 | a serialised record always has every buyer, address, total, currency and `Items` key, has the verbatim keys exactly when defined, and has no other keys; its `OrderTotal` is null exactly when the record's total is |
| Orders.RawOrders | index.js:145 | a truthy `payload.Orders` is walked, else `[]` (no top-level fallback) |
| Orders.OrdersToVisit | index.js:144-152 | empty text gives no orders; non-empty text that is not JSON throws; an absent or falsy `payload.Orders` gives no orders; an array gives its elements in order; a string gives one order per character; any other truthy value throws, as `for...of` does |
| Orders.Enrich | index.js:153-175 | one loop pass succeeds iff the order is not `null`, its `AmazonOrderId` converts to a string for the lookup URL, its item lookup does not throw, and a truthy `OrderTotal.Amount` converts with `Number`; it then yields `FlattenOrder` of the order and that lookup |
| Orders.FlattenOrders | index.js:151-176 | the loop succeeds iff every pass does, and then returns exactly one record per order, in input order, record i being that of order i |
| Orders.ListOrders | index.js:111-178 | a failed token exchange is a 500; a non-ok list response propagates its status and body; otherwise the reply has as many records as orders, in order, or is a 500 when a pass throws |
| Shipment.MarketplaceId | index.js:10 | a non-empty `SPAPI_MARKETPLACE_ID` is used as is, otherwise the Japan marketplace `A1VC38T7YXB528`; never empty |
| Shipment.ToConfirmItem | index.js:231-234 | throws only on a `null` item, and otherwise copies `OrderItemId` and `QuantityOrdered` without defaults |
| Shipment.RequestedOrderId | index.js:194 | `String(orderId).trim()` throws exactly when `String()` does; its result never starts or ends with white space; a string id is trimmed and a non-negative number becomes its digits |
| Shipment.ConfirmFromLookup | index.js:208-237 | a non-ok lookup propagates its status and body; unparseable text is a 500; the 400 for an empty list happens exactly when the chosen value has `length` 0; a non-empty non-array or an array holding `null` is a 500; a confirmation happens exactly for a non-empty array of non-null items, and carries the order id, marketplace id, `packageReferenceId "1"`, `carrierCode "SAGAWA"`, the raw tracking number, the ship date and one `(OrderItemId, QuantityOrdered)` per item, in order |
| Shipment.DecideConfirmation | index.js:188-237 | a null body is a 500; the missing-field 400 happens exactly when `orderId` or `trackingNumber` is falsy; a throwing `String()` or a failed token exchange is a 500; after that the lookup for the trimmed id decides as `ConfirmFromLookup` says, and a confirmation happens exactly when it does |
| Shipment.ConfirmShipment | index.js:237-263 | the body's marketplace id is `MarketplaceId` of the setting; the reply is `{ok: true}` exactly when a confirmation was decided and its POST was ok; a failed POST propagates its status and body; every other decision is passed through unchanged |
| Shipment.RejectsBeforeAnyCall | index.js:190-192 | without both fields the reply is the same 400 whatever the token exchange, the item lookup or the POST would answer |
| Shipment.ZeroLengthObjectRejected | index.js:219-223 | an "item array" that is really an object with `length: 0` gets the empty-list 400, not a 500 |
| Shipment.BlankOrderIdPassesValidation | index.js:190-194 | the truthiness check runs on the raw id, so an all-white-space id passes it and the lookup is made for `""` |

## Left out

- Express setup, routing, `app.listen`, `/health` and `/webhook` are left out. They are framework plumbing with no logic.
- `/order/:orderId` is left out. It passes the upstream order through unchanged.
- All outbound `fetch` calls are left out. So is the refresh-token exchange of section 6 of RFC 6749. Their responses are inputs, and the exchange is reduced to whether it succeeded.
- URL building with `encodeURIComponent` is left out. The item lookup is keyed by the order id value itself; only the conversion's throw on an id with its own `toString` key is modelled (`Enrich`).
- `JSON.parse` and `JSON.stringify` are not modelled as text transformations. A response carries its parse result. Serialisation is modelled only as far as which keys appear (`RenderOrder`).
- Numbers are integers. NaN, fractions and -0 are not modelled. JavaScript loses precision beyond 2^53; the model does not.
- JsString: every integer prints as all its decimal digits, whereas `String(n)` switches to exponent notation from 10^21 on (`"1e+21"`); such an order id would be sent in that form by the relay.
- `Number(o.OrderTotal.Amount)` is not modelled as a conversion: `FlatOrder.OrderTotal` keeps the raw `Amount`. Only the null/non-null decision and the throw on an amount with its own `toString` key (`Enrich`) are modelled.
- RenderOrder: a truthy `Amount` that is not numeric text (say `"abc"`) becomes `NaN`, which `JSON.stringify` writes as `null`; the clause "`OrderTotal` is null exactly when the record's total is" therefore holds only for numeric amounts in index.js.
- A `fetch` that fails at the network level rejects its promise and so throws. In `/orders` an item lookup that throws this way turns the whole list into a 500; `fetchItems` always returns a `Response`, so the model has no such case.
- `Date`, `Date.now()` and `toISOString()` are not modelled. `shipDate` is a parameter, and the default `createdAfter` is left out. A `createdAfter` query value that is not a valid date makes `toISOString()` throw, a 500 before the token exchange (index.js:113-116); `ListOrders` starts after that point.
- `console` logging is left out.
- The text of the 500 error message is not modelled. `ServerError` carries no message.
- The Japanese text of the two 400 messages is not modelled. `Rejection` says which of the two checks failed.
- `for...of` over a string walks code points. Strings here are sequences of Unicode scalar values, so a string's length is counted in code points, not in UTF-16 units. This matters only for `LengthIsZero`, where both counts agree on emptiness.
