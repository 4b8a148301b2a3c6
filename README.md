# Avion storefront: checkout and inventory rules

This project models the server-side checkout and inventory logic of the Avion
storefront, a Next.js shop whose products, customers and orders live in a
Sanity content store, and proves properties of that model. It covers:

- the stock endpoint `POST /api/updateStock`. It validates `{ productId,
  quantity }` and looks the product up in `products`, falling back to
  `productList`. It refuses to take the stock below zero and writes the new
  stock with a revision guard (`ifRevisionId`).
- `saveOrderToSanity`. It finds or creates the customer by exact (email,
  full name) match and numbers the order `AvionOID-NN` after the most recent
  order. It creates a `pending` order whose line items mirror the cart.
- the two order routes in front of the store: `POST /api/saveOrder`, with its
  seven-condition guard and one `order` create, and `POST /api/order`, with
  its three-value guard and one call to `saveOrderToSanity`.
- the product schema's discount-price validator, numeric bounds and preview
  subtitle.
- the product list's filter-to-sort rule.
- the request middleware's referrer guard for `/billing-summary`, `/success`
  and `/cancel`.

Module layout:

- `ContentStore` (content_store.dfy) holds the store. The `Dataset` class has
  a map of stock-carrying documents, a sequence of customers and a sequence of
  orders in creation order. Its queries are functions; `create` and the guarded
  `patch` are methods.
- `UpdateStock`, `OrderPersistence`, `SaveOrderRoute` and `OrderRoute` each
  pair an imperative handler with a specification function. The handler works
  on the store step by step with early returns. The function (`Reserve`,
  `Save`, `Submit`, `Handle`) gives the new collections and the response, and
  the handler's `ensures` ties it to that function.
- Store calls that throw are an explicit parameter naming the failing call
  (`Hazard` or `outage`). A concurrent writer is `RivalCommits`: another
  request's guarded commit lands between this request's read and its commit.
- `Json` models the JavaScript values the handlers destructure, with
  truthiness. `Strings` models the string built-ins the core uses: `split`,
  `parseInt(…, 10)`, `Number#toString` and `padStart` for the order id, and
  `includes` for the middleware. `OrderIds` proves the id round trip.

The server does not recompute the order total: `saveOrderToSanity` stores
the `totalAmount` it is given, unchanged (src/utils/page.ts:72).

## Model

| member | source | states |
|---|---|---|
| UpdateStock.ValidateRequest | src/app/api/updateStock/route.ts:6-21 | A body that is not JSON or is null is a 500. A product id that is not a non-empty string is 400 "Invalid product ID". Otherwise a quantity that is not a positive number is 400 "Invalid quantity". An accepted request has a non-empty id and a positive quantity. |
| UpdateStock.Lookup | src/app/api/updateStock/route.ts:23-41 | `products` is queried first and `productList` only when that finds nothing. With both queries working, the product is found exactly when its id is in one of the two collections, and otherwise the answer is 404 "Product not found". |
| UpdateStock.Reserve | src/app/api/updateStock/route.ts:4-70 | Every rejection except a lost race leaves the store unchanged. Insufficient stock is 400 and a failed commit is 500. On success the stored stock is the old stock minus the quantity, equals the returned `newStock`, is not negative, and no other document changes. Success happens exactly when the product exists and has enough stock. This holds with no store failure, and also when only the `productList` query would fail but the product is in `products`. In that case the `productList` query is never made, so its failure cannot matter. |
| UpdateStock.ProductListOutageUnseen | src/app/api/updateStock/route.ts:23-33 | When the product is found in `products`, a failing `productList` query changes neither the response nor the store. |
| UpdateStock.Post | src/app/api/updateStock/route.ts:4-70 | The handler's effect on the store and its response are those of `Reserve`. Customers and orders are untouched. |
| UpdateStock.RaceThenRetry | src/app/api/updateStock/route.ts:58-70 | Two requests read the same revision. The one that commits second gets a 500 and the store keeps the first one's stock. Retried, it succeeds exactly when both quantities fit in the original stock; otherwise it is "Insufficient stock" and nothing changes. |
| UpdateStock.ReservePreservesNonNegativeStock | src/app/api/updateStock/route.ts:44-64 | If every stored stock is non-negative before a request, it still is after the request. |
| ContentStore.Query | src/app/api/updateStock/route.ts:23-33 | A query by collection and id finds a document exactly when one with that id is in that collection, and returns it. |
| ContentStore.CompareAndSet | src/app/api/updateStock/route.ts:58-62 | The guarded patch writes exactly when the document still has the revision read. The write sets the stock, gives a new revision and leaves every other document as it was. |
| ContentStore.MatchingCustomer | src/utils/page.ts:20-23 | Returns a customer with exactly that email and full name, or none exactly when no customer has both. The query has no `order()`, so the store does not fix which of several matches it returns. The model returns the earliest created one. |
| ContentStore.LatestOrderId | src/utils/page.ts:45-50 | The `orderId` of the most recently created order. It is none when there is no order or the latest order has no `orderId`. |
| ContentStore.Dataset.Fetch | src/app/api/updateStock/route.ts:23-33 | A fetch returns what `Query` finds and changes nothing. |
| ContentStore.Dataset.Patch | src/app/api/updateStock/route.ts:58-62 | It commits exactly when `CompareAndSet` succeeds, and the stored documents become its result. Customers and orders are unchanged. |
| ContentStore.Dataset.CreateCustomer | src/utils/page.ts:33-40 | Appends one customer and returns its `_id`. Nothing else changes. |
| ContentStore.Dataset.CreateOrder | src/utils/page.ts:59-78 | Appends one order. Nothing else changes. |
| Json.Get | src/app/api/updateStock/route.ts:6 | Destructuring fails exactly on `null` and `undefined`. A property an object lacks reads as `undefined`. |
| Strings.JoinSplit | src/utils/page.ts:51 | Joining the parts of `split` with the separator gives back the string. |
| Strings.SplitAround | src/utils/page.ts:51 | Splitting `p-q`, where neither part has a dash, gives exactly `[p, q]`. |
| Strings.PadStart | src/utils/page.ts:54-56 | The padded string is the original preceded by enough fill characters to reach the width. A string already that wide is unchanged. |
| Strings.Decimal | src/utils/page.ts:54-55 | The decimal numeral of a natural number is non-empty, all digits, has no leading zero, and reads back as that number. |
| Strings.ParseIntOfDigits | src/utils/page.ts:51 | `parseInt` of a digit string followed by a non-digit returns the value of the digits. |
| Strings.ParseIntPaddedDecimal | src/utils/page.ts:51 | Leading zeros before a numeral do not change what `parseInt` reads. |
| Strings.Split | src/utils/page.ts:51 | `split` gives at least one part, and no part contains the separator. |
| Strings.ParseInt | src/utils/page.ts:51 | `parseInt` of the empty string is `NaN`. A string starting with a digit always gives a non-negative number, and a string without a minus sign never gives a negative one. |
| Strings.Contains | src/utils/middleware.ts:25 | A string that includes `t` is at least as long as `t`, so the empty string includes only the empty string. |
| Strings.ContainsInfix | src/utils/middleware.ts:25 | A string built as `a + t + b` includes `t`. |
| Strings.MissingFirstChar | src/utils/middleware.ts:25 | A string that lacks the first character of a non-empty `t` does not include `t`. |
| OrderIds.LastOrderNumber | src/utils/page.ts:50-52 | A missing or empty last id gives 0. A number read from an id is never negative. |
| OrderIds.FormatOrderId | src/utils/page.ts:54-56 | `NaN` formats as `AvionOID-NaN`, and a non-negative number as its canonical id. |
| OrderIds.NextOrderId | src/utils/page.ts:50-56 | When the last id has a readable number `n`, the new id is the canonical id of `n + 1`. Otherwise it is `AvionOID-NaN`. |
| OrderIds.OrderId | src/utils/page.ts:54-56 | Every generated id starts with `AvionOID-`. |
| OrderIds.NumberAfterPrefix | src/utils/page.ts:51 | For `AvionOID-` followed by a dash-free suffix, the number is what `parseInt` reads from the suffix. |
| OrderIds.OrderIdRoundTrip | src/utils/page.ts:50-56 | The suffix of the id generated for `n` parses back to `n`. |
| OrderIds.NextOrderIdIncrements | src/utils/page.ts:50-56 | After the id of order `n`, the next id is the id of order `n + 1`. |
| OrderIds.NextOrderIdFollows | src/utils/page.ts:50-56 | Whenever the last id has a readable number `n`, the new id is the canonical id of `n + 1` and reads back as `n + 1`. |
| OrderIds.FirstOrderId | src/utils/page.ts:50-56 | With no prior order, or an empty id, the new id is `AvionOID-01`. |
| OrderIds.NextAfterSeven | src/utils/page.ts:50-56 | `AvionOID-07` is followed by `AvionOID-08`. |
| OrderIds.OrderIdNinetyNine | src/utils/page.ts:54-56 | Order 99 is `AvionOID-99` and order 100 is `AvionOID-100`: padding never truncates. |
| OrderIds.NonNumericSuffix | src/utils/page.ts:51 | A suffix that starts with neither a digit, a sign nor white space reads as `NaN`. |
| OrderIds.NaNPersists | src/utils/page.ts:50-56 | Once the last id has no readable number, the next id is `AvionOID-NaN`, and the id after that is unreadable too. |
| OrderPersistence.NewCustomer | src/utils/page.ts:33-40 | A created customer carries the billing name, email, phone and city, with `addressLine1` as its address. |
| OrderPersistence.ShippingAddress | src/utils/page.ts:74-76 | The shipping address is `addressLine1`, a space, then `addressLine2` if there is one. The space is there even without a second line. |
| OrderPersistence.LineItems | src/utils/page.ts:63-71 | There is one line item per cart item, in cart order, with the name, image, quantity and unit price copied and total price = unit price × quantity. |
| OrderPersistence.LineItemsAppend | src/utils/page.ts:63-71 | The line items of two concatenated carts are the two lists of line items concatenated. |
| OrderPersistence.Save | src/utils/page.ts:13-85 | An existing (email, full name) match is reused and no customer is created. Otherwise exactly one customer is created, unless the store fails first. Every failure is the single message "Failed to save order to Sanity" and creates no order. The call succeeds exactly when no store call it reaches fails, and success appends exactly one order. |
| OrderPersistence.SavedOrder | src/utils/page.ts:44-78 | The appended order has the next order id after the most recent order. It references the matched or created customer, whose email and name are the billing ones. It has the cart's line items, the given total, the shipping address and status `pending`. |
| OrderPersistence.SaveOrderToSanity | src/utils/page.ts:13-85 | The function's effect on customers and orders and its outcome are those of `Save`. Stock documents are untouched. |
| OrderPersistence.CustomerOutlivesFailedOrder | src/utils/page.ts:33-84 | If creating the order fails after a new customer was created, that customer stays in the store: the two creates are not atomic. |
| OrderPersistence.SecondOrderReusesCustomer | src/utils/page.ts:20-40 | A second order with the same email and name creates no second customer and references the customer the first order created. |
| OrderPersistence.MatchingAppended | src/utils/page.ts:20-40 | The customer created for billing details that had no match is the one found for them next time. |
| OrderPersistence.ConsecutiveSavesIncrement | src/utils/page.ts:45-61 | After an order numbered `n`, a successful save creates the order numbered `n + 1`. |
| OrderPersistence.FormOrderRestartsNumbering | src/utils/page.ts:45-56 | An order created by `/api/saveOrder` has no `orderId`, so the next checkout order is `AvionOID-01` again, whatever ids came before. |
| SaveOrderRoute.Complete | src/app/api/saveOrder/route.ts:13 | A submission passes the guard exactly when all six fields are truthy and the products are neither an empty array nor an object whose `length` is 0. |
| SaveOrderRoute.Destructure | src/app/api/saveOrder/route.ts:8-10 | Destructuring fails exactly for a body that is not JSON, `null` or `undefined`. Each field of an object body is its property, or `undefined` when the property is missing. |
| SaveOrderRoute.OrderOf | src/app/api/saveOrder/route.ts:21-29 | The created document carries the six submitted fields unchanged. |
| SaveOrderRoute.Submit | src/app/api/saveOrder/route.ts:6-42 | An incomplete submission (a falsy field, or an empty product list) is exactly the 400 case and creates no order. A body that cannot be destructured, or a failed create, is 500 "Failed to create order". The answer is 201 exactly when the submission is complete and the create succeeds, and then exactly one order with the six fields is appended. |
| SaveOrderRoute.Post | src/app/api/saveOrder/route.ts:6-42 | The handler's effect on the orders and its response are those of `Submit`. Stock documents and customers are untouched. |
| SaveOrderRoute.FalsyTotalOrNoProductsRejected | src/app/api/saveOrder/route.ts:13-18 | A total of 0, or an empty product list, is "Missing required fields" and the orders are unchanged. |
| SaveOrderRoute.StringTotalAccepted | src/app/api/saveOrder/route.ts:13-34 | The guard checks presence, not type: a total sent as the string "0" is accepted and stored as sent. |
| OrderRoute.Handle | src/app/api/order/route.ts:4-21 | A missing billing details or cart, or a falsy total, is exactly the 400 case, and nothing is saved. Otherwise the store changes exactly as one `saveOrderToSanity` call with the three request values. The response is the success message when that call succeeds and 500 "Failed to save order" when it fails. |
| OrderRoute.Post | src/app/api/order/route.ts:4-21 | The handler's effect on customers and orders and its response are those of `Handle`. |
| OrderRoute.MissingRequired | src/app/api/order/route.ts:9 | A request is refused exactly when the billing details or the cart is missing, or the total is missing, `null`, `false`, `0` or `""`. |
| OrderRoute.StringTotalStored | src/app/api/order/route.ts:9-16 | The check is on presence, not type: a total sent as the string "100" is saved unchanged, while `""` and `false` are refused with 400. |
| OrderRoute.EmptyCartSaved | src/app/api/order/route.ts:9-16 | An empty cart passes the check and is saved as an order with no items. |
| ProductSchema.NumericPrice | src/sanity/schemaTypes/productType.ts:59-62 | The price is read exactly when the document exists and its `price` is a number. |
| ProductSchema.DiscountRule | src/sanity/schemaTypes/productType.ts:57-68 | The error "Discount price must be less than the original price" is given exactly when the document has a numeric price and the discount is set, non-zero and at least that price. Otherwise the value is valid. |
| ProductSchema.AcceptedDiscountIsBelowPrice | src/sanity/schemaTypes/productType.ts:57-67 | An accepted non-zero discount on a document with a numeric price is below that price. |
| ProductSchema.DiscountWithoutPriceAccepted | src/sanity/schemaTypes/productType.ts:59-67 | Without a document, or without a numeric price, every discount is accepted. |
| ProductSchema.PriceAndStockRules | src/sanity/schemaTypes/productType.ts:46-84 | Price and stock pass validation exactly when they are set and non-negative. |
| ProductSchema.RatingRuleMeaning | src/sanity/schemaTypes/productType.ts:90 | A product rating passes exactly when it is unset, or lies in [0, 5] with at most one decimal. |
| ProductSchema.ReviewRatingRuleMeaning | src/sanity/schemaTypes/productType.ts:110 | A review rating passes exactly when it is set and lies in [1, 5]. |
| ProductSchema.Violations | src/sanity/schemaTypes/productType.ts:50-110 | An unset value can fail only the `required` rule, and a set value never fails it. The bounds and the precision apply only to a set value. |
| ProductSchema.RatingExamples | src/sanity/schemaTypes/productType.ts:90 | 4.5 is accepted, 4.25 fails only the precision rule and 5.5 fails only the maximum. |
| ProductSchema.Interpolate | src/sanity/schemaTypes/productType.ts:141 | An unset field interpolates as `undefined`. A set one interpolates as its decimal numeral, with a leading `-` when it is negative. |
| ProductSchema.Subtitle | src/sanity/schemaTypes/productType.ts:138-143 | The subtitle starts with `$`, the price and the separator. In stock, it ends in "In Stock (", the stock and ")". Out of stock, or with `inStock` unset, it ends in "Out of Stock". Its length is exactly that of those parts, so the text is fixed in full. |
| ProductSchema.SubtitleShowsPrice | src/sanity/schemaTypes/productType.ts:138-143 | The subtitle starts with `$` followed by the price, which `parseInt` reads back. |
| ProductSchema.SubtitleShowsAvailability | src/sanity/schemaTypes/productType.ts:138-143 | In stock, the subtitle contains "In Stock (" with the stock and ")", and never "Out of Stock". Otherwise, including an unset `inStock`, it contains "Out of Stock" and never "In Stock". |
| ProductSchema.InStockSubtitle | src/sanity/schemaTypes/productType.ts:141 | In stock, the subtitle names the stock and does not contain "Out of Stock". |
| ProductSchema.OutOfStockSubtitle | src/sanity/schemaTypes/productType.ts:141 | Out of stock or unset, the subtitle contains "Out of Stock" and does not contain "In Stock". |
| Catalogue.OrderFor | src/components/productList-components/cards.tsx:47-55 | "price_low_to_high" and "price_high_to_low" each select their price order. Every other filter, "popularity" included, selects the rating order. |
| Catalogue.InsertPermutes | src/components/productList-components/cards.tsx:49-54 | Inserting a product adds it once and keeps every other product. |
| Catalogue.InsertSorted | src/components/productList-components/cards.tsx:49-54 | Inserting into a sorted list keeps it sorted. |
| Catalogue.SortBy | src/components/productList-components/cards.tsx:49-54 | The sorted copy is ordered by the comparator's key and is a permutation of the products. |
| Catalogue.GetFilteredProducts | src/components/productList-components/cards.tsx:46-58 | The result is a permutation of the products, so the count shown is the number of products. It is in non-decreasing price order for "price_low_to_high", non-increasing price order for "price_high_to_low", and non-increasing rating order for any other filter. |
| Catalogue.DefaultIsRatingOrder | src/components/productList-components/cards.tsx:13-54 | The page opens with the products in non-increasing rating order. |
| Catalogue.InsertStable | src/components/productList-components/cards.tsx:49-54 | Inserting a product keeps the relative order of the products that compare equal. |
| Catalogue.SortStable | src/components/productList-components/cards.tsx:49-54 | Products that compare equal keep their relative order, as `Array.prototype.sort` guarantees. |
| RouteGuard.RedirectTarget | src/utils/middleware.ts:22-53 | `/billing-summary` goes through when the referrer contains "/carts" and otherwise redirects to `/carts`. `/success` goes through when the referrer contains "/billing-summary" or "stripe.com" and otherwise redirects to `/carts`. `/cancel` goes through when the referrer contains "stripe.com" and otherwise redirects to `/`. A missing or empty referrer contains nothing. Every other path goes through. |
| RouteGuard.Middleware | src/utils/middleware.ts:15-53 | A visitor who is not signed in is stopped on exactly the non-public routes, before any referrer check. Otherwise the request is redirected exactly when `RedirectTarget` names a target. |
| RouteGuard.RedirectsDoNotChain | src/utils/middleware.ts:22-53 | The page a request is redirected to is never itself redirected, whatever its referrer. |
| RouteGuard.BillingSummaryFromCart | src/utils/middleware.ts:23-29 | Coming from any URL containing "/carts", the billing summary opens. Without a referrer it never does. |
| RouteGuard.SuccessFromCheckout | src/utils/middleware.ts:31-43 | Coming from any URL containing "/billing-summary" or "stripe.com", the success page opens. Without a referrer it never does. |
| RouteGuard.ReturnFromStripe | src/utils/middleware.ts:31-51 | With a referrer from stripe.com, both `/success` and `/cancel` open. |
| RouteGuard.EmptyRefererIsMissing | src/utils/middleware.ts:24-47 | An empty `referer` header is falsy and is treated exactly like a missing one. |

## Left out

- Stripe checkout sessions, confirmation e-mail and review submission are not part of this model. They are thin wrappers over external services, and their arithmetic is floating point.
- Rendering, the React state and the fetch that loads the product list are not modelled. Sequences are values, so the sorted copy can never reorder the input list.
- Numbers are integers: prices, stock, quantities and totals are `int`, and only ratings are `real`. Fractional JavaScript numbers, floating-point rounding of `Finalprice * Quantity`, and `Number#toString` in exponent form for very large numbers are not modelled.
- The Clerk route matcher and `auth.protect` are inputs: whether the route is public and whether the visitor is signed in. Their path patterns are not modelled.
- Store failures are an explicit parameter naming the store call that throws. Network I/O, retries inside the Sanity client and the error values themselves are not modelled.
- UpdateStock.Reserve: every stock document is taken to have an integer `stock`. A document without one gives `NaN` as the new stock, which is not below zero, so the source writes it and answers success. That path is not modelled.
- UpdateStock.Reserve: a lost race is modelled as one rival commit between this request's read and its commit. Other interleavings of concurrent requests are not modelled.
- OrderPersistence.Save: saves are modelled one at a time. In the source, the customer lookup and the customer creation are separate calls with no revision guard, and so are the latest-order read and the order creation. Two concurrent saves can therefore both create the same customer and both get the same order id. That is not modelled. `ConsecutiveSavesIncrement` and `NextOrderIdFollows` hold only for saves that run one after another.
- A document's `_rev` is a counter, and a customer's `_id` is its position in the customer collection. Sanity's generated identifiers are not modelled.
- The random `_key` of each order item, the `orderDate` timestamp, the `_type` fields, console logging and the `order` document echoed in the 201 response are not modelled.
- OrderRoute.Handle: billing details and cart are taken to have the shapes the code reads whenever they are present, so they are truthy. A present but falsy or differently shaped billing details or cart is not modelled. The total is any JSON value.
- ProductSchema.Violations: names which built-in validators fail, not the messages Sanity shows for them. The `Rule.required()` checks on the text, slug, image and boolean fields have no local logic and are not modelled.
- Catalogue.GetFilteredProducts: a product without a price or rating, which compares as `NaN` in the source, is not modelled. Every product has both.
- ProductSchema.Subtitle: the preview's title and media pass through unchanged and are not modelled, and the selected price and stock are taken to be integers when set.
