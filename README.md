# Order checkout service, modelled in Dafny

The service accepts a checkout request (an email and a cart of `{name, price, quantity}`
lines), stores an Order whose amount is the fold of `price * quantity` over the cart,
decides the payment, and moves the order from `Pending` to `Success` or `Failed` before
saving it again. Two read endpoints list every order newest first and fetch one order by
identifier.

The model has two modules:

- `Orders` (`Orders.dfy`): the Order record with its `Status`, the line items, the HTTP
  responses and their fixed messages, the amount as a left fold (`Reduce`, `Amount`) with a
  reference sum (`Sum`), the checkout input check (`Validate`), and the newest-first ordering
  of the listing (`SortNewestFirst`, with the lemma that the result is unique).
- `OrderService` (`OrderStore.dfy`): the document store as a class `OrderStore` whose
  fields are the stored orders (a sequence in order of first save; an order's identifier is
  its position, since nothing ever deletes an order) and a clock that advances on every write
  and supplies `createdAt` and `updatedAt`. The three request handlers are its methods
  `Checkout`, `ListOrders` and `GetOrder`. `Insert` and `SaveStatus` are the store's two
  kinds of `save()`.

The random payment decision is the parameter `paymentSuccess`. Store failures are
parameters too: `fault` says which of the two writes of a checkout fails, and `storeFails`
says that a read fails. When the first write fails nothing is stored. When the second write
fails, the order is left in the store as `Pending` and the answer is 500, because nothing
undoes the first write.

The invariants are as follows. `Valid()` says that identifiers are positions, that
timestamps lie in the past and that no two orders share a creation time. `AmountsDerived()`
says that every stored amount is the amount of the stored items and that every stored order
passed the schema's checks. The constructor
establishes both, and checkout preserves both.

The documented item constraints are a non-empty name, a non-negative price and a positive
quantity. The handler checks none of them. The schema marks each line's `name` as a required
String (server.js:27), and a required String is rejected when empty. So the first
`order.save()` fails for a cart with an unnamed line, and the handler answers 500 with nothing
stored. The model does the same: `Insert` writes nothing when `SchemaAccepts` fails, and
`Checkout` then answers 500. Prices and quantities are required Numbers, and the schema does
not constrain their sign. A line's price and quantity are taken as submitted, and
`AmountNonNegative` states what follows when they are non-negative.

## Model

| member | source | states |
|---|---|---|
| `Orders.ReduceIsSum` | server.js:51 | the checkout reducer started at any total adds exactly the sum of `price * quantity` over the lines, in order, to that total; so `Amount` is the plain sum of the line totals |
| `Orders.AmountAppend` | server.js:51 | the amount of a cart split in two is the sum of the amounts of the two parts |
| `Orders.AmountOfOneLine` | server.js:51 | a cart of one line costs that line's price times its quantity |
| `Orders.AmountNonNegative` | server.js:51 | if every price and quantity is non-negative, the amount is non-negative; nothing else bounds it, since neither the handler nor the schema checks the sign of a price or quantity |
| `Orders.Validate` | server.js:46-48 | a checkout request passes if and only if an email is present and non-empty and a cart is present and non-empty; a passing request yields that email and cart unchanged |
| `Orders.InsertNewestFirst` | server.js:84 | inserting one order into a newest-first sequence gives a newest-first sequence holding exactly the old orders plus that one; the result is strictly ordered when the input was and the new creation time is not already present |
| `Orders.SortNewestFirst` | server.js:84 | the listing's sort returns a permutation of its input ordered by `createdAt` descending, and strictly descending when no two inputs share a creation time |
| `Orders.NewestFirstUnique` | server.js:84 | two newest-first arrangements of the same orders, one of them strict, are equal; so the listing is determined by the store's contents |
| `OrderService.OrderStore.constructor` | server.js:22-38 | the Order collection starts empty, with both invariants holding |
| `OrderService.OrderStore.Insert` | server.js:55-61 | the first save writes nothing when the schema rejects the document (an empty email or an unnamed line) and reports that; otherwise it appends the order as given under the next identifier, with `createdAt` and `updatedAt` set to the current tick, and earlier orders are untouched |
| `OrderService.OrderStore.SaveStatus` | server.js:66-72 | a later save writes only the changed `status` and a new `updatedAt`; email, items, amount and `createdAt` stay as stored, and so do all other orders |
| `OrderService.OrderStore.Checkout` | server.js:43-79 | a request with no email, an empty email, no cart or an empty cart is answered 400 "Email and cart items are required" and the store is unchanged. A failed first write, or a cart with an unnamed line that the schema rejects at that write, answers 500 "Internal server error" and stores nothing. Otherwise exactly one order is appended and no other is changed. The order has the submitted email and items, the amount of the fold over them, and the status `Success` (200 "Payment successful") or `Failed` (400 "Payment failed"), never `Pending`. A failed second write answers 500 and leaves the order `Pending`. The invariant on amounts and schema is preserved |
| `OrderService.OrderStore.ListOrders` | server.js:82-90 | answers 200 with a permutation of all stored orders, strictly newest first by `createdAt`, or 500 "Internal server error" on a store failure |
| `OrderService.OrderStore.GetOrder` | server.js:93-104 | answers 200 with exactly the order filed under the identifier, whose `id` is that identifier, when there is one; 404 "Order not found" when there is none; and 500 "Internal server error" on a store failure |
| `OrderService.WidgetCheckout` | server.js:43-79 | on an empty store, checking out one Widget at price 10, quantity 2 stores amount 20 with status `Success` (200) or `Failed` (400). Looking that order up returns it unchanged. A following request with an empty email and an empty cart is answered 400. A cart whose one line has an empty name is answered 500. The listing then holds the Widget order alone |

## Left out

- HTTP plumbing is left out: the Express app, JSON body parsing, CORS and the server start and port selection (server.js:3-12, 107-110). Handlers take their inputs as parameters and return a `Response` value.
- The MongoDB connection and Mongoose internals are left out (server.js:16-19, 38). The store is the in-memory class `OrderStore`. ObjectId formats and cast errors are not modelled. A malformed identifier is one of the store failures that `storeFails` stands for.
- Identifiers are store positions (`nat`), not opaque ObjectIds. This is possible because orders are never deleted.
- `Math.random() > 0.2` (server.js:64) is not modelled. The payment outcome is the parameter `paymentSuccess`, so the 80/20 split is not modelled either.
- Prices, quantities and the amount are `int`. JavaScript floating-point rounding, overflow to infinity and NaN are not modelled.
- Timestamps are ticks of a counter that advances on every write. Wall-clock time is not modelled. Two orders created in the same millisecond cannot occur in the model, so the listing never has ties. With real timestamps, ties would make the order among equal `createdAt` values unspecified.
- The model checks truthiness only as "absent or empty" for the email and the cart. A non-string email, a non-array `cartItems` and other JavaScript truthiness cases are not modelled.
- Only the schema's `required` checks are modelled (`SchemaAccepts`: a non-empty email and a non-empty name on every line). Mongoose's casting to String or Number is not modelled. Items are typed values, so a line with a missing or non-numeric price or quantity cannot be expressed. In the service such a line makes the first save fail, and the model's `InsertFails` fault covers that case.
- The response body is the order value itself, not its JSON serialisation. `_id`, `__v` and field order are not modelled.
- Console logging is left out (server.js:18-19, 76, 87, 101).
- Concurrent requests and the interleaving at each `await` are left out. Each handler is one sequential method.
