# Checkout and session verification, modelled in Dafny

This project models the two serverless handlers behind the shop's checkout.

- **Creating a checkout session** (`netlify/functions/create-checkout-session.js`) takes the client's cart. It rejects an empty cart. It then walks the cart in order and looks each item up in the product catalog. It rejects the whole cart at the first item whose product is missing, sold out or lacks the requested size. Every accepted item becomes one line item priced from the catalog's price tier, never from the client. The line items, the optional customer email and the optional user id then make up the payment session's configuration.
- **Verifying a session** (`netlify/functions/verify-session.js`) takes a session id. It rejects a missing id. It returns an order already stored under that id unchanged. It asks the gateway for the session and refuses one that is not paid. Otherwise it stores an order snapshot built from the gateway's data under the session id. Last, when the session carries a user id and at least one point is due, it credits that user's loyalty ledger with one point per whole currency unit.

Files:

- `wrappers.dfy`: `Option` and `Result`.
- `checkout.dfy`, module `Checkout`: the catalog, the cart, the line items and the checkout handler. `PriceCart` is the reference definition of the cart walk. The handler's `while` loop is proved equal to it, and the lemmas state what `PriceCart` means.
- `reconcile.dfy`, module `Reconcile`: the gateway session, the order and the loyalty account as datatypes. The order store and the user records are the two `map` fields of class `Backend`, which the handler methods update. The gateway is a `map` from session id to session, passed to each call.

Modelling choices:

- Money is an integer number of cents everywhere. A catalog tier's `price` is already in cents. Order item amounts and the order total keep the gateway's cents.
- An optional JSON field is an `Option`. As in JavaScript truthiness, `Some("")` behaves like `None` wherever the code tests the field.
- A missing or non-array `items` is `None`.
- A Korean name that is absent is the empty string.
- `Timestamp.now()` is the parameter `now`. One value stands for both calls in a verification.
- A session id unknown to the gateway gives the generic failure, which is what the gateway's exception leads to.
- The stored `Order` has no `pointsEarned` field. The points a fresh verification earns travel next to the order in `Verified(order, pointsEarned)`.

Two consequences of the handler's order of steps:

- A failing user update (`netlify/functions/verify-session.js:74`, no user record) reaches the catch block at line 93 and returns "Failed to verify session", after the order write at line 67. A retry then replays the stored order (line 25), so those points are never credited. `Backend.RecordPaid` and `Backend.VerifySession` state exactly this.
- A replay returns the stored order without `pointsEarned`. Only the fresh response carries it (line 84). `Backend.VerifyTwice` states this: the second result is `Verified(first.order, None)`.

## Model

| member | source | states |
|---|---|---|
| `Checkout.Message` | netlify/functions/create-checkout-session.js:21-47 | the error texts: "Cart is empty"; a not-found text ending in the product id; a sold-out text starting with the product name; an invalid-size text ending in the requested size |
| `Checkout.Description` | netlify/functions/create-checkout-session.js:56 | the description starts with the tier label; DescriptionShape states the rest of its meaning |
| `Checkout.PriceItem` | netlify/functions/create-checkout-session.js:27-61 | an accepted item's product exists and is not sold out, and its line item is in "aud" for the item's qty; PriceItemOutcome states the full meaning of this definition |
| `Checkout.PriceCart` | netlify/functions/create-checkout-session.js:25-62 | an accepted cart yields as many line items as it has items; the reference definition of the cart walk, whose meaning PriceCartAccepts, PriceCartRejects, FirstFailureWins, FailureIgnoresSuffix, PriceFromCatalog and ChargesIgnoreQuantity state |
| `Checkout.FindTierIndex` | netlify/functions/create-checkout-session.js:43 | the chosen tier's label is the requested size and no earlier tier has that label; there is no result exactly when no tier has that label |
| `Checkout.DescriptionShape` | netlify/functions/create-checkout-session.js:56 | the description starts with the tier label; it is exactly the label iff the product has no Korean name, and otherwise the label followed by " (<korean>)" |
| `Checkout.PriceItemOutcome` | netlify/functions/create-checkout-session.js:27-61 | a missing product gives ProductNotFound(id); a sold-out product gives SoldOut(name), before the size is looked at; a size with no tier gives InvalidSize(name, size); an item is accepted iff the product exists, is not sold out and has a tier with that label, and then it is priced from the first such tier, in "aud", for the item's quantity |
| `Checkout.FailureIgnoresSuffix` | netlify/functions/create-checkout-session.js:26-62 | once a prefix of the cart fails, appending any further items does not change the error |
| `Checkout.FirstFailureWins` | netlify/functions/create-checkout-session.js:26-62 | if every item before position i is accepted and item i fails, the cart fails with item i's error, whatever follows |
| `Checkout.PriceCartAccepts` | netlify/functions/create-checkout-session.js:25-62 | a cart is accepted iff every item is; then there is exactly one line item per cart item, in cart order, each the item's own pricing |
| `Checkout.PriceCartRejects` | netlify/functions/create-checkout-session.js:26-62 | a rejected cart carries the error of some item k all of whose predecessors are accepted, so the error is the first failing item's |
| `Checkout.PriceFromCatalog` | netlify/functions/create-checkout-session.js:51-61 | in an accepted cart, line item i's unit amount is the catalog price of the first tier matching item i's size; its currency is "aud", its quantity is item i's qty and its name is the product's |
| `Checkout.ChargesIgnoreQuantity` | netlify/functions/create-checkout-session.js:26-61 | two carts selecting the same products and sizes get the same verdict, the same error and line items equal in everything but the quantity: no other cart field affects any price |
| `Checkout.CreateCheckoutSession` | netlify/functions/create-checkout-session.js:20-84 | a missing or empty cart gives CartEmpty; otherwise the handler succeeds iff the cart is accepted, fails with the cart's first error, and on success holds the cart's line items, metadata userId equal to the given id or "" when absent, and a customer email present iff a non-empty one was given |
| `Reconcile.Message` | netlify/functions/verify-session.js:20-97 | the three error texts: "Missing session_id", "Payment not completed" and "Failed to verify session"; defined for errors only |
| `Reconcile.PaidAndNew` | netlify/functions/verify-session.js:19-43 | definition: a present id with no stored order whose gateway session is paid, the guard of the order write; VerifySession's contract uses it |
| `Reconcile.HasId` | netlify/functions/verify-session.js:19 | definition: the id is present and not empty; VerifySession's contract uses it to state the missing-id case |
| `Reconcile.ToOrderItem` | netlify/functions/verify-session.js:52-57 | the order item's name is the line item's description, and quantity, amount and currency are copied |
| `Reconcile.EarnsPoints` | netlify/functions/verify-session.js:70-72 | the ledger is touched iff the session has a non-empty userId and an amount of at least 100 cents |
| `Reconcile.OrEmpty` | netlify/functions/verify-session.js:49-50 | a present string is kept and a null one becomes "" |
| `Reconcile.OrderItems` | netlify/functions/verify-session.js:52-57 | one order item per gateway line item, in order, with name from the description and quantity, amount and currency copied |
| `Reconcile.SessionUser` | netlify/functions/verify-session.js:62 | the session has a user iff its metadata userId is present and not empty, and then it is that userId |
| `Reconcile.BuildOrder` | netlify/functions/verify-session.js:46-64 | the order keeps the session id and payment intent, has one item per line item (copied as in OrderItems), the gateway's total and currency, status "confirmed" and the gateway's payment status, the metadata userId or none, "" for email and name without customer details, no shipping address without shipping details, and the given timestamp; a present email, name or address is copied from the gateway, and a null one inside present details gives "" (email, name) or no address |
| `Reconcile.PointsFor` | netlify/functions/verify-session.js:71-72 | the points are the floor of amount_total / 100: points*100 <= amount < points*100 + 100; they are positive iff the amount is at least 100 cents |
| `Reconcile.Last8` | netlify/functions/verify-session.js:80 | the result is the last min(8, length) characters of the string |
| `Reconcile.CreditDescription` | netlify/functions/verify-session.js:80 | the description is "Order #" followed by a suffix of the session id of length min(8, length) |
| `Reconcile.Credit` | netlify/functions/verify-session.js:74-83 | points and totalEarned each rise by exactly the points earned; the history keeps every old entry and gains one ("earn", points, description, date) entry at the end |
| `Reconcile.Backend.UpdateUser` | netlify/functions/verify-session.js:73-83 | the update succeeds iff the user record exists; then only that user changes, by Credit; otherwise nothing changes; the order store never changes |
| `Reconcile.Backend.RecordPaid` | netlify/functions/verify-session.js:46-91 | the order store gains BuildOrder under the id; with no points due the ledger is untouched and the order is returned without points; with points due to a known user only that user is credited and the order is returned with the points; with points due to an unknown user the ledger is untouched and the generic failure is returned though the order stays stored |
| `Reconcile.Backend.VerifySession` | netlify/functions/verify-session.js:18-98 | a missing id, an unknown gateway session and an unpaid session each give their error and change neither map; a stored order is returned verbatim and nothing changes; a paid new session stores BuildOrder under its id only and then behaves as RecordPaid; no stored order is ever overwritten; the store changes only for a paid new session; the ledger changes only alongside a fresh order write and never gains or loses a user |
| `Reconcile.Backend.VerifyTwice` | netlify/functions/verify-session.js:24-31 | after a first call that stored or returned an order, the second call returns exactly that stored order without points and leaves both maps as the first call left them, so a session credits the ledger at most once across sequential calls |

## Left out

- SDK and client set-up and environment variables (the first ten lines of both files, and the site URL): process configuration and foreign libraries.
- HTTP concerns: the method check, JSON body parsing, status codes, headers and logging. Outcomes are the `Result` and `VerifyResult` datatypes, and `Message` gives their error texts.
- Floating-point conversions: `Math.round(price * 100)` for the unit amount and the `/ 100` divisions that store the order's amounts in major units. All amounts stay in integer cents, and only the exact integer division for the points is kept.
- The gateway's own behaviour: what `sessions.create` does with the configuration, its redirect URL, and how payment status, totals and customer details get their values. A `Success` from `CreateCheckoutSession` stands for "a session is opened". A gateway failure during creation ("Failed to create checkout session") is not modelled, since nothing local is written on that path.
- Catalog read failures: the product lookup at `netlify/functions/create-checkout-session.js:27` can throw, when the store cannot be reached or the client refuses the product id as a document path (an empty id, or one containing "/"). The catch at line 93 turns that into "Failed to create checkout session". The catalog here is a map, whose lookup cannot fail, so such an id gives `ProductNotFound`.
- Constant parts of the session configuration: payment method types, mode, redirect URLs, locale, allowed shipping countries and the promotion-code flag.
- Concurrent verifications of one session id (the race between the idempotency read and the order write). Only sequential calls are modelled.
- Firestore's `arrayUnion` drops an entry equal to one already present. Entries differ by timestamp, so the history update is modelled as an append.
- Fields of a user record other than points, totalEarned and pointsHistory. The check for an existing user record stands for the failure of `update` on a missing document. Any other store failure is not modelled.
- Firestore's `increment` on a missing numeric field: the model's accounts always hold both counters.
