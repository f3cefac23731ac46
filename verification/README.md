# Cart and payment state machine of the shop backend, in Dafny

This project models the in-memory core of a small shop backend:

- the pricing fold `calculateCart`;
- the cart store (`CartService`): find the session's OPEN cart, get or create it, add an item, set a line's quantity, remove a line, set a cart's status and payment id;
- the payment ledger (`PaymentService`): create a PENDING payment, overwrite its status, look payments up by id and by cart;
- the decision logic of the cart route handlers: `getCart`, `addItemToCart`, `createAfterpayCheckoutFromCart` and `handlePaymentResult`.

Every operation is a pure function from a store value to a new store value and a result, so each request is one atomic step. Both stores are JavaScript `Map`s, whose iteration follows insertion order. `find` over the carts and `filter` over the payments depend on that order. So a store is modelled as a finite map together with its key order (module `OrderedMap`), and `Set` appends a key only when the key is new.

Inputs stand for everything the code reads from outside:

- fresh ids (`randomUUID`) are parameters required to be absent from the store;
- the clock (`new Date()`) is one `Timestamp` per request;
- the item catalog is a `seq<Item>`;
- the server configuration is a `Config` record, where an unset variable is `""`;
- the request host and the session id are parameters;
- the provider's answer to a checkout request is a function from the request to `Created(checkout)` or `Failed(message)`.

Amounts are integer cents throughout. The checkout amount `(total / 100).toFixed(2)` is written out in integers (module `Dollars`), and the model proves that the string reads back as the same number of cents.

Files and modules:

- `prelude.dfy`: modules `Prelude` (`Option`, the front-to-back `Find`) and `OrderedMap`;
- `models.dfy`: `Models`, the records, the enums and the pricing fold with its reference sum;
- `dollars.dfy`: `Dollars`, the cents-to-dollars string and its parser;
- `cart_service.dfy`: `CartService`;
- `payment_service.dfy`: `PaymentService`;
- `cart_handlers.dfy`: `CartHandlers`.

The invariants stated about the cart store are these:

- every map key is the id of the cart stored under it;
- no session has two OPEN carts;
- every line has quantity at least 1;
- item ids are unique within a cart;
- every cart's `total` is the price of its lines.

Every operation keeps them, except setting a cart back to OPEN. `ReopeningBreaksOneOpen` shows that case, and the code does allow it.

Repeating a SUCCESS payment result does not record a second payment. The handler looks the cart up among the session's OPEN carts, and after the first SUCCESS there is none, so the answer is 404 (`SecondSuccessIsNotFound`). The model follows the code here.

## Model

| member | source | states |
|---|---|---|
| `Prelude.Find` | backend/src/cart.service.ts:67-69 | the index found is the first one whose element satisfies the predicate; none is found exactly when no element does |
| `OrderedMap.Set` | backend/src/cart.service.ts:58 | a `Map.set` stores the value under the key, keeps the key's place when it was present and appends it when it was new; the key order stays duplicate-free and complete |
| `OrderedMap.Get` | backend/src/cart.service.ts:132 | a `Map.get` finds a value exactly when the key is present, and it is the value stored under the key |
| `Models.FoldIsSum` | backend/src/models.ts:59-61 | the `reduce` from any starting value adds exactly the sum of price × quantity over the lines |
| `Models.CalculateCartIsSum` | backend/src/models.ts:58-62 | `calculateCart` equals the reference sum of price × quantity over the lines |
| `Models.CalculateEmptyCart` | backend/src/models.ts:58-62 | a cart with no lines is priced at 0 |
| `Models.CalculateSingleLine` | backend/src/models.ts:59-61 | a one-line cart is priced at that line's price × quantity |
| `Models.CalculateAppend` | backend/src/models.ts:59-61 | appending a line raises the price by exactly that line's price × quantity |
| `Models.CalculateReadsOnlyItems` | backend/src/models.ts:58-62 | two carts with the same lines have the same price, whatever their id, total, status, payment id or timestamps |
| `Models.SumRemoveAt` | backend/src/models.ts:59-61 | taking one line out lowers the sum by exactly that line's amount |
| `Models.SumReplaceAt` | backend/src/models.ts:59-61 | replacing one line changes the sum by the difference of the two line amounts |
| `Models.CalculatePermutation` | backend/src/models.ts:59-61 | reordering the lines (same multiset) does not change the price |
| `Dollars.DecimalRoundTrip` | backend/src/handlers/cart.handlers.ts:170 | the whole-dollar digits read back as the number they were made from |
| `Dollars.RenderParses` | backend/src/handlers/cart.handlers.ts:170 | sign, whole dollars, a point and two cent digits read back as the signed number of cents |
| `Dollars.RenderWhole` | backend/src/handlers/cart.handlers.ts:170 | between the optional sign and the point stands exactly the decimal numeral of the whole dollars |
| `Dollars.CentsToDollars` | backend/src/handlers/cart.handlers.ts:170 | the amount string has exactly two digits after a point, starts with '-' exactly when the total is negative, has no leading zero in its whole-dollar part, and reads back as the total in cents |
| `Dollars.FiftyDollars` | backend/src/handlers/cart.handlers.ts:170 | 5000 cents is sent as "50.00" |
| `CartService.EmptyStore` | backend/src/cart.service.ts:5 | the store starts empty and satisfies every store invariant |
| `CartService.GetCartBySession` | backend/src/cart.service.ts:66-70 | the cart returned is the OPEN cart of that session stored under the first such key in insertion order, even when the session has several; none exactly when the session has no OPEN cart; with one OPEN cart per session it is that cart |
| `CartService.FirstOpenIsUnique` | backend/src/cart.service.ts:67-69 | at most one key is the first OPEN cart of a session in insertion order, so the lookup's answer is determined by the store and its key order |
| `CartService.GetCartById` | backend/src/cart.service.ts:131-133 | found exactly when the id is stored, and then it is the stored cart |
| `CartService.FindLine` | backend/src/cart.service.ts:42 | finds a line exactly when the cart has a line for the item, and it is the first such line, as `find` and `findIndex` return; with unique item ids it is the only one |
| `CartService.AddLine` | backend/src/cart.service.ts:41-54 | a new item is appended as one unit at the catalog price; an existing item keeps the line count; the item has a line afterwards |
| `CartService.AddLineToExisting` | backend/src/cart.service.ts:44-46 | on an item already in the cart, that line's quantity grows by exactly one, every line keeps its item id and captured price, and every other line is unchanged |
| `CartService.AddToSingleLine` | backend/src/cart.service.ts:44-46 | adding an item to a cart holding one unit of it leaves one line of two units at the same price |
| `CartService.BumpLastLine` | backend/src/cart.service.ts:42-46 | when the item's line is last and the only one with its id, adding bumps exactly that line and nothing before it |
| `CartService.AddSameItemRepeatedly` | backend/src/cart.service.ts:41-54 | adding the same item N times, at any catalog prices, yields one line of quantity N holding the price captured by the first addition |
| `CartService.AddLineKeepsInvariants` | backend/src/cart.service.ts:41-54 | adding keeps every quantity at least 1 and item ids unique |
| `CartService.AddLineTotal` | backend/src/cart.service.ts:41-57 | adding raises the price by one unit price: the captured price of the existing line, or the catalog price of the new one |
| `CartService.RemoveLines` | backend/src/cart.service.ts:103 | no line for the item is left, and the cart never grows |
| `CartService.RemoveLinesMembers` | backend/src/cart.service.ts:103 | a line survives exactly when it was there and has a different item id |
| `CartService.RemoveLinesConcat` | backend/src/cart.service.ts:103 | the filter works line by line: filtering two runs of lines one after the other is filtering each and joining the results |
| `CartService.RemoveLinesKeepsInvariants` | backend/src/cart.service.ts:103 | filtering keeps every quantity at least 1 and item ids unique |
| `CartService.RemoveAbsentLine` | backend/src/cart.service.ts:103 | filtering out an item the cart does not hold leaves the lines as they were |
| `CartService.RemoveOnlyLine` | backend/src/cart.service.ts:103 | when no other line has its item, filtering removes that one line wherever it sits and keeps the lines around it in order |
| `CartService.RemoveUniqueLine` | backend/src/cart.service.ts:84 | with unique item ids, filtering out a line's item removes exactly that one line and keeps the order of the rest |
| `CartService.RemoveLineTotal` | backend/src/cart.service.ts:103-105 | removing an existing line lowers the price by exactly that line's amount |
| `CartService.Reprice` | backend/src/cart.service.ts:56-57 | the repriced cart has the new lines and a consistent total, is stamped with the request time, and keeps id, session, status, payment id and creation time; well-formed lines give a well-formed cart |
| `CartService.Replace` | backend/src/cart.service.ts:58 | writing a cart back under its own id keeps the key set and order, keeps every cart well formed, and keeps one OPEN cart per session when the cart was already that session's OPEN cart |
| `CartService.GetOrCreateCart` | backend/src/cart.service.ts:10-33 | when the session has an OPEN cart, the first one in insertion order with the store unchanged; otherwise a new empty OPEN cart of total 0 under the fresh id, appended, with every other cart untouched |
| `CartService.GetOrCreateKeepsInvariant` | backend/src/cart.service.ts:10-33 | get-or-create keeps every store invariant |
| `CartService.AddItemToCart` | backend/src/cart.service.ts:38-61 | the session's OPEN cart gets the lines of adding one unit, a consistent total and the request time, keeping its payment id, creation time and the store's key order; without one, a new empty cart under the fresh id is appended to the order and filled the same way; only that cart changes in the store |
| `CartService.AddItemKeepsInvariant` | backend/src/cart.service.ts:38-61 | adding an item keeps every store invariant |
| `CartService.UpdateItemQuantity` | backend/src/cart.service.ts:75-94 | not found, with no change, exactly when there is no OPEN cart or no line for the item; otherwise quantity ≤ 0 removes the line and a positive quantity is stored verbatim in that line only; the total is recomputed, the time stamped, payment id and creation time kept, and only that cart changes |
| `CartService.SetQuantityKeepsInvariants` | backend/src/cart.service.ts:85-87 | storing a positive quantity in one line keeps quantities at least 1 and item ids unique |
| `CartService.UpdateQuantityKeepsInvariant` | backend/src/cart.service.ts:75-94 | setting a quantity keeps every store invariant |
| `CartService.RemoveItemFromCart` | backend/src/cart.service.ts:99-109 | not found, with no change, exactly when there is no OPEN cart; otherwise the item's lines are filtered out (an absent item leaves the lines as they were), the total is recomputed, the time stamped, payment id and creation time kept, and only that cart changes |
| `CartService.RemoveItemKeepsInvariant` | backend/src/cart.service.ts:99-109 | removing an item keeps every store invariant |
| `CartService.UpdateCartStatus` | backend/src/cart.service.ts:114-126 | not found, with no change, for an unknown id; otherwise any status replaces any status, the payment id is replaced only by a non-empty one, and lines, total and creation time are kept; well-formedness is kept, and one OPEN cart per session is kept for every status but OPEN |
| `CartService.QuantityZeroIsRemove` | backend/src/cart.service.ts:82-84 | on a line the OPEN cart holds, setting quantity ≤ 0 has the same result and store as removing the item |
| `CartService.CompletedCartIsNotFound` | backend/src/cart.service.ts:66-70 | once a cart is set COMPLETED, its session's lookup no longer returns it, in any well-formed store, including one where reopening left the session two OPEN carts |
| `CartService.ReopeningBreaksOneOpen` | backend/src/cart.service.ts:114-126 | a store satisfying every invariant in which setting a COMPLETED cart back to OPEN gives its session two OPEN carts |
| `PaymentService.EmptyLedger` | backend/src/payment.service.ts:5 | the ledger starts empty and well formed |
| `PaymentService.CreatePayment` | backend/src/payment.service.ts:10-33 | a PENDING payment under the fresh id, holding cart id, type, amount, currency, provider transaction id and metadata exactly as given, created and updated at the request time `now`; every earlier payment is unchanged and the id goes last in the order |
| `PaymentService.UpdatePaymentStatus` | backend/src/payment.service.ts:38-47 | not found, with no change, for an unknown id; otherwise any status replaces any status and every other field but the update time is kept; no other payment changes |
| `PaymentService.GetPaymentById` | backend/src/payment.service.ts:52-54 | found exactly when the id is stored, and then it is the stored payment |
| `PaymentService.Collect` | backend/src/payment.service.ts:60-62 | keeps exactly the payments of the cart among the given ids |
| `PaymentService.GetPaymentsByCartId` | backend/src/payment.service.ts:59-63 | lists exactly the stored payments whose cart id is the given one |
| `PaymentService.CollectAppend` | backend/src/payment.service.ts:60-62 | a key added at the end of the order adds its payment at the end of the filtered list when it belongs to the cart, and nothing otherwise |
| `PaymentService.CollectIgnoresOtherKeys` | backend/src/payment.service.ts:60-62 | a key outside the order does not affect the filtered list |
| `PaymentService.AppendToLedger` | backend/src/payment.service.ts:31 | a payment stored under a new id at the end of the order is appended to its own cart's list and to no other |
| `PaymentService.CreateAppendsToCartPayments` | backend/src/payment.service.ts:59-63 | each created payment is added once, at the end, to its cart's list; other carts' lists are unchanged |
| `PaymentService.CreateThenGet` | backend/src/payment.service.ts:52-54 | looking up a payment just created returns it, and every other id is looked up as before |
| `CartHandlers.GetCart` | backend/src/handlers/cart.handlers.ts:82-94 | always 200; the cart is the stored OPEN cart of the session that comes first in insertion order, and absent exactly when there is none |
| `CartHandlers.FindItem` | backend/src/handlers/cart.handlers.ts:111-112 | the item found is the first catalog entry with that id; none is found exactly when no catalog item has the id |
| `CartHandlers.AddItemToCart` | backend/src/handlers/cart.handlers.ts:96-124 | 400 for an empty item id and 404 for an id not in the catalog, neither touching a store; success exactly otherwise, with the session's OPEN cart (or the new one, appended to the key order) holding one more unit of the first catalog item with that id, a consistent total, the request time, its payment id and creation time kept, and no other change |
| `CartHandlers.AddItemHandlerKeepsInvariant` | backend/src/handlers/cart.handlers.ts:96-124 | the add-item request keeps every store invariant |
| `CartHandlers.BaseUrl` | backend/src/handlers/cart.handlers.ts:149-150 | `REDIRECT_BASE_URL` when set; otherwise https in production and http elsewhere, followed by the request host |
| `CartHandlers.RedirectUrl` | backend/src/handlers/cart.handlers.ts:151-152 | the redirect URL is the base URL followed by the payment-result path |
| `CartHandlers.PrepareCheckout` | backend/src/handlers/cart.handlers.ts:130-184 | 503 without credentials, then 400 without an email, then 404 without an OPEN cart, then 400 for an empty cart; a request is built exactly when all four checks pass, for the session's cart, with the amount written as `CentsToDollars` of the total (two decimals, no leading zero, reading back as the total) in USD, identical confirm and cancel URLs, and the consumer and Cash App flag as sent |
| `CartHandlers.CreateCheckoutFromCart` | backend/src/handlers/cart.handlers.ts:126-198 | each failed check gives its own error code and message; 200 exactly when every check passes and the provider creates a checkout, returning that checkout with the session's OPEN cart; once every check passes, a provider failure is answered 500 with the provider's message, and a 500 arises in no other way |
| `CartHandlers.ChecksPrecedeProvider` | backend/src/handlers/cart.handlers.ts:132-167 | a checkout that fails a check gets the same error whatever the provider would answer |
| `CartHandlers.FiftyDollarCheckout` | backend/src/handlers/cart.handlers.ts:169-177 | a 5000-cent cart is offered as "50.00" USD, and the provider's checkout comes back with the cart |
| `CartHandlers.CheckQuery` | backend/src/handlers/cart.handlers.ts:209-225 | 400 for a missing status or provider, then for an unknown status, then for an unknown provider; no error exactly when the query is valid |
| `CartHandlers.CompletionMetadata` | backend/src/handlers/cart.handlers.ts:247-250 | the metadata of a completed payment holds exactly the session id and the completion time |
| `CartHandlers.CompletedPayment` | backend/src/handlers/cart.handlers.ts:241-254 | the recorded payment belongs to the cart, is COMPLETED, of the cart's total in USD, carries the token as provider transaction id and the completion metadata, and is of type Afterpay exactly for the provider "afterpay" |
| `CartHandlers.ClosedCart` | backend/src/handlers/cart.handlers.ts:257 | the closed cart is COMPLETED, linked to the payment and stamped with the request time, and keeps id, session, lines, total and creation time, so a well-formed cart stays well formed |
| `CartHandlers.ProviderType` | backend/src/handlers/cart.handlers.ts:243 | the payment type is Afterpay exactly for the "afterpay" provider |
| `CartHandlers.CompleteCheckout` | backend/src/handlers/cart.handlers.ts:236-267 | one COMPLETED payment of the cart's total in USD with the token as provider transaction id is appended to the ledger; the cart becomes COMPLETED, linked to it, with lines and total kept; the store invariants are kept |
| `CartHandlers.HandlePaymentResult` | backend/src/handlers/cart.handlers.ts:200-283 | the query errors and then 404 without an OPEN cart, each leaving both stores unchanged; success exactly for a valid query with an OPEN cart, echoing the status and provider; SUCCESS adds exactly the completed payment and completes the cart, keeping the cart key order; CANCELLED changes nothing and returns the OPEN cart |
| `CartHandlers.PaymentResultKeepsInvariant` | backend/src/handlers/cart.handlers.ts:236-260 | a payment result keeps every store invariant |
| `CartHandlers.ClosingLeavesNoOpenCart` | backend/src/handlers/cart.handlers.ts:257 | completing a session's only OPEN cart leaves the session with none |
| `CartHandlers.SecondSuccessIsNotFound` | backend/src/handlers/cart.handlers.ts:228-234 | repeating a SUCCESS result is answered 404 and records no second payment |
| `CartHandlers.SuccessAppendsOnePayment` | backend/src/handlers/cart.handlers.ts:241-254 | a SUCCESS adds exactly one payment to the cart's payment list, at the end, COMPLETED and of the cart's total |
| `CartHandlers.FirstPaymentOfCart` | backend/src/handlers/cart.handlers.ts:241-254 | the first SUCCESS for a cart leaves exactly one payment on it, COMPLETED, of the cart's total, carrying the token |
| `CartHandlers.FirstAddCreatesCart` | backend/src/handlers/cart.handlers.ts:121 | a session without an OPEN cart that adds an item gets a new cart under the fresh id with one unit of it, which is then the session's OPEN cart |
| `CartHandlers.AddAgainIncrements` | backend/src/handlers/cart.handlers.ts:121 | adding an item the session's cart holds once makes two units, priced at twice the unit price |
| `CartHandlers.AddTwiceScenario` | backend/src/handlers/cart.handlers.ts:96-124 | adding the same item twice from no OPEN cart gives one new cart with one line of quantity 2 and a total of twice the price, with the ledger untouched |

## Left out

- The frontend (`frontend/src/*.tsx`): rendering, fetch calls and timers.
- The provider client and its routes (`backend/src/afterpay.service.ts`, `backend/src/handlers/afterpay.handlers.ts`): network calls and Basic-auth encoding. The provider's answer is an input to the checkout handler instead.
- Server wiring, configuration and request schemas (`backend/src/server.ts`, `backend/src/config.ts`, `backend/src/schemas.ts`): library-enforced declarations. Request bodies are assumed to have the shapes the schemas describe.
- The catalog service and the item and health routes: the catalog is a `seq<Item>` parameter.
- `backend/scripts/generate-session-secret.ts`: randomness and file I/O.
- `randomUUID` and `new Date()`. Ids are fresh parameters, and a payment id is also non-empty, as a UUID is. Time is one integer `Timestamp` per request.
- The `completedAt` metadata: the model records the request's timestamp, not its ISO-8601 text.
- Concurrency: requests are atomic steps, so lost updates between interleaved requests are not modelled.
- Non-integer JavaScript numbers. Prices, quantities, totals and amounts are integers, with no 53-bit precision limit.
- `Dollars.CentsToDollars`: does not model the floating-point division and `toFixed` rounding. For a total whose magnitude is below 2^46 dollars (7 036 874 417 766 400 cents) they give the same string. Above that bound the double nearest to `total / 100` can be more than half a cent away, so `toFixed(2)` may print a different cent digit (7036874417766401 cents gives "70368744177664.02"), and from 10^23 cents on `toFixed` switches to exponent notation; none of this is modelled.
- `CartHandlers.CreateCheckoutFromCart`: a provider failure carries an error message. The fallback message for a thrown value that is not an `Error` is not modelled, because the provider client only throws `Error`s.
- `CartHandlers.HandlePaymentResult`: the `catch` branch answering 500 is not modelled, because nothing in the modelled services throws.
- Logging (`request.log.error`) and reply serialisation.
