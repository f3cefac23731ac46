/** Decision logic of the cart route handlers (`CartHandlers`): the request
    checks in their order, the error each one answers with, and the calls
    into the cart store and the payment ledger. A handler is one atomic step
    over both stores. The item catalog, the server configuration, the
    request host, the provider's answer, fresh ids and the clock are inputs. */
module CartHandlers {
  import opened Prelude
  import opened Models
  import CartService
  import PaymentService
  import Dollars
  import OM = OrderedMap

  /** The two process-wide stores. */
  datatype AppState = AppState(carts: CartService.CartStore, payments: PaymentService.Ledger)

  predicate Invariant(st: AppState) {
    CartService.Invariant(st.carts) && PaymentService.Valid(st.payments)
  }

  /** An HTTP error status with the message sent in `error.message`. */
  datatype HttpError = HttpError(code: int, message: string)

  /** A reply: status 200 with a payload, or an error. */
  datatype Reply<T> = Ok(body: T) | Err(error: HttpError)

  /** A mutating handler's reply together with the state it leaves. */
  datatype Handled<T> = Handled(state: AppState, reply: Reply<T>)

  const ItemIdRequired := "Invalid request. itemId is required."
  const ItemNotFound := "Item not found"
  const AfterpayNotConfigured :=
    "Afterpay is not configured. Please set AFTERPAY_MERCHANT_ID and AFTERPAY_API_KEY environment variables."
  const EmailRequired := "Invalid request. consumer.email is required."
  const CartNotFound := "Cart not found for this session."
  const CartEmpty := "Cart is empty. Add items before creating checkout."
  const ParamsRequired := "Invalid request. status and provider query parameters are required."
  const InvalidStatus := "Invalid status. Must be \"SUCCESS\" or \"CANCELLED\"."
  const InvalidProvider := "Invalid provider. Must be \"afterpay\" or \"cash_app_pay\"."

  // ----- GET /cart -----

  /** `getCart`: the session's OPEN cart, or no cart; never an error. */
  function GetCart(st: AppState, s: SessionId): (r: Reply<Option<Cart>>)
    requires CartService.Valid(st.carts)
    ensures r.Ok?
    ensures r.body.Some? ==> r.body.value.sessionId == s && r.body.value.status == CartStatus.Open
    ensures r.body.Some? ==> r.body.value.id in st.carts.entries && st.carts.entries[r.body.value.id] == r.body.value
    ensures r.body.Some? ==> CartService.FirstOpenFor(st.carts, r.body.value.id, s)
    ensures r.body.None? <==> !CartService.HasOpenCart(st.carts, s)
  {
    Ok(CartService.GetCartBySession(st.carts, s))
  }

  // ----- POST /cart/items -----

  /** `items.find(i => i.id === itemId)` over the catalog. */
  function FindItem(catalog: seq<Item>, itemId: ItemId): (r: Option<Item>)
    ensures r.Some? ==> r.value in catalog && r.value.id == itemId
    ensures r.Some? ==> exists k :: 0 <= k < |catalog| && catalog[k] == r.value && forall j :: 0 <= j < k ==> catalog[j].id != itemId
    ensures r.None? <==> forall i :: 0 <= i < |catalog| ==> catalog[i].id != itemId
  {
    match Find(catalog, (i: Item) => i.id == itemId)
    case Some(k) => Some(catalog[k])
    case None => None
  }

  /** `addItemToCart`: 400 for an empty item id, 404 for an id the catalog
      does not hold (neither touches a store), otherwise one more unit of the
      item in the session's OPEN cart. */
  function AddItemToCart(st: AppState, s: SessionId, itemId: ItemId, catalog: seq<Item>, freshId: CartId, now: Timestamp): (r: Handled<Cart>)
    requires CartService.Valid(st.carts) && freshId !in st.carts.entries
    ensures itemId == "" ==> r == Handled(st, Err(HttpError(400, ItemIdRequired)))
    ensures itemId != "" && (forall i :: 0 <= i < |catalog| ==> catalog[i].id != itemId) ==>
              r == Handled(st, Err(HttpError(404, ItemNotFound)))
    ensures r.reply.Ok? <==> itemId != "" && exists i :: 0 <= i < |catalog| && catalog[i].id == itemId
    ensures r.state.payments == st.payments
    ensures r.reply.Ok? ==>
      var cart := r.reply.body;
      && cart.sessionId == s && cart.status == CartStatus.Open
      && HasLine(cart.items, itemId) && TotalConsistent(cart)
      && cart.items == CartService.AddLine(CartService.OpenItems(st.carts, s), FindItem(catalog, itemId).value)
      && cart.id == (if CartService.HasOpenCart(st.carts, s) then CartService.GetCartBySession(st.carts, s).value.id else freshId)
      && cart.updatedAt == now
      && r.state.carts.entries == st.carts.entries[cart.id := cart]
    ensures r.reply.Ok? && CartService.HasOpenCart(st.carts, s) ==>
      var before := CartService.GetCartBySession(st.carts, s).value;
      && r.reply.body.paymentId == before.paymentId && r.reply.body.createdAt == before.createdAt
      && r.state.carts.order == st.carts.order
    ensures r.reply.Ok? && !CartService.HasOpenCart(st.carts, s) ==>
      && r.reply.body.paymentId == None && r.reply.body.createdAt == now
      && r.state.carts.order == st.carts.order + [freshId]
  {
    if itemId == "" then Handled(st, Err(HttpError(400, ItemIdRequired)))
    else
      match FindItem(catalog, itemId)
      case None => Handled(st, Err(HttpError(404, ItemNotFound)))
      case Some(item) =>
        var added := CartService.AddItemToCart(st.carts, s, item, freshId, now);
        Handled(AppState(added.store, st.payments), Ok(added.result))
  }

  lemma AddItemHandlerKeepsInvariant(st: AppState, s: SessionId, itemId: ItemId, catalog: seq<Item>, freshId: CartId, now: Timestamp)
    requires Invariant(st) && freshId !in st.carts.entries
    ensures Invariant(AddItemToCart(st, s, itemId, catalog, freshId, now).state)
  {
    if itemId != "" {
      match FindItem(catalog, itemId)
      case Some(item) => CartService.AddItemKeepsInvariant(st.carts, s, item, freshId, now);
      case None =>
    }
  }

  // ----- POST /cart/checkout/afterpay -----

  /** The server configuration the handler reads; an unset variable is "". */
  datatype Config = Config(nodeEnv: string, redirectBaseUrl: string, afterpayMerchantId: string, afterpayApiKey: string)

  datatype Consumer = Consumer(email: string, givenNames: Option<string>, surname: Option<string>, phoneNumber: Option<string>)

  datatype CheckoutBody = CheckoutBody(consumer: Option<Consumer>, isCashAppPay: Option<bool>)

  datatype Amount = Amount(amount: string, currency: string)

  /** What is sent to the provider to open a checkout. */
  datatype CheckoutRequest = CheckoutRequest(
    amount: Amount,
    consumer: Consumer,
    redirectConfirmUrl: string,
    redirectCancelUrl: string,
    isCashAppPay: Option<bool>)

  datatype CheckoutResponse = CheckoutResponse(token: string, expires: string, redirectCheckoutUrl: string)

  /** The provider's answer: a checkout, or the message of the error it raised. */
  datatype ProviderReply = Created(checkout: CheckoutResponse) | Failed(message: string)

  /** The checked cart and the request built from it. */
  datatype Prepared = Prepared(cart: Cart, request: CheckoutRequest)

  datatype CheckoutPayload = CheckoutPayload(cart: Cart, checkout: CheckoutResponse)

  const ResultPath := "/cart/payment/result?provider=afterpay"

  /** `REDIRECT_BASE_URL` when it is set, otherwise the request host with
      https in production and http elsewhere. */
  function BaseUrl(config: Config, hostname: string): (r: string)
    ensures config.redirectBaseUrl != "" ==> r == config.redirectBaseUrl
    ensures config.redirectBaseUrl == "" && config.nodeEnv == "production" ==> r == "https://" + hostname
    ensures config.redirectBaseUrl == "" && config.nodeEnv != "production" ==> r == "http://" + hostname
  {
    if config.redirectBaseUrl != "" then config.redirectBaseUrl
    else (if config.nodeEnv == "production" then "https" else "http") + "://" + hostname
  }

  /** The URL the provider sends the shopper back to, on confirm and on cancel alike. */
  function RedirectUrl(config: Config, hostname: string): (r: string)
    ensures |r| == |BaseUrl(config, hostname)| + |ResultPath|
    ensures r[..|BaseUrl(config, hostname)|] == BaseUrl(config, hostname)
    ensures r[|BaseUrl(config, hostname)|..] == ResultPath
  {
    BaseUrl(config, hostname) + ResultPath
  }

  predicate HasEmail(body: CheckoutBody) {
    body.consumer.Some? && body.consumer.value.email != ""
  }

  predicate Configured(config: Config) {
    config.afterpayMerchantId != "" && config.afterpayApiKey != ""
  }

  /** Every check made before the provider is called passes: credentials
      set, an email given, and an OPEN cart with at least one line. */
  predicate ChecksPass(st: AppState, config: Config, s: SessionId, body: CheckoutBody)
    requires CartService.Valid(st.carts)
  {
    Configured(config) && HasEmail(body) && CartService.OpenItems(st.carts, s) != []
  }

  /** The checks `createAfterpayCheckoutFromCart` makes before it calls the
      provider, in their order, and the request it builds once all pass. */
  function PrepareCheckout(st: AppState, config: Config, s: SessionId, body: CheckoutBody, hostname: string): (r: Reply<Prepared>)
    requires CartService.Valid(st.carts)
    ensures !Configured(config) ==> r == Err(HttpError(503, AfterpayNotConfigured))
    ensures Configured(config) && !HasEmail(body) ==> r == Err(HttpError(400, EmailRequired))
    ensures Configured(config) && HasEmail(body) && !CartService.HasOpenCart(st.carts, s) ==>
              r == Err(HttpError(404, CartNotFound))
    ensures (Configured(config) && HasEmail(body) && CartService.HasOpenCart(st.carts, s)
             && CartService.OpenItems(st.carts, s) == []) ==> r == Err(HttpError(400, CartEmpty))
    ensures r.Ok? <==> ChecksPass(st, config, s, body)
    ensures r.Ok? ==>
      var cart := r.body.cart;
      var request := r.body.request;
      && Some(cart) == CartService.GetCartBySession(st.carts, s) && cart.items != []
      && request.amount.amount == Dollars.CentsToDollars(cart.total)
      && Dollars.ParseDollars(request.amount.amount) == Some(cart.total)
      && request.amount.currency == "USD"
      && request.redirectConfirmUrl == request.redirectCancelUrl == RedirectUrl(config, hostname)
      && Some(request.consumer) == body.consumer && request.isCashAppPay == body.isCashAppPay
  {
    if !Configured(config) then Err(HttpError(503, AfterpayNotConfigured))
    else if !HasEmail(body) then Err(HttpError(400, EmailRequired))
    else
      var url := RedirectUrl(config, hostname);
      match CartService.GetCartBySession(st.carts, s)
      case None => Err(HttpError(404, CartNotFound))
      case Some(cart) =>
        if |cart.items| == 0 then Err(HttpError(400, CartEmpty))
        else
          var amount := Amount(Dollars.CentsToDollars(cart.total), "USD");
          Ok(Prepared(cart, CheckoutRequest(amount, body.consumer.value, url, url, body.isCashAppPay)))
  }

  /** `createAfterpayCheckoutFromCart`: every check is decided before the
      provider is asked, so a failed check answers the same whatever the
      provider would say; then the provider's checkout is returned with the
      cart, or its error becomes a 500. It reads the stores and changes
      neither. */
  function CreateCheckoutFromCart(
    st: AppState, config: Config, s: SessionId, body: CheckoutBody, hostname: string,
    provider: CheckoutRequest -> ProviderReply): (r: Reply<CheckoutPayload>)
    requires CartService.Valid(st.carts)
    ensures !Configured(config) ==> r == Err(HttpError(503, AfterpayNotConfigured))
    ensures Configured(config) && !HasEmail(body) ==> r == Err(HttpError(400, EmailRequired))
    ensures Configured(config) && HasEmail(body) && !CartService.HasOpenCart(st.carts, s) ==>
              r == Err(HttpError(404, CartNotFound))
    ensures (Configured(config) && HasEmail(body) && CartService.HasOpenCart(st.carts, s)
             && CartService.OpenItems(st.carts, s) == []) ==> r == Err(HttpError(400, CartEmpty))
    ensures r.Ok? <==>
      ChecksPass(st, config, s, body) && provider(PrepareCheckout(st, config, s, body, hostname).body.request).Created?
    ensures r.Ok? ==>
      && Some(r.body.cart) == CartService.GetCartBySession(st.carts, s)
      && provider(PrepareCheckout(st, config, s, body, hostname).body.request) == ProviderReply.Created(r.body.checkout)
    ensures r.Err? && r.error.code == 500 ==>
      && ChecksPass(st, config, s, body)
      && provider(PrepareCheckout(st, config, s, body, hostname).body.request) == ProviderReply.Failed(r.error.message)
    ensures ChecksPass(st, config, s, body) ==>
      var answer := provider(PrepareCheckout(st, config, s, body, hostname).body.request);
      answer.Failed? ==> r == Err(HttpError(500, answer.message))
  {
    match PrepareCheckout(st, config, s, body, hostname)
    case Err(e) => Err(e)
    case Ok(p) =>
      match provider(p.request)
      case Created(checkout) => Ok(CheckoutPayload(p.cart, checkout))
      case Failed(message) => Err(HttpError(500, message))
  }

  /** A checkout that fails a check answers the same whichever provider is
      behind it: no check depends on the provider's answer. */
  lemma ChecksPrecedeProvider(
    st: AppState, config: Config, s: SessionId, body: CheckoutBody, hostname: string,
    provider1: CheckoutRequest -> ProviderReply, provider2: CheckoutRequest -> ProviderReply)
    requires CartService.Valid(st.carts)
    requires !Configured(config) || !HasEmail(body) || CartService.OpenItems(st.carts, s) == []
    ensures CreateCheckoutFromCart(st, config, s, body, hostname, provider1)
            == CreateCheckoutFromCart(st, config, s, body, hostname, provider2)
    ensures CreateCheckoutFromCart(st, config, s, body, hostname, provider1).Err?
  {
  }

  // ----- GET /cart/payment/result -----

  datatype ResultQuery = ResultQuery(status: Option<string>, provider: Option<string>, token: Option<string>)

  datatype ResultPayload = ResultPayload(status: string, provider: string, message: string, cart: Option<Cart>)

  /** A query parameter that is there and not empty. */
  predicate Present(p: Option<string>) {
    p.Some? && p.value != ""
  }

  predicate ValidQuery(q: ResultQuery) {
    && Present(q.status) && Present(q.provider)
    && (q.status.value == "SUCCESS" || q.status.value == "CANCELLED")
    && (q.provider.value == "afterpay" || q.provider.value == "cash_app_pay")
  }

  function ProviderType(provider: string): (t: PaymentType)
    requires provider == "afterpay" || provider == "cash_app_pay"
    ensures t == PaymentType.Afterpay <==> provider == "afterpay"
  {
    if provider == "afterpay" then PaymentType.Afterpay else PaymentType.CashAppPay
  }

  /** The metadata recorded with a completed payment. */
  function CompletionMetadata(s: SessionId, now: Timestamp): (m: Metadata)
    ensures m.Keys == {"sessionId", "completedAt"}
    ensures m["sessionId"] == Text(s) && m["completedAt"] == Instant(now)
  {
    map["sessionId" := Text(s), "completedAt" := Instant(now)]
  }

  /** The query checks of `handlePaymentResult`, in their order: both
      parameters present, a known status, a known provider. */
  function CheckQuery(q: ResultQuery): (r: Option<HttpError>)
    ensures !Present(q.status) || !Present(q.provider) ==> r == Some(HttpError(400, ParamsRequired))
    ensures Present(q.status) && Present(q.provider) && q.status.value != "SUCCESS" && q.status.value != "CANCELLED" ==>
              r == Some(HttpError(400, InvalidStatus))
    ensures (&& Present(q.status) && Present(q.provider)
             && (q.status.value == "SUCCESS" || q.status.value == "CANCELLED")
             && q.provider.value != "afterpay" && q.provider.value != "cash_app_pay") ==>
              r == Some(HttpError(400, InvalidProvider))
    ensures r.None? <==> ValidQuery(q)
  {
    if !Present(q.status) || !Present(q.provider) then Some(HttpError(400, ParamsRequired))
    else if q.status.value != "SUCCESS" && q.status.value != "CANCELLED" then Some(HttpError(400, InvalidStatus))
    else if q.provider.value != "afterpay" && q.provider.value != "cash_app_pay" then Some(HttpError(400, InvalidProvider))
    else None
  }

  /** The payment a SUCCESS result records for `cart`. */
  function CompletedPayment(cart: Cart, s: SessionId, provider: string, token: Option<string>, paymentId: PaymentId, now: Timestamp): (p: Payment)
    requires provider == "afterpay" || provider == "cash_app_pay"
    ensures p.id == paymentId && p.cartId == cart.id && p.status == PaymentStatus.Completed
    ensures p.amount == cart.total && p.currency == "USD" && p.providerTransactionId == token
    ensures p.paymentType == PaymentType.Afterpay <==> provider == "afterpay"
    ensures p.metadata == Some(CompletionMetadata(s, now)) && p.createdAt == now && p.updatedAt == now
  {
    Payment(paymentId, cart.id, ProviderType(provider), PaymentStatus.Completed,
            cart.total, "USD", token, Some(CompletionMetadata(s, now)), now, now)
  }

  /** The cart a SUCCESS result leaves: COMPLETED and pointing at the payment. */
  function ClosedCart(cart: Cart, paymentId: PaymentId, now: Timestamp): (c: Cart)
    ensures c.status == CartStatus.Completed && c.paymentId == Some(paymentId) && c.updatedAt == now
    ensures && c.id == cart.id && c.sessionId == cart.sessionId && c.items == cart.items
            && c.total == cart.total && c.createdAt == cart.createdAt
    ensures WellFormedCart(cart) ==> WellFormedCart(c)
  {
    cart.(status := CartStatus.Completed, paymentId := Some(paymentId), updatedAt := now)
  }

  /** The SUCCESS branch: a payment of the cart's total is created, set to
      COMPLETED, and the cart is completed with a link to it. */
  function CompleteCheckout(st: AppState, s: SessionId, cart: Cart, provider: string, token: Option<string>, paymentId: PaymentId, now: Timestamp): (r: Handled<ResultPayload>)
    requires CartService.Valid(st.carts) && PaymentService.Valid(st.payments)
    requires cart.id in st.carts.entries && st.carts.entries[cart.id] == cart
    requires paymentId != "" && paymentId !in st.payments.entries
    requires provider == "afterpay" || provider == "cash_app_pay"
    ensures CartService.Valid(r.state.carts) && PaymentService.Valid(r.state.payments)
    ensures CartService.Invariant(st.carts) ==> CartService.Invariant(r.state.carts)
    ensures r.state.payments.entries == st.payments.entries[paymentId := CompletedPayment(cart, s, provider, token, paymentId, now)]
    ensures r.state.payments.order == st.payments.order + [paymentId]
    ensures r.state.carts.entries == st.carts.entries[cart.id := ClosedCart(cart, paymentId, now)]
    ensures r.state.carts.order == st.carts.order
    ensures r.reply == Ok(ResultPayload("SUCCESS", provider, "Payment completed successfully with " + provider,
                                        Some(ClosedCart(cart, paymentId, now))))
  {
    var created := PaymentService.CreatePayment(
      st.payments, paymentId, cart.id, ProviderType(provider), cart.total, "USD",
      token, Some(CompletionMetadata(s, now)), now);
    var completed := PaymentService.UpdatePaymentStatus(created.ledger, created.result.id, PaymentStatus.Completed, now);
    assert completed.result.value == CompletedPayment(cart, s, provider, token, paymentId, now);
    OM.OverwriteTwice(st.payments.entries, paymentId, created.result, completed.result.value);
    var closed := CartService.UpdateCartStatus(st.carts, cart.id, CartStatus.Completed, Some(created.result.id), now);
    assert closed.result.value == ClosedCart(cart, paymentId, now);
    var updated := CartService.GetCartById(closed.store, cart.id);
    Handled(AppState(closed.store, completed.ledger),
            Ok(ResultPayload("SUCCESS", provider, "Payment completed successfully with " + provider, updated)))
  }

  /** `handlePaymentResult`: the query is checked, then the session's OPEN
      cart is looked up. SUCCESS records one COMPLETED payment of the cart's
      total and completes the cart; CANCELLED changes nothing. Every error
      leaves both stores as they were. */
  function HandlePaymentResult(st: AppState, s: SessionId, q: ResultQuery, paymentId: PaymentId, now: Timestamp): (r: Handled<ResultPayload>)
    requires CartService.Valid(st.carts) && PaymentService.Valid(st.payments)
    requires paymentId != "" && paymentId !in st.payments.entries
    ensures CheckQuery(q).Some? ==> r == Handled(st, Err(CheckQuery(q).value))
    ensures ValidQuery(q) && !CartService.HasOpenCart(st.carts, s) ==> r == Handled(st, Err(HttpError(404, CartNotFound)))
    ensures r.reply.Ok? <==> ValidQuery(q) && CartService.HasOpenCart(st.carts, s)
    ensures r.reply.Ok? ==> r.reply.body.status == q.status.value && r.reply.body.provider == q.provider.value
    ensures r.reply.Ok? && q.status.value == "CANCELLED" ==>
      && r.state == st
      && r.reply.body.cart == CartService.GetCartBySession(st.carts, s)
      && r.reply.body.message == "Payment was cancelled with " + q.provider.value
    ensures r.reply.Ok? && q.status.value == "SUCCESS" ==>
      var cart := CartService.GetCartBySession(st.carts, s).value;
      && r.state.payments.entries
           == st.payments.entries[paymentId := CompletedPayment(cart, s, q.provider.value, q.token, paymentId, now)]
      && r.state.payments.order == st.payments.order + [paymentId]
      && r.state.carts.entries == st.carts.entries[cart.id := ClosedCart(cart, paymentId, now)]
      && r.state.carts.order == st.carts.order
      && r.reply.body.cart == Some(ClosedCart(cart, paymentId, now))
      && r.reply.body.message == "Payment completed successfully with " + q.provider.value
  {
    match CheckQuery(q)
    case Some(e) => Handled(st, Err(e))
    case None =>
      match CartService.GetCartBySession(st.carts, s)
      case None => Handled(st, Err(HttpError(404, CartNotFound)))
      case Some(cart) =>
        if q.status.value == "SUCCESS" then CompleteCheckout(st, s, cart, q.provider.value, q.token, paymentId, now)
        else Handled(st, Ok(ResultPayload(q.status.value, q.provider.value, "Payment was cancelled with " + q.provider.value, Some(cart))))
  }

  // ----- Properties relating several requests -----

  /** A payment result keeps both stores well formed: still one OPEN cart
      per session at most, and every cart priced by its lines. */
  lemma PaymentResultKeepsInvariant(st: AppState, s: SessionId, q: ResultQuery, paymentId: PaymentId, now: Timestamp)
    requires Invariant(st) && paymentId != "" && paymentId !in st.payments.entries
    ensures Invariant(HandlePaymentResult(st, s, q, paymentId, now).state)
  {
  }

  /** Completing the session's only OPEN cart leaves the session with none. */
  lemma ClosingLeavesNoOpenCart(st: CartService.CartStore, after: CartService.CartStore, s: SessionId, cart: Cart, paymentId: PaymentId, now: Timestamp)
    requires CartService.Invariant(st) && CartService.IsOpenFor(st.entries, cart.id, s)
    requires after.entries == st.entries[cart.id := ClosedCart(cart, paymentId, now)]
    ensures !CartService.HasOpenCart(after, s)
  {
    forall id | id in after.entries
      ensures !CartService.IsOpenFor(after.entries, id, s)
    {
      if id != cart.id {
        assert after.entries[id] == st.entries[id];
      }
    }
  }

  /** After a SUCCESS the session has no OPEN cart, so repeating the same
      result is answered 404 and records no second payment. */
  lemma SecondSuccessIsNotFound(st: AppState, s: SessionId, q: ResultQuery, p1: PaymentId, p2: PaymentId, t1: Timestamp, t2: Timestamp)
    requires Invariant(st) && ValidQuery(q) && q.status.value == "SUCCESS" && CartService.HasOpenCart(st.carts, s)
    requires p1 != "" && p2 != "" && p1 != p2 && p1 !in st.payments.entries && p2 !in st.payments.entries
    ensures var first := HandlePaymentResult(st, s, q, p1, t1);
            HandlePaymentResult(first.state, s, q, p2, t2) == Handled(first.state, Err(HttpError(404, CartNotFound)))
  {
    var first := HandlePaymentResult(st, s, q, p1, t1);
    var cart := CartService.GetCartBySession(st.carts, s).value;
    ClosingLeavesNoOpenCart(st.carts, first.state.carts, s, cart, p1, t1);
  }

  /** The ledger effect of a SUCCESS known to be answered 200. */
  lemma SuccessLedger(st: AppState, s: SessionId, q: ResultQuery, paymentId: PaymentId, now: Timestamp)
    requires Invariant(st) && paymentId != "" && paymentId !in st.payments.entries
    requires q.status == Some("SUCCESS") && HandlePaymentResult(st, s, q, paymentId, now).reply.Ok?
    ensures var cart := CartService.GetCartBySession(st.carts, s).value;
            var paid := PaymentService.GetPaymentsByCartId(HandlePaymentResult(st, s, q, paymentId, now).state.payments, cart.id);
            paid == PaymentService.GetPaymentsByCartId(st.payments, cart.id) + [CompletedPayment(cart, s, q.provider.value, q.token, paymentId, now)]
  {
    var cart := CartService.GetCartBySession(st.carts, s).value;
    var after := HandlePaymentResult(st, s, q, paymentId, now).state.payments;
    var p := CompletedPayment(cart, s, q.provider.value, q.token, paymentId, now);
    PaymentService.AppendToLedger(st.payments, after, paymentId, p, cart.id);
  }

  /** A SUCCESS adds exactly one payment to the cart's payment list: the
      COMPLETED payment of the cart's total, at the end. */
  lemma SuccessAppendsOnePayment(st: AppState, s: SessionId, q: ResultQuery, paymentId: PaymentId, now: Timestamp)
    requires Invariant(st) && ValidQuery(q) && q.status.value == "SUCCESS" && CartService.HasOpenCart(st.carts, s)
    requires paymentId != "" && paymentId !in st.payments.entries
    ensures var cart := CartService.GetCartBySession(st.carts, s).value;
            var after := HandlePaymentResult(st, s, q, paymentId, now).state.payments;
            var paid := PaymentService.GetPaymentsByCartId(after, cart.id);
            && paid == PaymentService.GetPaymentsByCartId(st.payments, cart.id) + [CompletedPayment(cart, s, q.provider.value, q.token, paymentId, now)]
            && paid[|paid| - 1].status == PaymentStatus.Completed
            && paid[|paid| - 1].amount == cart.total
  {
    assert HandlePaymentResult(st, s, q, paymentId, now).reply.Ok?;
    SuccessLedger(st, s, q, paymentId, now);
  }

  /** A session without an OPEN cart that adds a catalog item gets a new
      cart under the fresh id, holding one unit of the item, and that cart is
      the session's OPEN cart from then on. */
  lemma FirstAddCreatesCart(st: AppState, s: SessionId, catalog: seq<Item>, k: nat, c1: CartId, t1: Timestamp)
    requires CartService.Valid(st.carts) && !CartService.HasOpenCart(st.carts, s)
    requires k < |catalog| && catalog[k].id != "" && c1 !in st.carts.entries
    ensures
      var item := FindItem(catalog, catalog[k].id).value;
      var a1 := AddItemToCart(st, s, catalog[k].id, catalog, c1, t1);
      && a1.reply.Ok? && a1.reply.body.id == c1
      && a1.reply.body.items == [CartItem(item.id, 1, item.price)]
      && CartService.GetCartBySession(a1.state.carts, s) == Some(a1.reply.body)
  {
    var a1 := AddItemToCart(st, s, catalog[k].id, catalog, c1, t1);
    assert CartService.OpenItems(st.carts, s) == [];
    var found := CartService.GetCartBySession(a1.state.carts, s);
    assert CartService.IsOpenFor(a1.state.carts.entries, c1, s);
    assert found.value.id == c1 by {
      var id := found.value.id;
      if id != c1 {
        assert a1.state.carts.entries[id] == st.carts.entries[id];
        assert CartService.IsOpenFor(st.carts.entries, id, s);
      }
    }
  }

  /** When the session's cart holds one unit of an item, adding the item
      again makes it two units, priced at twice the unit price. */
  lemma AddAgainIncrements(st: AppState, s: SessionId, catalog: seq<Item>, item: Item, c2: CartId, t2: Timestamp)
    requires CartService.Valid(st.carts) && c2 !in st.carts.entries
    requires item.id != "" && FindItem(catalog, item.id) == Some(item)
    requires CartService.OpenItems(st.carts, s) == [CartItem(item.id, 1, item.price)]
    ensures
      var a2 := AddItemToCart(st, s, item.id, catalog, c2, t2);
      && a2.reply.Ok?
      && a2.reply.body.items == [CartItem(item.id, 2, item.price)]
      && a2.reply.body.total == 2 * item.price
  {
    CartService.AddToSingleLine(item);
    var a2 := AddItemToCart(st, s, item.id, catalog, c2, t2);
    assert a2.reply.body.items == [CartItem(item.id, 2, item.price)];
    CalculateSingleLine(a2.reply.body);
    assert LineAmount(CartItem(item.id, 2, item.price)) == item.price * 2;
  }

  /** A session without an OPEN cart that adds the same catalog item twice
      ends with one new cart holding one line of quantity 2, priced at twice
      the item's price; no payment is touched. */
  lemma AddTwiceScenario(st: AppState, s: SessionId, catalog: seq<Item>, k: nat, c1: CartId, c2: CartId, t1: Timestamp, t2: Timestamp)
    requires CartService.Valid(st.carts) && !CartService.HasOpenCart(st.carts, s)
    requires k < |catalog| && catalog[k].id != ""
    requires c1 != c2 && c1 !in st.carts.entries && c2 !in st.carts.entries
    ensures
      var item := FindItem(catalog, catalog[k].id).value;
      var a1 := AddItemToCart(st, s, catalog[k].id, catalog, c1, t1);
      var a2 := AddItemToCart(a1.state, s, catalog[k].id, catalog, c2, t2);
      && a2.reply.Ok? && a2.reply.body.id == c1
      && a2.reply.body.items == [CartItem(item.id, 2, item.price)]
      && a2.reply.body.total == 2 * item.price
      && a2.state.payments == st.payments
  {
    FirstAddCreatesCart(st, s, catalog, k, c1, t1);
    var a1 := AddItemToCart(st, s, catalog[k].id, catalog, c1, t1);
    AddAgainIncrements(a1.state, s, catalog, FindItem(catalog, catalog[k].id).value, c2, t2);
  }

  /** A cart of 5000 cents is offered to the provider as "50.00" USD, and
      the provider's checkout comes back with the cart. */
  lemma FiftyDollarCheckout(st: AppState, s: SessionId, cart: Cart, config: Config, body: CheckoutBody, hostname: string, checkout: CheckoutResponse)
    requires CartService.Valid(st.carts) && CartService.GetCartBySession(st.carts, s) == Some(cart)
    requires cart.items != [] && cart.total == 5000
    requires Configured(config) && HasEmail(body)
    ensures PrepareCheckout(st, config, s, body, hostname).Ok?
    ensures PrepareCheckout(st, config, s, body, hostname).body.request.amount == Amount("50.00", "USD")
    ensures CreateCheckoutFromCart(st, config, s, body, hostname, _ => Created(checkout)) == Ok(CheckoutPayload(cart, checkout))
  {
    Dollars.FiftyDollars();
  }

  /** The first SUCCESS for a cart leaves exactly one payment on it:
      COMPLETED, of the cart's total, carrying the provider's token. */
  lemma FirstPaymentOfCart(st: AppState, s: SessionId, q: ResultQuery, paymentId: PaymentId, now: Timestamp)
    requires Invariant(st) && ValidQuery(q) && q.status.value == "SUCCESS" && CartService.HasOpenCart(st.carts, s)
    requires paymentId != "" && paymentId !in st.payments.entries
    requires PaymentService.GetPaymentsByCartId(st.payments, CartService.GetCartBySession(st.carts, s).value.id) == []
    ensures var cart := CartService.GetCartBySession(st.carts, s).value;
            var paid := PaymentService.GetPaymentsByCartId(HandlePaymentResult(st, s, q, paymentId, now).state.payments, cart.id);
            && |paid| == 1 && paid[0].status == PaymentStatus.Completed
            && paid[0].amount == cart.total && paid[0].providerTransactionId == q.token
  {
    SuccessAppendsOnePayment(st, s, q, paymentId, now);
  }
}
