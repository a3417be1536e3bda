/**
 * Checkout and webhook reconciliation of the payment controller. `pay` prices
 * the caller's cart, asks the gateway for a payment intent and records one
 * pending order; `handleWebhook` dispatches a verified gateway event to a
 * transaction-status update and, for the two success events, an order insert.
 * The gateway, the webhook signature check and JSON serialisation are oracles.
 * Money is integer cents: the source's `amount / 100` is the cents-to-dollars
 * view of the same value.
 */
module Payment {
  import opened Common
  import opened Schema
  import Auth

  // -------------------------------------------------------------- records

  /** An order row. `userId` is whatever the event metadata carried. */
  datatype Order = Order(
    id: Id,
    userId: Option<Id>,
    status: string,
    paymentMethod: Option<string>,
    paymentStatus: string,
    totalCents: int,
    cartItemIds: seq<Id>)

  /** A payment transaction row, keyed by the gateway's reference number. */
  datatype Transaction = Transaction(
    status: string,
    rawStatus: string,
    paidAmountCents: Option<int>,
    paidCurrency: Option<string>)

  // ----------------------------------------------------------------- pay

  /** One entry of `orderItemsWithDetails`. */
  datatype OrderItem = OrderItem(
    productId: Id,
    quantity: int,
    productName: string,
    productPriceCents: int,
    totalCents: int)

  /** The order item of one cart row: its product's name and price, and price times quantity. */
  function OrderItemFor(c: CartItem, p: Product): (item: OrderItem)
    ensures item.productId == c.productId && item.quantity == c.quantity
    ensures item.productPriceCents == p.priceCents
    ensures item.totalCents == item.productPriceCents * item.quantity
  {
    OrderItem(c.productId, c.quantity, p.title, p.priceCents, p.priceCents * c.quantity)
  }

  /** The `cartItems.map(...)` building the order items. */
  function OrderItems(rows: seq<CartItem>, catalog: map<Id, Product>): (items: seq<OrderItem>)
    requires ProductsKnown(rows, catalog)
    ensures |items| == |rows|
    ensures forall k :: 0 <= k < |rows| ==> items[k] == OrderItemFor(rows[k], catalog[rows[k].productId])
  {
    if rows == [] then []
    else [OrderItemFor(rows[0], catalog[rows[0].productId])] + OrderItems(rows[1..], catalog)
  }

  /** The `reduce((sum, item) => sum + item.total_price, acc)` over the order items. */
  function ReduceItems(items: seq<OrderItem>, acc: int): int {
    if items == [] then acc else ReduceItems(items[1..], acc + items[0].totalCents)
  }

  function ItemTotals(items: seq<OrderItem>): (totals: seq<int>)
    ensures |totals| == |items|
    ensures forall k :: 0 <= k < |items| ==> totals[k] == items[k].totalCents
  {
    if items == [] then [] else [items[0].totalCents] + ItemTotals(items[1..])
  }

  /** The fold `pay` runs is the sum of the item totals. */
  lemma {:induction false} ReduceItemsIsSum(items: seq<OrderItem>, acc: int)
    ensures ReduceItems(items, acc) == acc + Sum(ItemTotals(items))
  {
    if items != [] {
      ReduceItemsIsSum(items[1..], acc + items[0].totalCents);
      assert ItemTotals(items)[1..] == ItemTotals(items[1..]);
    }
  }

  /** The ids of the cart rows, as `cartItems.map(item => ({ id: item.id }))`. */
  function CartItemIds(rows: seq<CartItem>): (ids: seq<Id>)
    ensures |ids| == |rows|
    ensures forall k :: 0 <= k < |rows| ==> ids[k] == rows[k].id
  {
    if rows == [] then [] else [rows[0].id] + CartItemIds(rows[1..])
  }

  /** The arguments of `createPaymentIntent`. */
  datatype IntentRequest = IntentRequest(
    orderItems: seq<OrderItem>,
    metadata: map<string, string>,
    amountCents: int,
    currency: string,
    customerId: Option<string>)

  /** Everything `pay` has computed once its guards have passed. */
  datatype PaymentPlan = PaymentPlan(
    userId: Id,
    rows: seq<CartItem>,
    items: seq<OrderItem>,
    totalCents: int,
    request: IntentRequest)

  /** The guards of `pay`: "User ID is missing", "User not found", "No items in the cart", "Amount must be a positive number". */
  datatype PayFailure = MissingUserId | UnknownUser | EmptyCart | NonPositiveAmount

  function PayFailureMessage(f: PayFailure): string {
    match f
    case MissingUserId => "User ID is missing"
    case UnknownUser => "User not found"
    case EmptyCart => "No items in the cart"
    case NonPositiveAmount => "Amount must be a positive number"
  }

  /**
   * The pure part of `pay`: its guards in order, the order items, the total
   * and the payment-intent request. `stringify` stands for `JSON.stringify`.
   */
  function PlanPayment(
    userId: Option<string>, users: seq<User>, cart: seq<CartItem>, catalog: map<Id, Product>,
    stringify: seq<OrderItem> -> string)
    : (r: Result<PaymentPlan, PayFailure>)
    requires ProductsKnown(cart, catalog)
    ensures r == Failure(MissingUserId) <==> !Truthy(userId)
    ensures Truthy(userId) ==>
      (r == Failure(UnknownUser) <==> forall i :: 0 <= i < |users| ==> users[i].id != userId.value)
    ensures r == Failure(EmptyCart) ==> UserCart(cart, userId.value) == []
    ensures r.Success? || r == Failure(NonPositiveAmount) ==> UserCart(cart, userId.value) != []
    ensures r == Failure(NonPositiveAmount) ==> Auth.CartTotal(cart, catalog, userId.value) <= 0
    ensures r.Success? ==>
      var plan := r.value;
      && Truthy(userId) && plan.userId == userId.value
      && (exists i :: 0 <= i < |users| && users[i].id == plan.userId
           && plan.request.customerId == OrNull(users[i].billingId))
      && plan.rows == UserCart(cart, plan.userId)
      && |plan.items| == |plan.rows|
      && (forall k :: 0 <= k < |plan.items| ==>
            plan.items[k] == OrderItemFor(plan.rows[k], catalog[plan.rows[k].productId]))
      && plan.totalCents == Sum(ItemTotals(plan.items))
      && plan.totalCents == Auth.CartTotal(cart, catalog, plan.userId)
      && plan.totalCents > 0
      && plan.request.amountCents == plan.totalCents
      && plan.request.currency == "usd"
      && plan.request.orderItems == plan.items
      && plan.request.metadata == map["user_id" := plan.userId, "order_details" := stringify(plan.items)]
  {
    if !Truthy(userId) then Failure(MissingUserId)
    else
      var uid := userId.value;
      match FindUserById(users, uid)
      case None => Failure(UnknownUser)
      case Some(i) =>
        var rows := UserCart(cart, uid);
        if rows == [] then Failure(EmptyCart)
        else
          assert ProductsKnown(rows, catalog) by {
            forall c | c in rows ensures c.productId in catalog {
              var k :| 0 <= k < |rows| && rows[k] == c;
            }
          }
          PlanTotalIsCartTotal(cart, catalog, uid);
          var plan := PlanFor(uid, users[i], rows, catalog, stringify);
          if plan.totalCents <= 0 then Failure(NonPositiveAmount)
          else Success(plan)
  }

  /** The order items, their total and the intent request for one user's cart rows. */
  function PlanFor(uid: Id, user: User, rows: seq<CartItem>, catalog: map<Id, Product>,
                   stringify: seq<OrderItem> -> string)
    : (plan: PaymentPlan)
    requires ProductsKnown(rows, catalog)
    ensures plan.userId == uid && plan.rows == rows
    ensures plan.items == OrderItems(rows, catalog)
    ensures plan.totalCents == Sum(ItemTotals(plan.items))
    ensures plan.request == IntentRequest(plan.items, map["user_id" := uid, "order_details" := stringify(plan.items)],
                                          plan.totalCents, "usd", OrNull(user.billingId))
  {
    var items := OrderItems(rows, catalog);
    var total := ReduceItems(items, 0);
    ReduceItemsIsSum(items, 0);
    var metadata := map["user_id" := uid, "order_details" := stringify(items)];
    PaymentPlan(uid, rows, items, total, IntentRequest(items, metadata, total, "usd", OrNull(user.billingId)))
  }

  /** The total `pay` charges equals the `total_price` the cart view shows for the same user. */
  lemma PlanTotalIsCartTotal(cart: seq<CartItem>, catalog: map<Id, Product>, userId: Id)
    requires ProductsKnown(cart, catalog)
    requires ProductsKnown(UserCart(cart, userId), catalog)
    ensures Sum(ItemTotals(OrderItems(UserCart(cart, userId), catalog))) == Auth.CartTotal(cart, catalog, userId)
  {
    var rows := UserCart(cart, userId);
    var lines := Auth.CartLines(rows, catalog, "");
    Auth.ReduceIsSumOfLineTotals(rows, catalog, "", 0);
    assert ItemTotals(OrderItems(rows, catalog)) == Auth.LineTotals(lines);
  }

  /** The intent `pay` requests carries no `cart_item_id` in its metadata. */
  lemma PlanHasNoCartItemId(
    userId: Option<string>, users: seq<User>, cart: seq<CartItem>, catalog: map<Id, Product>,
    stringify: seq<OrderItem> -> string)
    requires ProductsKnown(cart, catalog)
    requires PlanPayment(userId, users, cart, catalog, stringify).Success?
    ensures Lookup(PlanPayment(userId, users, cart, catalog, stringify).value.request.metadata, "cart_item_id") == None
  {
  }

  /** The pending order `pay` inserts for a plan. */
  function PendingOrder(orderId: Id, plan: PaymentPlan): Order {
    Order(orderId, Some(plan.userId), "pending", Some("wallet"), "pending", plan.totalCents, CartItemIds(plan.rows))
  }

  /** The gateway's answer to `createPaymentIntent`. */
  datatype GatewayReply = IntentIssued(clientSecret: string) | GatewayFailed(message: string)

  /**
   * What `pay` answers: the intent and its order, the plain "User not found"
   * failure, or the HTTP 500 "Error creating payment" carrying `error`.
   */
  datatype PayResult =
    | PaymentStarted(clientSecret: string, totalCents: int, orderId: Id, order: Order)
    | PayUserNotFound
    | PayServerError(error: string)

  // ------------------------------------------------------------- webhook

  /** An intent's `payment_method`: absent, an id string, or an expanded object. */
  datatype PaymentMethodRef = NoPaymentMethod | PaymentMethodId(id: string) | PaymentMethodObject(objectId: Option<string>)

  /** The fields of `event.data.dataObject` the handler reads. */
  datatype EventObject = EventObject(
    id: string,
    status: string,
    amountReceived: int,
    amount: int,
    currency: string,
    metadata: map<string, string>,
    paymentMethod: PaymentMethodRef)

  datatype WebhookEvent = WebhookEvent(eventType: string, dataObject: EventObject)

  /** The closed set of event types the `switch` names, with a default arm. */
  datatype EventKind =
    | IntentSucceeded | IntentPaymentFailed | IntentCanceled | IntentRequiresAction | ChargeSucceeded
    | IntentCreated | ChargeUpdated | PayoutPaid | PayoutFailed | Unhandled

  function Classify(eventType: string): EventKind {
    match eventType
    case "payment_intent.succeeded" => IntentSucceeded
    case "payment_intent.payment_failed" => IntentPaymentFailed
    case "payment_intent.canceled" => IntentCanceled
    case "payment_intent.requires_action" => IntentRequiresAction
    case "charge.succeeded" => ChargeSucceeded
    case "payment_intent.created" => IntentCreated
    case "charge.updated" => ChargeUpdated
    case "payout.paid" => PayoutPaid
    case "payout.failed" => PayoutFailed
    case _ => Unhandled
  }

  /** The amount and currency a success event records. */
  datatype Paid = Paid(amountCents: int, currency: string)

  /** The arguments of `updateTransaction`; `paid` is absent for the non-success events. */
  datatype TxUpdate = TxUpdate(reference: string, status: string, paid: Option<Paid>, rawStatus: string)

  /** The transaction update each state-changing event kind asks for; the reference is always the object's id. */
  function TransactionUpdateFor(kind: EventKind, obj: EventObject): (u: Option<TxUpdate>)
    ensures u.Some? ==> u.value.reference == obj.id && u.value.rawStatus == obj.status
    ensures u.Some? <==> kind in {IntentSucceeded, IntentPaymentFailed, IntentCanceled, IntentRequiresAction, ChargeSucceeded}
    ensures u.Some? ==> (u.value.paid.Some? <==> kind == IntentSucceeded || kind == ChargeSucceeded)
  {
    match kind
    case IntentSucceeded => Some(TxUpdate(obj.id, "succeeded", Some(Paid(obj.amountReceived, obj.currency)), obj.status))
    case IntentPaymentFailed => Some(TxUpdate(obj.id, "failed", None, obj.status))
    case IntentCanceled => Some(TxUpdate(obj.id, "canceled", None, obj.status))
    case IntentRequiresAction => Some(TxUpdate(obj.id, "requires_action", None, obj.status))
    case ChargeSucceeded => Some(TxUpdate(obj.id, "succeeded", Some(Paid(obj.amount, obj.currency)), obj.status))
    case _ => None
  }

  /**
   * `updateTransaction`: the row with the reference gets the supplied fields;
   * fields not supplied keep their values, and no row is created.
   */
  function ApplyTransactionUpdate(txs: map<string, Transaction>, u: TxUpdate): (r: map<string, Transaction>)
    ensures r.Keys == txs.Keys
    ensures forall ref :: ref in txs && ref != u.reference ==> r[ref] == txs[ref]
    ensures u.reference in txs ==>
      && r[u.reference].status == u.status
      && r[u.reference].rawStatus == u.rawStatus
      && (u.paid.Some? ==>
            r[u.reference].paidAmountCents == Some(u.paid.value.amountCents)
            && r[u.reference].paidCurrency == Some(u.paid.value.currency))
      && (u.paid.None? ==>
            r[u.reference].paidAmountCents == txs[u.reference].paidAmountCents
            && r[u.reference].paidCurrency == txs[u.reference].paidCurrency)
  {
    if u.reference !in txs then txs
    else
      var old_ := txs[u.reference];
      var updated := match u.paid
        case None => old_.(status := u.status, rawStatus := u.rawStatus)
        case Some(p) => old_.(status := u.status, rawStatus := u.rawStatus,
                              paidAmountCents := Some(p.amountCents), paidCurrency := Some(p.currency));
      txs[u.reference := updated]
  }

  /** An intent's `payment_method` string, else the object's id, else `''`. */
  function IntentPaymentMethod(pm: PaymentMethodRef): string {
    match pm
    case PaymentMethodId(s) => s
    case PaymentMethodObject(Some(id)) => id
    case _ => ""
  }

  /** A charge's `payment_method`, an id or null. */
  function ChargePaymentMethod(pm: PaymentMethodRef): Option<string> {
    match pm
    case PaymentMethodId(s) => Some(s)
    case _ => None
  }

  /**
   * The completed order a success event inserts, connected to the single cart
   * row named by `metadata.cart_item_id`. The insert fails when that key is
   * absent (a connect without an id) or names no existing cart row.
   */
  function SuccessOrder(kind: EventKind, obj: EventObject, orderId: Id, cartIds: set<Id>): (r: Result<Order, string>)
    requires kind == IntentSucceeded || kind == ChargeSucceeded
    ensures r.Success? <==> "cart_item_id" in obj.metadata && obj.metadata["cart_item_id"] in cartIds
    ensures r.Success? ==>
      && r.value.id == orderId
      && r.value.status == "completed"
      && r.value.paymentStatus == "succeeded"
      && r.value.userId == Lookup(obj.metadata, "user_id")
      && r.value.cartItemIds == [obj.metadata["cart_item_id"]]
      && r.value.totalCents == (if kind == IntentSucceeded then obj.amountReceived else obj.amount)
      && r.value.paymentMethod == (if kind == IntentSucceeded then Some(IntentPaymentMethod(obj.paymentMethod))
                                   else ChargePaymentMethod(obj.paymentMethod))
  {
    match Lookup(obj.metadata, "cart_item_id")
    case None => Failure("cart item id is missing")
    case Some(cartItemId) =>
      if cartItemId !in cartIds then Failure("connected cart item not found")
      else
        var method_ := if kind == IntentSucceeded then Some(IntentPaymentMethod(obj.paymentMethod))
                       else ChargePaymentMethod(obj.paymentMethod);
        var amount := if kind == IntentSucceeded then obj.amountReceived else obj.amount;
        Success(Order(orderId, Lookup(obj.metadata, "user_id"), "completed", method_, "succeeded", amount, [cartItemId]))
  }

  /** The order and transaction tables together. */
  datatype Ledger = Ledger(orders: seq<Order>, transactions: map<string, Transaction>)

  /** The new tables and the `received` flag of the acknowledgement. */
  datatype WebhookOutcome = WebhookOutcome(ledger: Ledger, received: bool)

  /**
   * `handleWebhook` on a verification result: a failed verification or a
   * failed order insert answers `{ received: false }` and changes nothing.
   */
  function Reconcile(ledger: Ledger, verified: Result<WebhookEvent, string>, cartIds: set<Id>, orderId: Id)
    : (out: WebhookOutcome)
    ensures !out.received ==> out.ledger == ledger
    ensures verified.Failure? ==> !out.received
    ensures out.ledger.transactions.Keys == ledger.transactions.Keys
    ensures verified.Success? ==> forall ref :: ref in ledger.transactions && ref != verified.value.dataObject.id ==>
      out.ledger.transactions[ref] == ledger.transactions[ref]
    ensures out.ledger.orders == ledger.orders
      || (exists o :: out.ledger.orders == ledger.orders + [o] && o.status == "completed" && o.paymentStatus == "succeeded")
    ensures verified.Success? ==>
      var kind := Classify(verified.value.eventType);
      var obj := verified.value.dataObject;
      (kind == IntentSucceeded || kind == ChargeSucceeded) ==>
        var placed := SuccessOrder(kind, obj, orderId, cartIds);
        && (out.received <==> placed.Success?)
        && (out.received ==>
              && out.ledger.orders == ledger.orders + [placed.value]
              && out.ledger.transactions == ApplyTransactionUpdate(ledger.transactions, TransactionUpdateFor(kind, obj).value))
    ensures verified.Success? ==>
      var kind := Classify(verified.value.eventType);
      var obj := verified.value.dataObject;
      !(kind == IntentSucceeded || kind == ChargeSucceeded) ==>
        && out.received
        && out.ledger.orders == ledger.orders
        && out.ledger.transactions == match TransactionUpdateFor(kind, obj)
             case None => ledger.transactions
             case Some(u) => ApplyTransactionUpdate(ledger.transactions, u)
  {
    match verified
    case Failure(_) => WebhookOutcome(ledger, false)
    case Success(event) =>
      var kind := Classify(event.eventType);
      var update := TransactionUpdateFor(kind, event.dataObject);
      if kind == IntentSucceeded || kind == ChargeSucceeded then
        match SuccessOrder(kind, event.dataObject, orderId, cartIds)
        case Failure(_) => WebhookOutcome(ledger, false)
        case Success(o) =>
          WebhookOutcome(Ledger(ledger.orders + [o], ApplyTransactionUpdate(ledger.transactions, update.value)), true)
      else if update.Some? then
        WebhookOutcome(Ledger(ledger.orders, ApplyTransactionUpdate(ledger.transactions, update.value)), true)
      else
        WebhookOutcome(ledger, true)
  }

  /** The status each state-changing event type writes to the transaction with the object's id. */
  lemma WebhookStatusMapping(ledger: Ledger, e: WebhookEvent, cartIds: set<Id>, orderId: Id)
    requires e.dataObject.id in ledger.transactions
    ensures var out := Reconcile(ledger, Success(e), cartIds, orderId);
      var tx := out.ledger.transactions[e.dataObject.id];
      && (e.eventType in {"payment_intent.payment_failed", "payment_intent.canceled", "payment_intent.requires_action"} ==>
            out.received && out.ledger.orders == ledger.orders && tx.rawStatus == e.dataObject.status)
      && (e.eventType == "payment_intent.payment_failed" ==> tx.status == "failed")
      && (e.eventType == "payment_intent.canceled" ==> tx.status == "canceled")
      && (e.eventType == "payment_intent.requires_action" ==> tx.status == "requires_action")
      && (e.eventType in {"payment_intent.succeeded", "charge.succeeded"} ==>
            (out.received <==> "cart_item_id" in e.dataObject.metadata && e.dataObject.metadata["cart_item_id"] in cartIds))
      && (e.eventType == "payment_intent.succeeded" && out.received ==>
            tx.status == "succeeded" && tx.paidAmountCents == Some(e.dataObject.amountReceived)
            && tx.paidCurrency == Some(e.dataObject.currency) && tx.rawStatus == e.dataObject.status)
      && (e.eventType == "charge.succeeded" && out.received ==>
            tx.status == "succeeded" && tx.paidAmountCents == Some(e.dataObject.amount)
            && tx.paidCurrency == Some(e.dataObject.currency) && tx.rawStatus == e.dataObject.status)
  {
  }

  /** The non-state events and unknown types are acknowledged and change nothing. */
  lemma IgnoredEventsChangeNothing(ledger: Ledger, e: WebhookEvent, cartIds: set<Id>, orderId: Id)
    requires e.eventType !in {"payment_intent.succeeded", "payment_intent.payment_failed", "payment_intent.canceled",
                              "payment_intent.requires_action", "charge.succeeded"}
    ensures Reconcile(ledger, Success(e), cartIds, orderId) == WebhookOutcome(ledger, true)
  {
  }

  /**
   * A success event for an intent that `pay` created finds no `cart_item_id` in
   * the metadata `pay` wrote, so its order insert fails: the webhook answers
   * `{ received: false }` and neither the orders nor the transaction change.
   */
  lemma PaidIntentSuccessIsNotRecorded(
    userId: Option<string>, users: seq<User>, cart: seq<CartItem>, catalog: map<Id, Product>,
    stringify: seq<OrderItem> -> string, ledger: Ledger, e: WebhookEvent, cartIds: set<Id>, orderId: Id)
    requires ProductsKnown(cart, catalog)
    requires PlanPayment(userId, users, cart, catalog, stringify).Success?
    requires e.dataObject.metadata == PlanPayment(userId, users, cart, catalog, stringify).value.request.metadata
    requires e.eventType == "payment_intent.succeeded" || e.eventType == "charge.succeeded"
    ensures Reconcile(ledger, Success(e), cartIds, orderId) == WebhookOutcome(ledger, false)
  {
    PlanHasNoCartItemId(userId, users, cart, catalog, stringify);
    SuccessWithoutCartItemIsRejected(ledger, e, cartIds, orderId);
  }

  /** A success event whose metadata has no `cart_item_id` is not acknowledged and changes nothing. */
  lemma SuccessWithoutCartItemIsRejected(ledger: Ledger, e: WebhookEvent, cartIds: set<Id>, orderId: Id)
    requires e.eventType == "payment_intent.succeeded" || e.eventType == "charge.succeeded"
    requires "cart_item_id" !in e.dataObject.metadata
    ensures Reconcile(ledger, Success(e), cartIds, orderId) == WebhookOutcome(ledger, false)
  {
    var kind := Classify(e.eventType);
    assert kind == IntentSucceeded || kind == ChargeSucceeded;
    assert SuccessOrder(kind, e.dataObject, orderId, cartIds).Failure?;
  }

  /** Redelivering a success event inserts a second completed order: the handler is not idempotent. */
  lemma RedeliveryInsertsSecondOrder(ledger: Ledger, e: WebhookEvent, cartIds: set<Id>, firstId: Id, secondId: Id)
    requires e.eventType == "payment_intent.succeeded"
    requires "cart_item_id" in e.dataObject.metadata && e.dataObject.metadata["cart_item_id"] in cartIds
    ensures var once := Reconcile(ledger, Success(e), cartIds, firstId);
      var twice := Reconcile(once.ledger, Success(e), cartIds, secondId);
      && once.received && twice.received
      && |twice.ledger.orders| == |ledger.orders| + 2
      && twice.ledger.orders[|ledger.orders|].(id := secondId) == twice.ledger.orders[|ledger.orders| + 1]
  {
  }

  /** A cart of 2 x 1000 + 1 x 500 cents shows a total of 2500 cents, whatever the place folder. */
  lemma ExampleCartTotal(placeFolder: string)
    ensures var cart := [CartItem("c1", "u", "p1", 2), CartItem("c2", "u", "p2", 1)];
      var catalog := map["p1" := Product("p1", "A", 1000, true, None), "p2" := Product("p2", "B", 500, true, None)];
      && UserCart(cart, "u") == cart
      && Auth.GetCartItems(cart, catalog, "u", placeFolder).totalCents == 2500
      && Auth.CartTotal(cart, catalog, "u") == 2500
  {
    var cart := [CartItem("c1", "u", "p1", 2), CartItem("c2", "u", "p2", 1)];
    var catalog := map["p1" := Product("p1", "A", 1000, true, None), "p2" := Product("p2", "B", 500, true, None)];
    FilterKeepsAll(cart, (c: CartItem) => c.userId == "u");
    assert UserCart(cart, "u") == cart;
    var v := Auth.GetCartItems(cart, catalog, "u", placeFolder);
    assert |v.lines| == 2;
    assert v.lines[0].totalCents == 2000 && v.lines[1].totalCents == 500;
    var totals := Auth.LineTotals(v.lines);
    assert totals == [2000, 500];
    assert Sum(totals) == 2000 + Sum([500]);
  }

  /** `pay` on the same cart requests an intent of 2500 cents for its owner. */
  lemma ExampleCartPlan(stringify: seq<OrderItem> -> string)
    ensures var cart := [CartItem("c1", "u", "p1", 2), CartItem("c2", "u", "p2", 1)];
      var catalog := map["p1" := Product("p1", "A", 1000, true, None), "p2" := Product("p2", "B", 500, true, None)];
      var users := [User("u", None, None, false, false, None, None, None, None)];
      var plan := PlanPayment(Some("u"), users, cart, catalog, stringify);
      plan.Success? && plan.value.request.amountCents == 2500
  {
    ExampleCartTotal("");
    var cart := [CartItem("c1", "u", "p1", 2), CartItem("c2", "u", "p2", 1)];
    var users := [User("u", None, None, false, false, None, None, None, None)];
    assert users[0].id == "u";
    assert cart != [];
  }

  /**
   * The same cart end to end: `pay` requests an intent of 2500 cents for its
   * owner, and a success event with `amount_received = 2500` naming a cart row
   * records 2500 as paid on the transaction.
   */
  lemma CheckoutExample(stringify: seq<OrderItem> -> string, ledger: Ledger, e: WebhookEvent, cartIds: set<Id>, orderId: Id)
    requires e.eventType == "payment_intent.succeeded" && e.dataObject.amountReceived == 2500
    requires e.dataObject.id in ledger.transactions
    requires "cart_item_id" in e.dataObject.metadata && e.dataObject.metadata["cart_item_id"] in cartIds
    ensures var cart := [CartItem("c1", "u", "p1", 2), CartItem("c2", "u", "p2", 1)];
      var catalog := map["p1" := Product("p1", "A", 1000, true, None), "p2" := Product("p2", "B", 500, true, None)];
      var users := [User("u", None, None, false, false, None, None, None, None)];
      var plan := PlanPayment(Some("u"), users, cart, catalog, stringify);
      plan.Success? && plan.value.request.amountCents == 2500
    ensures Reconcile(ledger, Success(e), cartIds, orderId).ledger.transactions[e.dataObject.id].paidAmountCents == Some(2500)
  {
    ExampleCartPlan(stringify);
    WebhookStatusMapping(ledger, e, cartIds, orderId);
  }

  // --------------------------------------------------------------- ledger

  /** The order and transaction tables the payment controller writes. */
  class PaymentLedger {
    var orders: seq<Order>
    var transactions: map<string, Transaction>

    constructor (transactions: map<string, Transaction>)
      ensures this.orders == [] && this.transactions == transactions
    {
      this.orders := [];
      this.transactions := transactions;
    }

    /**
     * `pay`: runs the guards, requests the intent from `gateway` and, when the
     * gateway answers, inserts exactly one pending order linked to every cart
     * row of the user. The cart is left as it was.
     */
    method Pay(
      userId: Option<string>, users: seq<User>, cart: seq<CartItem>, catalog: map<Id, Product>,
      stringify: seq<OrderItem> -> string, gateway: IntentRequest -> GatewayReply, orderId: Id)
      returns (r: PayResult)
      requires ProductsKnown(cart, catalog)
      modifies this`orders
      ensures match PlanPayment(userId, users, cart, catalog, stringify)
        case Failure(UnknownUser) => r == PayUserNotFound && orders == old(orders)
        case Failure(f) => r == PayServerError(PayFailureMessage(f)) && orders == old(orders)
        case Success(plan) =>
          match gateway(plan.request)
          case GatewayFailed(m) => r == PayServerError(m) && orders == old(orders)
          case IntentIssued(secret) =>
            && r == PaymentStarted(secret, plan.totalCents, orderId, PendingOrder(orderId, plan))
            && orders == old(orders) + [r.order]
      ensures r.PaymentStarted? ==>
        && |orders| == |old(orders)| + 1
        && r.order.status == "pending" && r.order.paymentStatus == "pending"
        && r.order.paymentMethod == Some("wallet")
        && r.order.totalCents == r.totalCents > 0
        && r.order.cartItemIds == CartItemIds(UserCart(cart, userId.value))
    {
      var plan := PlanPayment(userId, users, cart, catalog, stringify);
      if plan.Failure? {
        if plan.error == UnknownUser {
          return PayUserNotFound;
        }
        return PayServerError(PayFailureMessage(plan.error));
      }
      var payment := gateway(plan.value.request);
      if payment.GatewayFailed? {
        return PayServerError(payment.message);
      }
      var order := PendingOrder(orderId, plan.value);
      orders := orders + [order];
      r := PaymentStarted(payment.clientSecret, plan.value.totalCents, orderId, order);
    }

    /**
     * `handleWebhook`: `verified` is the signature check's result. Success
     * events insert a completed order and then update the transaction; the
     * failure, cancel and requires-action events only update the transaction.
     */
    method HandleWebhook(verified: Result<WebhookEvent, string>, cartIds: set<Id>, orderId: Id)
      returns (received: bool)
      modifies this`orders, this`transactions
      ensures WebhookOutcome(Ledger(orders, transactions), received)
           == Reconcile(Ledger(old(orders), old(transactions)), verified, cartIds, orderId)
    {
      if verified.Failure? {
        return false;
      }
      var event := verified.value;
      var obj := event.dataObject;
      var kind := Classify(event.eventType);
      match kind {
        case IntentSucceeded =>
          var order := SuccessOrder(kind, obj, orderId, cartIds);
          if order.Failure? {
            return false;
          }
          orders := orders + [order.value];
          transactions := ApplyTransactionUpdate(transactions,
            TxUpdate(obj.id, "succeeded", Some(Paid(obj.amountReceived, obj.currency)), obj.status));
        case IntentPaymentFailed =>
          transactions := ApplyTransactionUpdate(transactions, TxUpdate(obj.id, "failed", None, obj.status));
        case IntentCanceled =>
          transactions := ApplyTransactionUpdate(transactions, TxUpdate(obj.id, "canceled", None, obj.status));
        case IntentRequiresAction =>
          transactions := ApplyTransactionUpdate(transactions, TxUpdate(obj.id, "requires_action", None, obj.status));
        case ChargeSucceeded =>
          var chargeOrder := SuccessOrder(kind, obj, orderId, cartIds);
          if chargeOrder.Failure? {
            return false;
          }
          orders := orders + [chargeOrder.value];
          transactions := ApplyTransactionUpdate(transactions,
            TxUpdate(obj.id, "succeeded", Some(Paid(obj.amount, obj.currency)), obj.status));
        case _ =>
      }
      received := true;
    }
  }
}
