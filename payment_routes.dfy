/**
 * The payments router: creating (or re-using) the payment intent of an order,
 * the processor's webhook that marks an order as paid and empties the payer's
 * cart, and the payment-status query.
 *
 * The payment processor is modelled by `Processor`, a store of intents that
 * assigns ids in sequence; the webhook's signature check is an outcome
 * parameter (`None` when the payload is refused).
 */
module PaymentRoutes {
  import opened Wrappers
  import opened Schema
  import Pricing
  import Text
  import CartRoutes

  const CURRENCY := "usd"
  const INITIAL_INTENT_STATUS := "requires_payment_method"

  datatype Intent = Intent(
    amount: int,
    currency: string,
    description: string,
    orderId: Id,
    userId: Id,
    clientSecret: string,
    status: string)

  /** The payment processor's intents, as far as the handlers use them. */
  class Processor {
    var intents: map<Id, Intent>
    var next: Id

    ghost predicate Valid()
      reads this
    {
      forall k :: k in intents ==> k < next
    }

    constructor ()
      ensures Valid() && intents == map[] && next == 0
    {
      intents, next := map[], 0;
    }

    /** Creates an intent under a fresh id. */
    method Create(amount: int, currency: string, description: string, orderId: Id, userId: Id, clientSecret: string)
      returns (id: Id)
      requires Valid()
      modifies this
      ensures Valid()
      ensures id == old(next) && id !in old(intents) && next == id + 1
      ensures intents == old(intents)[id := Intent(amount, currency, description, orderId, userId, clientSecret, INITIAL_INTENT_STATUS)]
    {
      id := next;
      intents := intents[id := Intent(amount, currency, description, orderId, userId, clientSecret, INITIAL_INTENT_STATUS)];
      next := next + 1;
    }

    /** Looks an intent up; an unknown id is an error (None). */
    method Retrieve(id: Id) returns (r: Option<Intent>)
      ensures r.Some? <==> id in intents
      ensures r.Some? ==> r.value == intents[id]
    {
      if id in intents {
        return Some(intents[id]);
      }
      return None;
    }
  }

  /** Every order that records an intent points at an existing intent created for that order and its owner. */
  ghost predicate Linked(orders: map<Id, Order>, intents: map<Id, Intent>)
  {
    forall o :: o in orders && orders[o].paymentIntentId.Some? ==>
      var pid := orders[o].paymentIntentId.value;
      pid in intents && intents[pid].orderId == o && intents[pid].userId == orders[o].userId
  }

  /** The description attached to a new intent. */
  function Description(orderId: Id): string
  {
    "Export transaction for Order #" + Text.NatText(orderId)
  }

  /**
   * POST /create-payment-intent: the intent's client secret for the caller's
   * own order, creating the intent (amount in cents of the stored total, in
   * dollars) only when the order has none yet. `clientSecret` is the secret the
   * processor issues with a new intent. When the recorded intent cannot be
   * retrieved (never the case while `Linked` holds, which the handler keeps) the
   * reply is 500.
   */
  method CreatePaymentIntent(db: Database, stripe: Processor, userId: Id, orderId: Option<Id>, clientSecret: string, now: Time)
    returns (r: Result<string>)
    requires db.Valid() && stripe.Valid()
    modifies db`orders, stripe
    ensures db.Valid() && stripe.Valid()
    ensures old(Linked(db.orders, stripe.intents)) ==> Linked(db.orders, stripe.intents)
    ensures orderId.None? ==> r == Err(VALIDATION_FAILED)
    ensures orderId.Some? && orderId.value !in old(db.orders) ==> r == Err(Failure(404, "Order not found"))
    ensures orderId.Some? && orderId.value in old(db.orders) && old(db.orders)[orderId.value].userId != userId ==>
              r == Err(Failure(403, "Access denied"))
    ensures orderId.Some? && orderId.value in old(db.orders) && old(db.orders)[orderId.value].userId == userId
            && old(db.orders)[orderId.value].paymentIntentId.Some?
            && old(db.orders)[orderId.value].paymentIntentId.value !in old(stripe.intents) ==>
              r == Err(Failure(500, "Failed to create payment intent"))
    ensures r.Err? ==> db.orders == old(db.orders) && stripe.intents == old(stripe.intents)
    ensures r.Ok? <==> orderId.Some? && orderId.value in old(db.orders) && old(db.orders)[orderId.value].userId == userId
                       && (old(db.orders)[orderId.value].paymentIntentId.None?
                           || old(db.orders)[orderId.value].paymentIntentId.value in old(stripe.intents))
    // An order that already has an intent gets that intent's secret and nothing changes.
    ensures r.Ok? && old(db.orders)[orderId.value].paymentIntentId.Some? ==>
              && r.value == old(stripe.intents)[old(db.orders)[orderId.value].paymentIntentId.value].clientSecret
              && db.orders == old(db.orders) && stripe.intents == old(stripe.intents)
    // Otherwise one new intent for the order's total is created and recorded on the order.
    ensures r.Ok? && old(db.orders)[orderId.value].paymentIntentId.None? ==>
              var id := orderId.value;
              var order := old(db.orders)[id];
              var pid := old(stripe.next);
              && r.value == clientSecret
              && stripe.intents == old(stripe.intents)[pid := Intent(Pricing.AmountInCents(order.total), CURRENCY,
                                     Description(id), id, userId, clientSecret, INITIAL_INTENT_STATUS)]
              && db.orders == old(db.orders)[id := order.(paymentIntentId := Some(pid), updatedAt := now)]
  {
    if orderId.None? {
      return Err(VALIDATION_FAILED);
    }
    var id := orderId.value;
    if id !in db.orders {
      return Err(Failure(404, "Order not found"));
    }
    var order := db.orders[id];
    if order.userId != userId {
      return Err(Failure(403, "Access denied"));
    }
    if order.paymentIntentId.Some? {
      var existing := stripe.Retrieve(order.paymentIntentId.value);
      if existing.None? {
        return Err(Failure(500, "Failed to create payment intent"));
      }
      return Ok(existing.value.clientSecret);
    }
    var pid := stripe.Create(Pricing.AmountInCents(order.total), CURRENCY, Description(id), id, userId, clientSecret);
    db.UpdateOrder(id, order.(paymentIntentId := Some(pid), updatedAt := now));
    return Ok(clientSecret);
  }

  /** A verified webhook event: its type and the order and user ids of the intent's metadata. */
  datatype Event = Event(kind: string, orderId: Option<Id>, userId: Option<Id>)

  const PAYMENT_SUCCEEDED := "payment_intent.succeeded"
  const PAYMENT_FAILED := "payment_intent.payment_failed"

  /** The orders table after a successful payment for `orderId`: that order becomes PROCESSING, whatever its status was. */
  function MarkProcessing(orders: map<Id, Order>, orderId: Option<Id>, now: Time): (r: map<Id, Order>)
    ensures r.Keys == orders.Keys
    ensures forall o :: o in orders && Some(o) != orderId ==> r[o] == orders[o]
    ensures orderId.Some? && orderId.value in orders ==>
              r[orderId.value] == orders[orderId.value].(status := PROCESSING, updatedAt := now)
  {
    if orderId.Some? && orderId.value in orders then
      orders[orderId.value := orders[orderId.value].(status := PROCESSING, updatedAt := now)]
    else orders
  }

  /** The cart lines after a successful payment by `userId`: that user's cart is emptied, if the user has one. */
  function ClearUserCart(carts: map<Id, Id>, cartItems: map<Id, map<Id, int>>, userId: Option<Id>): (r: map<Id, map<Id, int>>)
    ensures r.Keys == cartItems.Keys + (if userId.Some? && userId.value in carts then {carts[userId.value]} else {})
    ensures forall c :: c in cartItems && (userId.None? || userId.value !in carts || c != carts[userId.value]) ==> r[c] == cartItems[c]
    ensures userId.Some? && userId.value in carts ==> r[carts[userId.value]] == map[]
  {
    if userId.Some? && userId.value in carts then cartItems[carts[userId.value] := map[]] else cartItems
  }

  /**
   * Delivering the same successful payment twice, at `now1` and then at
   * `now2`, leaves the tables as delivering it once at `now2`: the only trace
   * of the first delivery, its `updatedAt`, is overwritten.
   */
  lemma WebhookReplayIdempotent(orders: map<Id, Order>, carts: map<Id, Id>, cartItems: map<Id, map<Id, int>>,
                                orderId: Option<Id>, userId: Option<Id>, now1: Time, now2: Time)
    ensures MarkProcessing(MarkProcessing(orders, orderId, now1), orderId, now2) == MarkProcessing(orders, orderId, now2)
    ensures ClearUserCart(carts, ClearUserCart(carts, cartItems, userId), userId) == ClearUserCart(carts, cartItems, userId)
  {
  }

  /** A payment arriving for an order that was already delivered or cancelled moves it back to PROCESSING. */
  lemma PaymentOverridesAnyStatus(orders: map<Id, Order>, orderId: Id, now: Time)
    requires orderId in orders && orders[orderId].status in {DELIVERED, CANCELLED}
    ensures MarkProcessing(orders, Some(orderId), now)[orderId].status == PROCESSING
  {
  }

  /**
   * POST /webhook: refuse a request without signature or secret (400), then a
   * payload whose signature does not verify (`event` None, 400). A successful
   * payment marks its order PROCESSING and clears the payer's cart; every other
   * event changes nothing.
   */
  method HandleWebhook(db: Database, signature: Option<string>, webhookSecret: Option<string>, event: Option<Event>, now: Time)
    returns (r: Result<bool>)
    requires db.Valid()
    modifies db`orders, db`cartItems
    ensures db.Valid()
    ensures !Truthy(signature) || !Truthy(webhookSecret) ==> r == Err(Failure(400, "Missing signature or webhook secret"))
    ensures Truthy(signature) && Truthy(webhookSecret) && event.None? ==> r == Err(Failure(400, "Webhook processing failed"))
    ensures r.Ok? <==> Truthy(signature) && Truthy(webhookSecret) && event.Some?
    ensures r.Ok? ==> r.value
    ensures r.Ok? && event.value.kind == PAYMENT_SUCCEEDED ==>
              && db.orders == MarkProcessing(old(db.orders), event.value.orderId, now)
              && db.cartItems == ClearUserCart(db.carts, old(db.cartItems), event.value.userId)
    ensures r.Err? || event.value.kind != PAYMENT_SUCCEEDED ==>
              db.orders == old(db.orders) && db.cartItems == old(db.cartItems)
  {
    if !Truthy(signature) || !Truthy(webhookSecret) {
      return Err(Failure(400, "Missing signature or webhook secret"));
    }
    if event.None? {
      return Err(Failure(400, "Webhook processing failed"));
    }
    var e := event.value;
    if e.kind == PAYMENT_SUCCEEDED {
      MarkOrderPaid(db, e.orderId, now);
      ClearPayerCart(db, e.userId);
    }
    return Ok(true);
  }

  /** The order update of a successful payment. */
  method MarkOrderPaid(db: Database, orderId: Option<Id>, now: Time)
    requires db.Valid()
    modifies db`orders
    ensures db.Valid()
    ensures db.orders == MarkProcessing(old(db.orders), orderId, now)
  {
    if orderId.Some? && orderId.value in db.orders {
      var id := orderId.value;
      db.UpdateOrder(id, db.orders[id].(status := PROCESSING, updatedAt := now));
    }
  }

  /** The cart-line delete of a successful payment. */
  method ClearPayerCart(db: Database, userId: Option<Id>)
    requires db.Valid()
    modifies db`cartItems
    ensures db.Valid()
    ensures db.cartItems == ClearUserCart(db.carts, old(db.cartItems), userId)
  {
    if userId.Some? && userId.value in db.carts {
      var cartId := db.carts[userId.value];
      CartRoutes.ShapeAfterWrite(db.carts, db.cartItems, cartId, map[]);
      db.cartItems := db.cartItems[cartId := map[]];
      assert db.IdsFresh();
      assert db.ForeignKeys();
    }
  }

  /** The reply of the status query. */
  datatype PaymentStatus = NotStarted | Known(status: string, orderId: Id, orderStatus: OrderStatus)

  /** GET /status/:orderId: the intent's status for the caller's own order, or `not_started`. */
  method GetPaymentStatus(db: Database, stripe: Processor, userId: Id, orderId: Id) returns (r: Result<PaymentStatus>)
    ensures orderId !in db.orders ==> r == Err(Failure(404, "Order not found"))
    ensures orderId in db.orders && db.orders[orderId].userId != userId ==> r == Err(Failure(403, "Access denied"))
    ensures orderId in db.orders && db.orders[orderId].userId == userId ==>
              var pid := db.orders[orderId].paymentIntentId;
              if pid.None? then r == Ok(NotStarted)
              else if pid.value !in stripe.intents then r == Err(Failure(500, "Failed to get payment status"))
              else r == Ok(Known(stripe.intents[pid.value].status, orderId, db.orders[orderId].status))
  {
    if orderId !in db.orders {
      return Err(Failure(404, "Order not found"));
    }
    var order := db.orders[orderId];
    if order.userId != userId {
      return Err(Failure(403, "Access denied"));
    }
    if order.paymentIntentId.None? {
      return Ok(NotStarted);
    }
    var intent := stripe.Retrieve(order.paymentIntentId.value);
    if intent.None? {
      return Err(Failure(500, "Failed to get payment status"));
    }
    return Ok(Known(intent.value.status, orderId, order.status));
  }
}
