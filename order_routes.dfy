/**
 * The orders router: placing an order from a list of product lines (price
 * freezing, tax, stock decrement), reading one order, listing a user's
 * orders, the administrator's listing and the status update.
 *
 * Placing an order checks each line against the product's current stock on
 * its own, in the order of the request, and then decrements stock line by
 * line. Two lines for the same product therefore pass the check separately
 * and can drive the stock below zero (`DuplicateLineOversell`);
 * `CreateOrderReserved` is the corrected handler that checks each product's
 * total quantity instead (`ReservedNeverOversells`).
 */
module OrderRoutes {
  import opened Wrappers
  import opened Schema
  import opened AuthMiddleware
  import Pricing
  import Text
  import Listing

  datatype LineInput = LineInput(productId: Id, quantity: int)

  /** The request body; `shippingAddress` is None when the field is missing. */
  datatype OrderInput = OrderInput(items: seq<LineInput>, shippingAddress: Option<string>)

  /** The line as priced when the order is placed, before the order id exists. */
  datatype PricedLine = PricedLine(productId: Id, quantity: int, priceAtPurchase: real)

  /** The priced lines and the unrounded subtotal. */
  datatype Priced = Priced(lines: seq<PricedLine>, subtotal: real)

  /** An order together with its items, as the handlers return it. */
  datatype OrderView = OrderView(id: Id, order: Order, items: seq<OrderItem>)

  /** The body schema: at least one line, integer quantities of at least one, an address. */
  predicate ValidOrderInput(input: OrderInput)
  {
    && |input.items| >= 1
    && (forall i :: 0 <= i < |input.items| ==> input.items[i].quantity >= 1)
    && input.shippingAddress.Some?
  }

  /** The unit price actually charged: the list price less the discount percentage (absent is 0). */
  function FinalPrice(p: Product): real
  {
    p.price * (1.0 - p.discountPercent.GetOr(0.0) / 100.0)
  }

  /** The server charges exactly the discounted price the storefront shows. */
  lemma FinalPriceIsDiscountedPrice(p: Product)
    ensures FinalPrice(p) == Pricing.DiscountedPrice(p.price, p.discountPercent)
  {
    match p.discountPercent
    case None =>
      assert p.discountPercent.GetOr(0.0) == 0.0;
    case Some(d) =>
  }

  /** The line names an existing product with at least the requested stock. */
  predicate LineOk(item: LineInput, products: map<Id, Product>)
  {
    item.productId in products && products[item.productId].stock >= item.quantity
  }

  /** The failure a single line produces when it is checked. */
  function LineFailure(item: LineInput, products: map<Id, Product>): (r: Option<Failure>)
    ensures r.None? <==> LineOk(item, products)
    ensures r.Some? ==> r.value.status == 400
  {
    if item.productId !in products then
      Some(Failure(400, "Product not found: " + Text.NatText(item.productId)))
    else if products[item.productId].stock < item.quantity then
      Some(Failure(400, "Insufficient stock for " + products[item.productId].name))
    else
      None
  }

  /** The failure of the first line, in request order, that fails its check. */
  function FirstFailure(items: seq<LineInput>, products: map<Id, Product>): (r: Option<Failure>)
    ensures r.None? <==> forall i :: 0 <= i < |items| ==> LineOk(items[i], products)
    ensures r.Some? ==> exists i :: 0 <= i < |items| && r == LineFailure(items[i], products)
                          && forall j :: 0 <= j < i ==> LineOk(items[j], products)
  {
    if items == [] then None
    else
      var earlier := FirstFailure(items[..|items| - 1], products);
      if earlier.Some? then earlier else LineFailure(items[|items| - 1], products)
  }

  /** A failure among the first `k` lines is the failure of the whole list. */
  lemma {:induction false} FirstFailurePrefix(items: seq<LineInput>, products: map<Id, Product>, k: nat)
    requires k <= |items|
    requires FirstFailure(items[..k], products).Some?
    ensures FirstFailure(items, products) == FirstFailure(items[..k], products)
    decreases |items| - k
  {
    if k < |items| {
      assert items[..k + 1][..k] == items[..k];
      FirstFailurePrefix(items, products, k + 1);
    } else {
      assert items[..k] == items;
    }
  }

  predicate AllKnown(items: seq<LineInput>, products: map<Id, Product>)
  {
    forall i :: 0 <= i < |items| ==> items[i].productId in products
  }

  /** The unrounded subtotal: the sum of final price times quantity. */
  function RawSubtotal(items: seq<LineInput>, products: map<Id, Product>): real
    requires AllKnown(items, products)
  {
    if items == [] then 0.0
    else
      var last := items[|items| - 1];
      RawSubtotal(items[..|items| - 1], products) + FinalPrice(products[last.productId]) * last.quantity as real
  }

  /** With non-negative prices and discounts of at most 100%, the subtotal is never negative. */
  lemma {:induction false} SubtotalNonNegative(items: seq<LineInput>, products: map<Id, Product>)
    requires AllKnown(items, products)
    requires forall i :: 0 <= i < |items| ==> items[i].quantity >= 1
    requires forall k :: k in products ==> products[k].price >= 0.0 && 0.0 <= products[k].discountPercent.GetOr(0.0) <= 100.0
    ensures RawSubtotal(items, products) >= 0.0
  {
    if items != [] {
      var last := items[|items| - 1];
      var p := products[last.productId];
      SubtotalNonNegative(items[..|items| - 1], products);
      FinalPriceIsDiscountedPrice(p);
      Pricing.DiscountWithinPrice(p.price, p.discountPercent.GetOr(0.0));
      assert p.discountPercent == Some(p.discountPercent.GetOr(0.0)) || p.discountPercent.None?;
      if p.discountPercent.None? {
        Pricing.NoDiscountKeepsPrice(p.price);
      }
      assert FinalPrice(p) >= 0.0;
      assert FinalPrice(p) * last.quantity as real >= 0.0;
    }
  }

  /** One line priced at the product's current final price, rounded to cents as stored. */
  function PriceLine(item: LineInput, products: map<Id, Product>): PricedLine
    requires item.productId in products
  {
    PricedLine(item.productId, item.quantity, Pricing.ToFixed2(FinalPrice(products[item.productId])))
  }

  /** Every line priced, in request order. */
  function PricedLines(items: seq<LineInput>, products: map<Id, Product>): (r: seq<PricedLine>)
    requires AllKnown(items, products)
    ensures |r| == |items|
    ensures forall i :: 0 <= i < |items| ==> r[i] == PriceLine(items[i], products)
  {
    if items == [] then []
    else PricedLines(items[..|items| - 1], products) + [PriceLine(items[|items| - 1], products)]
  }

  /**
   * Each line is frozen at its product's final price as it stands when the
   * order is placed, to the nearest cent: a whole number of cents within half a
   * cent of that price, and exactly that price when it already is in cents.
   */
  lemma FrozenPrices(items: seq<LineInput>, products: map<Id, Product>)
    requires AllKnown(items, products)
    ensures forall i :: 0 <= i < |items| ==>
              var line := PricedLines(items, products)[i];
              var final := FinalPrice(products[items[i].productId]);
              && line.productId == items[i].productId && line.quantity == items[i].quantity
              && Pricing.IsCents(line.priceAtPurchase)
              && final - 0.005 <= line.priceAtPurchase <= final + 0.005
              && (Pricing.IsCents(final) ==> line.priceAtPurchase == final)
  {
    forall i | 0 <= i < |items| && Pricing.IsCents(FinalPrice(products[items[i].productId]))
      ensures PricedLines(items, products)[i].priceAtPurchase == FinalPrice(products[items[i].productId])
    {
      Pricing.ToFixed2OfCents(FinalPrice(products[items[i].productId]));
    }
  }

  /** The order_items rows for the priced lines of order `orderId`. */
  function Attach(lines: seq<PricedLine>, orderId: Id): (r: seq<OrderItem>)
    ensures |r| == |lines|
    ensures forall i :: 0 <= i < |lines| ==>
              r[i] == OrderItem(orderId, lines[i].productId, lines[i].quantity, lines[i].priceAtPurchase)
  {
    if lines == [] then []
    else
      var last := lines[|lines| - 1];
      Attach(lines[..|lines| - 1], orderId) + [OrderItem(orderId, last.productId, last.quantity, last.priceAtPurchase)]
  }

  /** The order row written for an unrounded subtotal. */
  function NewOrder(userId: Id, rawSubtotal: real, address: string, now: Time): Order
  {
    var a := Pricing.StoredAmounts(rawSubtotal);
    Order(userId, a.subtotal, a.taxAmount, DEFAULT_DISCOUNT_AMOUNT, a.total, DEFAULT_ORDER_STATUS, None, address, now, now)
  }

  /**
   * The order row of a request whose lines all name known products fits its
   * columns. The row is inserted before its items and the stock writes, so when
   * it does not fit nothing is written.
   */
  predicate FitsColumns(userId: Id, input: OrderInput, products: map<Id, Product>, now: Time)
    requires input.shippingAddress.Some?
  {
    AllKnown(input.items, products) && OrderFits(NewOrder(userId, RawSubtotal(input.items, products), input.shippingAddress.value, now))
  }

  /** The total quantity that the lines request of product `productId`. */
  function QuantityOf(items: seq<LineInput>, productId: Id): int
  {
    if items == [] then 0
    else
      var last := items[|items| - 1];
      QuantityOf(items[..|items| - 1], productId) + (if last.productId == productId then last.quantity else 0)
  }

  /** The products table after the decrement loop: each existing line's product loses its quantity. */
  function Decremented(products: map<Id, Product>, items: seq<LineInput>): (r: map<Id, Product>)
    ensures r.Keys == products.Keys
  {
    if items == [] then products
    else
      var before := Decremented(products, items[..|items| - 1]);
      var last := items[|items| - 1];
      if last.productId in before then
        before[last.productId := before[last.productId].(stock := before[last.productId].stock - last.quantity)]
      else before
  }

  /** The decrement loop takes from each product exactly the total quantity the lines request, and touches nothing else. */
  lemma {:induction false} DecrementedStock(products: map<Id, Product>, items: seq<LineInput>)
    ensures forall k :: k in products ==>
              Decremented(products, items)[k] == products[k].(stock := products[k].stock - QuantityOf(items, k))
  {
    if items != [] {
      DecrementedStock(products, items[..|items| - 1]);
    }
  }

  /** A product that no line names has no requested quantity. */
  lemma {:induction false} QuantityOfAbsent(items: seq<LineInput>, productId: Id)
    requires forall i :: 0 <= i < |items| ==> items[i].productId != productId
    ensures QuantityOf(items, productId) == 0
  {
    if items != [] {
      QuantityOfAbsent(items[..|items| - 1], productId);
    }
  }

  /** With positive quantities, a product's total quantity is at least that of each of its lines. */
  lemma {:induction false} QuantityOfCoversLine(items: seq<LineInput>, i: nat)
    requires i < |items|
    requires forall j :: 0 <= j < |items| ==> items[j].quantity >= 0
    ensures QuantityOf(items, items[i].productId) >= items[i].quantity
  {
    var init := items[..|items| - 1];
    if i < |items| - 1 {
      QuantityOfCoversLine(init, i);
      assert init[i] == items[i];
    } else {
      QuantityOfNonNegative(init, items[i].productId);
    }
  }

  lemma {:induction false} QuantityOfNonNegative(items: seq<LineInput>, productId: Id)
    requires forall j :: 0 <= j < |items| ==> items[j].quantity >= 0
    ensures QuantityOf(items, productId) >= 0
  {
    if items != [] {
      QuantityOfNonNegative(items[..|items| - 1], productId);
    }
  }

  /** With non-negative quantities, every line's product is requested at least that line's quantity in total. */
  lemma QuantityOfCoversLines(items: seq<LineInput>)
    ensures (forall j :: 0 <= j < |items| ==> items[j].quantity >= 0) ==>
              forall i :: 0 <= i < |items| ==> QuantityOf(items, items[i].productId) >= items[i].quantity
  {
    if forall j :: 0 <= j < |items| ==> items[j].quantity >= 0 {
      forall i | 0 <= i < |items|
        ensures QuantityOf(items, items[i].productId) >= items[i].quantity
      {
        QuantityOfCoversLine(items, i);
      }
    }
  }

  /**
   * Each line carrying the total quantity of its product: what a per-product
   * check must compare with stock. Lines of one product reserve the same
   * amount, and with non-negative quantities no line reserves less than it asks.
   */
  function Reserved(items: seq<LineInput>): (r: seq<LineInput>)
    ensures |r| == |items|
    ensures forall i :: 0 <= i < |items| ==> r[i] == LineInput(items[i].productId, QuantityOf(items, items[i].productId))
    ensures forall i, j :: 0 <= i < |items| && 0 <= j < |items| && items[i].productId == items[j].productId ==> r[i] == r[j]
    ensures (forall j :: 0 <= j < |items| ==> items[j].quantity >= 0) ==>
              forall i :: 0 <= i < |items| ==> r[i].quantity >= items[i].quantity
  {
    QuantityOfCoversLines(items);
    seq(|items|, i requires 0 <= i < |items| => LineInput(items[i].productId, QuantityOf(items, items[i].productId)))
  }

  /** The corrected check: the first line whose product is missing or short of the product's total quantity. */
  function ReservationFailure(items: seq<LineInput>, products: map<Id, Product>): Option<Failure>
  {
    FirstFailure(Reserved(items), products)
  }

  /**
   * As written, two lines of one unit each for a product with one unit in stock
   * both pass the check, and the stock ends at -1; the corrected check refuses them.
   */
  lemma DuplicateLineOversell(p: Product)
    requires p.stock == 1
    ensures var products := map[0 := p];
            var items := [LineInput(0, 1), LineInput(0, 1)];
            && FirstFailure(items, products).None?
            && Decremented(products, items)[0].stock == -1
            && ReservationFailure(items, products) == Some(Failure(400, "Insufficient stock for " + p.name))
  {
    var products := map[0 := p];
    var items := [LineInput(0, 1), LineInput(0, 1)];
    assert items[..1] == [LineInput(0, 1)];
    assert items[..1][..0] == [];
    assert Decremented(products, items[..1])[0].stock == 0;
    assert QuantityOf(items, 0) == 2;
    var r := Reserved(items);
    assert r[0] == LineInput(0, 2);
    assert r[..1] == [LineInput(0, 2)];
    assert r[..1][..0] == [];
    assert FirstFailure(r[..1], products) == LineFailure(LineInput(0, 2), products);
    assert r[..|r| - 1] == r[..1];
  }

  /** Under the corrected check, no product the order names is left with negative stock. */
  lemma ReservedNeverOversells(items: seq<LineInput>, products: map<Id, Product>)
    requires ReservationFailure(items, products).None?
    ensures forall k :: k in products && products[k].stock >= 0 ==> Decremented(products, items)[k].stock >= 0
  {
    DecrementedStock(products, items);
    var r := Reserved(items);
    forall k | k in products && products[k].stock >= 0
      ensures Decremented(products, items)[k].stock >= 0
    {
      if i :| 0 <= i < |items| && items[i].productId == k {
        assert LineOk(r[i], products);
      } else {
        QuantityOfAbsent(items, k);
      }
    }
  }

  /** The corrected check passes only orders the original per-line check also passes. */
  lemma ReservedImpliesLineChecks(items: seq<LineInput>, products: map<Id, Product>)
    requires forall i :: 0 <= i < |items| ==> items[i].quantity >= 1
    requires ReservationFailure(items, products).None?
    ensures FirstFailure(items, products).None?
  {
    var r := Reserved(items);
    forall i | 0 <= i < |items|
      ensures LineOk(items[i], products)
    {
      assert LineOk(r[i], products);
      QuantityOfCoversLine(items, i);
    }
  }

  /** Prices and checks the lines in request order, stopping at the first line that fails. */
  method PriceItems(db: Database, items: seq<LineInput>) returns (r: Result<Priced>)
    ensures FirstFailure(items, db.products).Some? ==> r == Err(FirstFailure(items, db.products).value)
    ensures FirstFailure(items, db.products).None? ==>
              AllKnown(items, db.products)
              && r == Ok(Priced(PricedLines(items, db.products), RawSubtotal(items, db.products)))
  {
    var subtotal := 0.0;
    var lines: seq<PricedLine> := [];
    var i := 0;
    while i < |items|
      invariant 0 <= i <= |items|
      invariant FirstFailure(items[..i], db.products).None?
      invariant AllKnown(items[..i], db.products)
      invariant subtotal == RawSubtotal(items[..i], db.products)
      invariant lines == PricedLines(items[..i], db.products)
    {
      var item := items[i];
      assert items[..i + 1][..i] == items[..i];
      assert items[..i + 1][i] == item;
      if item.productId !in db.products {
        FirstFailurePrefix(items, db.products, i + 1);
        return Err(Failure(400, "Product not found: " + Text.NatText(item.productId)));
      }
      var product := db.products[item.productId];
      if product.stock < item.quantity {
        FirstFailurePrefix(items, db.products, i + 1);
        return Err(Failure(400, "Insufficient stock for " + product.name));
      }
      var finalPrice := product.price * (1.0 - product.discountPercent.GetOr(0.0) / 100.0);
      assert finalPrice == FinalPrice(product);
      subtotal := subtotal + finalPrice * item.quantity as real;
      lines := lines + [PricedLine(item.productId, item.quantity, Pricing.ToFixed2(finalPrice))];
      assert lines[i] == PriceLine(item, db.products);
      i := i + 1;
    }
    assert items[..i] == items;
    return Ok(Priced(lines, subtotal));
  }

  /** Writes the order row, its items, and decrements stock line by line. */
  method PlaceOrder(db: Database, userId: Id, items: seq<LineInput>, address: string, priced: Priced, now: Time)
    returns (orderId: Id)
    requires db.Valid()
    requires userId in db.users
    requires forall i :: 0 <= i < |priced.lines| ==> priced.lines[i].productId in db.products
    modifies db`orders, db`orderItems, db`products, db`nextId
    ensures db.Valid()
    ensures orderId == old(db.nextId) && db.nextId == orderId + 1
    ensures db.orders == old(db.orders)[orderId := NewOrder(userId, priced.subtotal, address, now)]
    ensures db.orderItems == old(db.orderItems) + Attach(priced.lines, orderId)
    ensures db.products == Decremented(old(db.products), items)
  {
    orderId := WriteOrder(db, userId, address, priced, now);
    LowerStock(db, items);
  }

  /** The order row and its item rows, under a fresh order id. */
  method WriteOrder(db: Database, userId: Id, address: string, priced: Priced, now: Time) returns (orderId: Id)
    requires db.Valid()
    requires userId in db.users
    requires forall i :: 0 <= i < |priced.lines| ==> priced.lines[i].productId in db.products
    modifies db`orders, db`orderItems, db`nextId
    ensures db.Valid()
    ensures orderId == old(db.nextId) && db.nextId == orderId + 1
    ensures db.orders == old(db.orders)[orderId := NewOrder(userId, priced.subtotal, address, now)]
    ensures db.orderItems == old(db.orderItems) + Attach(priced.lines, orderId)
  {
    orderId := db.InsertOrder(NewOrder(userId, priced.subtotal, address, now));
    var attached := Attach(priced.lines, orderId);
    db.orderItems := db.orderItems + attached;
    assert db.IdsFresh();
    assert db.Unique();
    assert db.ForeignKeys() by {
      forall i | 0 <= i < |db.orderItems|
        ensures db.orderItems[i].productId in db.products && db.orderItems[i].orderId in db.orders
      {
        if i >= |old(db.orderItems)| {
          assert db.orderItems[i] == attached[i - |old(db.orderItems)|];
        }
      }
    }
    assert db.CartsWellFormed();
  }

  /** The stock writes of an order: each product loses the quantities its lines request, and nothing else changes. */
  method LowerStock(db: Database, items: seq<LineInput>)
    requires db.Valid()
    modifies db`products
    ensures db.Valid()
    ensures db.products == Decremented(old(db.products), items)
  {
    var before := db.products;
    DecrementStock(db, items);
    DecrementedStock(before, items);
    assert db.IdsFresh();
    assert db.Unique() by {
      forall a, b | a in db.products && b in db.products && db.products[a].slug == db.products[b].slug
        ensures a == b
      {
        assert before[a].slug == db.products[a].slug && before[b].slug == db.products[b].slug;
      }
    }
    assert db.ForeignKeys() by {
      forall p | p in db.products && db.products[p].categoryId.Some?
        ensures db.products[p].categoryId.value in db.categories
      {
        assert before[p].categoryId == db.products[p].categoryId;
      }
    }
    assert db.CartsWellFormed();
  }

  /** The stock loop: for each line, re-read the product and write back its stock less the line's quantity. */
  method DecrementStock(db: Database, items: seq<LineInput>)
    modifies db`products
    ensures db.products == Decremented(old(db.products), items)
  {
    var j := 0;
    while j < |items|
      invariant 0 <= j <= |items|
      invariant db.products == Decremented(old(db.products), items[..j])
    {
      var item := items[j];
      assert items[..j + 1][..j] == items[..j];
      if item.productId in db.products {
        var product := db.products[item.productId];
        db.products := db.products[item.productId := product.(stock := product.stock - item.quantity)];
      }
      j := j + 1;
    }
    assert items[..j] == items;
  }

  /** The items of order `orderId`, in the order they were written. */
  function ItemsOf(orderItems: seq<OrderItem>, orderId: Id): seq<OrderItem>
  {
    Listing.Filter(orderItems, (x: OrderItem) => x.orderId == orderId)
  }

  /** POST /: validate, check and price every line, write the order and decrement stock. */
  method CreateOrder(db: Database, userId: Id, input: OrderInput, now: Time) returns (r: Result<OrderView>)
    requires db.Valid()
    requires userId in db.users
    modifies db`orders, db`orderItems, db`products, db`nextId
    ensures db.Valid()
    ensures !ValidOrderInput(input) ==> r == Err(VALIDATION_FAILED)
    ensures ValidOrderInput(input) && FirstFailure(input.items, old(db.products)).Some? ==>
              r == Err(FirstFailure(input.items, old(db.products)).value)
    ensures ValidOrderInput(input) && FirstFailure(input.items, old(db.products)).None?
            && !FitsColumns(userId, input, old(db.products), now) ==>
              r == Err(Failure(500, "Failed to create order"))
    ensures r.Err? ==> unchanged(db`orders, db`orderItems, db`products, db`nextId)
    ensures r.Ok? <==> ValidOrderInput(input) && FirstFailure(input.items, old(db.products)).None?
                       && FitsColumns(userId, input, old(db.products), now)
    ensures r.Ok? ==>
              var products := old(db.products);
              && AllKnown(input.items, products)
              && r.value.id == old(db.nextId)
              && r.value.order == NewOrder(userId, RawSubtotal(input.items, products), input.shippingAddress.value, now)
              && db.orders == old(db.orders)[r.value.id := r.value.order]
              && r.value.items == Attach(PricedLines(input.items, products), r.value.id)
              && db.orderItems == old(db.orderItems) + r.value.items
              && db.products == Decremented(products, input.items)
  {
    if !ValidOrderInput(input) {
      return Err(VALIDATION_FAILED);
    }
    var priced := PriceItems(db, input.items);
    if priced.Err? {
      return Err(priced.failure);
    }
    if !OrderFits(NewOrder(userId, priced.value.subtotal, input.shippingAddress.value, now)) {
      return Err(Failure(500, "Failed to create order"));
    }
    r := Commit(db, userId, input, priced.value, now);
  }

  /**
   * The corrected POST /: the same handler, except that each line is checked
   * against the total quantity the order requests of its product.
   */
  method CreateOrderReserved(db: Database, userId: Id, input: OrderInput, now: Time) returns (r: Result<OrderView>)
    requires db.Valid()
    requires userId in db.users
    modifies db`orders, db`orderItems, db`products, db`nextId
    ensures db.Valid()
    ensures !ValidOrderInput(input) ==> r == Err(VALIDATION_FAILED)
    ensures ValidOrderInput(input) && ReservationFailure(input.items, old(db.products)).Some? ==>
              r == Err(ReservationFailure(input.items, old(db.products)).value)
    ensures ValidOrderInput(input) && ReservationFailure(input.items, old(db.products)).None?
            && !FitsColumns(userId, input, old(db.products), now) ==>
              r == Err(Failure(500, "Failed to create order"))
    ensures r.Err? ==> unchanged(db`orders, db`orderItems, db`products, db`nextId)
    ensures r.Ok? <==> ValidOrderInput(input) && ReservationFailure(input.items, old(db.products)).None?
                       && FitsColumns(userId, input, old(db.products), now)
    ensures r.Ok? ==>
              var products := old(db.products);
              && AllKnown(input.items, products)
              && r.value.order == NewOrder(userId, RawSubtotal(input.items, products), input.shippingAddress.value, now)
              && db.products == Decremented(products, input.items)
    ensures forall k :: k in old(db.products) && old(db.products)[k].stock >= 0 ==> db.products[k].stock >= 0
  {
    if !ValidOrderInput(input) {
      return Err(VALIDATION_FAILED);
    }
    var reservation := ReservationFailure(input.items, db.products);
    if reservation.Some? {
      return Err(reservation.value);
    }
    ReservedImpliesLineChecks(input.items, db.products);
    ReservedNeverOversells(input.items, db.products);
    var priced := PriceItems(db, input.items);
    if !OrderFits(NewOrder(userId, priced.value.subtotal, input.shippingAddress.value, now)) {
      return Err(Failure(500, "Failed to create order"));
    }
    r := Commit(db, userId, input, priced.value, now);
  }

  /** The write half shared by both handlers, once every line has been priced. */
  method Commit(db: Database, userId: Id, input: OrderInput, priced: Priced, now: Time) returns (r: Result<OrderView>)
    requires db.Valid()
    requires userId in db.users
    requires input.shippingAddress.Some?
    requires AllKnown(input.items, db.products)
    requires priced == Priced(PricedLines(input.items, db.products), RawSubtotal(input.items, db.products))
    modifies db`orders, db`orderItems, db`products, db`nextId
    ensures db.Valid()
    ensures r.Ok?
    ensures var products := old(db.products);
            && r.value.id == old(db.nextId)
            && r.value.order == NewOrder(userId, RawSubtotal(input.items, products), input.shippingAddress.value, now)
            && db.orders == old(db.orders)[r.value.id := r.value.order]
            && r.value.items == Attach(PricedLines(input.items, products), r.value.id)
            && db.orderItems == old(db.orderItems) + r.value.items
            && db.products == Decremented(products, input.items)
  {
    var oldItems := db.orderItems;
    var orderId := PlaceOrder(db, userId, input.items, input.shippingAddress.value, priced, now);
    var attached := Attach(priced.lines, orderId);
    NewItemsOnly(oldItems, attached, orderId, db.orders.Keys - {orderId});
    r := Ok(OrderView(orderId, db.orders[orderId], ItemsOf(db.orderItems, orderId)));
  }

  /** Rows written before an order existed never belong to it, so its items are exactly the new rows. */
  lemma NewItemsOnly(oldItems: seq<OrderItem>, attached: seq<OrderItem>, orderId: Id, earlier: set<Id>)
    requires forall i :: 0 <= i < |oldItems| ==> oldItems[i].orderId in earlier
    requires orderId !in earlier
    requires forall i :: 0 <= i < |attached| ==> attached[i].orderId == orderId
    ensures ItemsOf(oldItems + attached, orderId) == attached
  {
    var p := (x: OrderItem) => x.orderId == orderId;
    Listing.FilterAppend(oldItems, attached, p);
    assert Listing.Filter(oldItems, p) == [];
    assert Listing.Filter(attached, p) == attached;
  }

  /** GET /:id: the order for its owner or an administrator. */
  method GetOrder(db: Database, orderId: Id, caller: JwtPayload) returns (r: Result<OrderView>)
    ensures orderId !in db.orders ==> r == Err(Failure(404, "Order not found"))
    ensures orderId in db.orders && db.orders[orderId].userId != caller.userId && caller.role != ADMIN ==>
              r == Err(Failure(403, "Access denied"))
    ensures r.Ok? <==> orderId in db.orders && (db.orders[orderId].userId == caller.userId || caller.role == ADMIN)
    ensures r.Ok? ==> r.value == OrderView(orderId, db.orders[orderId], ItemsOf(db.orderItems, orderId))
  {
    if orderId !in db.orders {
      return Err(Failure(404, "Order not found"));
    }
    var order := db.orders[orderId];
    if order.userId != caller.userId && caller.role != ADMIN {
      return Err(Failure(403, "Access denied"));
    }
    return Ok(OrderView(orderId, order, ItemsOf(db.orderItems, orderId)));
  }

  /** Sorting key for `orderBy: desc(createdAt)`: newer orders have smaller keys. */
  function NewestFirst(orders: map<Id, Order>): Id -> real
  {
    (id: Id) => if id in orders then -(orders[id].createdAt as real) else 0.0
  }

  /** Every order id, oldest id first. */
  function OrderIds(db: Database): seq<Id>
    reads db
  {
    IdsBelow(db.orders, db.nextId)
  }

  /** Sorting ids by `NewestFirst` keeps exactly the same ids, each as often, and puts newer orders first. */
  lemma NewestFirstSorted(chosen: seq<Id>, orders: map<Id, Order>)
    requires forall x :: x in chosen ==> x in orders
    ensures var r := Listing.SortBy(chosen, NewestFirst(orders));
            && (forall x :: x in r <==> x in chosen)
            && (Listing.Distinct(chosen) ==> Listing.Distinct(r))
            && (forall i, j :: 0 <= i < j < |r| ==>
                  r[i] in orders && r[j] in orders && orders[r[i]].createdAt >= orders[r[j]].createdAt)
  {
    var key := NewestFirst(orders);
    var r := Listing.SortBy(chosen, key);
    Listing.SortBySorted(chosen, key);
    if Listing.Distinct(chosen) {
      Listing.SortByDistinct(chosen, key);
    }
    forall x
      ensures x in r <==> x in chosen
    {
      assert x in r <==> x in multiset(r);
      assert x in chosen <==> x in multiset(chosen);
    }
    forall i, j | 0 <= i < j < |r|
      ensures r[i] in orders && r[j] in orders && orders[r[i]].createdAt >= orders[r[j]].createdAt
    {
      assert r[i] in chosen && r[j] in chosen;
      assert key(r[i]) <= key(r[j]);
    }
  }

  /** GET /: the caller's orders, each once, newest first. */
  method ListUserOrders(db: Database, userId: Id) returns (r: seq<Id>)
    requires db.Valid()
    ensures forall id :: id in r <==> id in db.orders && db.orders[id].userId == userId
    ensures Listing.Distinct(r)
    ensures forall i, j :: 0 <= i < j < |r| ==>
              r[i] in db.orders && r[j] in db.orders && db.orders[r[i]].createdAt >= db.orders[r[j]].createdAt
  {
    assert db.IdsFresh();
    var orders := db.orders;
    var mine := Listing.Filter(OrderIds(db), (id: Id) => id in orders && orders[id].userId == userId);
    assert Listing.Distinct(OrderIds(db));
    Listing.FilterDistinct(OrderIds(db), (id: Id) => id in orders && orders[id].userId == userId);
    NewestFirstSorted(mine, orders);
    r := Listing.SortBy(mine, NewestFirst(orders));
  }

  /** The `status` query parameter: absent or empty means no filter; otherwise it must name a status. */
  function StatusQuery(status: Option<string>): (r: Option<Option<OrderStatus>>)
    ensures r.None? <==> status.Some? && status.value != "" && status.value !in STATUS_NAMES
    ensures r == Some(None) <==> status.None? || status.value == ""
    ensures r.Some? && r.value.Some? ==> StatusName(r.value.value) == status.value
  {
    if status.None? || status.value == "" then Some(None)
    else
      var parsed := ParseStatus(status.value);
      if parsed.None? then None else Some(parsed)
  }

  /** The rows the status filter keeps. */
  function StatusFilter(orders: map<Id, Order>, wanted: Option<OrderStatus>): Id -> bool
  {
    (id: Id) => id in orders && (wanted.None? || orders[id].status == wanted.value)
  }

  /** The window of the administrator's listing when the query is accepted. */
  function AdminWindow(orders: map<Id, Order>, ids: seq<Id>, wanted: Option<OrderStatus>, offset: nat, limit: nat): seq<Id>
  {
    Listing.Page(Listing.SortBy(Listing.Filter(ids, StatusFilter(orders, wanted)), NewestFirst(orders)), offset, limit)
  }

  /** The window holds at most `limit` orders, each with the wanted status and (for distinct ids) once, newest first. */
  lemma AdminWindowSound(orders: map<Id, Order>, ids: seq<Id>, wanted: Option<OrderStatus>, offset: nat, limit: nat)
    ensures var page := AdminWindow(orders, ids, wanted, offset, limit);
            && |page| <= limit
            && (Listing.Distinct(ids) ==> Listing.Distinct(page))
            && (forall i :: 0 <= i < |page| ==>
                  page[i] in orders && (wanted.None? || orders[page[i]].status == wanted.value))
            && (forall i, j :: 0 <= i < j < |page| ==>
                  page[i] in orders && page[j] in orders && orders[page[i]].createdAt >= orders[page[j]].createdAt)
  {
    var p := StatusFilter(orders, wanted);
    var chosen := Listing.Filter(ids, p);
    NewestFirstSorted(chosen, orders);
    var sorted := Listing.SortBy(chosen, NewestFirst(orders));
    var page := Listing.Page(sorted, offset, limit);
    if Listing.Distinct(ids) {
      Listing.FilterDistinct(ids, p);
      Listing.PageDistinct(sorted, offset, limit);
    }
    forall i | 0 <= i < |page|
      ensures page[i] in orders && (wanted.None? || orders[page[i]].status == wanted.value)
    {
      assert page[i] == sorted[offset + i];
      assert p(page[i]);
    }
    forall i, j | 0 <= i < j < |page|
      ensures page[i] in orders && page[j] in orders && orders[page[i]].createdAt >= orders[page[j]].createdAt
    {
      assert page[i] == sorted[offset + i] && page[j] == sorted[offset + j];
    }
  }

  /**
   * GET /admin/all: an optional status filter, newest first, `limit`
   * defaulting to 50 and `offset` to 0. A status that is not an enum value, or
   * a negative limit or offset, is refused by the store.
   */
  method AdminListOrders(db: Database, status: Option<string>, limit: Option<int>, offset: Option<int>)
    returns (r: Result<seq<Id>>)
    ensures StatusQuery(status).None? || limit.GetOr(50) < 0 || offset.GetOr(0) < 0 ==>
              r == Err(Failure(500, "Failed to fetch orders"))
    ensures r.Ok? <==> StatusQuery(status).Some? && limit.GetOr(50) >= 0 && offset.GetOr(0) >= 0
    ensures r.Ok? ==> r.value == AdminWindow(db.orders, OrderIds(db), StatusQuery(status).value, offset.GetOr(0), limit.GetOr(50))
  {
    var wanted := StatusQuery(status);
    if wanted.None? {
      return Err(Failure(500, "Failed to fetch orders"));
    }
    var n := limit.GetOr(50);
    var k := offset.GetOr(0);
    if n < 0 || k < 0 {
      return Err(Failure(500, "Failed to fetch orders"));
    }
    return Ok(AdminWindow(db.orders, OrderIds(db), wanted.value, k, n));
  }

  /** PATCH /:id/status: the body must name a status; any status may follow any other. */
  method UpdateStatus(db: Database, orderId: Id, status: string, now: Time) returns (r: Result<Order>)
    requires db.Valid()
    modifies db`orders
    ensures db.Valid()
    ensures ParseStatus(status).None? ==> r == Err(VALIDATION_FAILED)
    ensures ParseStatus(status).Some? && orderId !in old(db.orders) ==> r == Err(Failure(404, "Order not found"))
    ensures r.Err? ==> db.orders == old(db.orders)
    ensures r.Ok? <==> ParseStatus(status).Some? && orderId in old(db.orders)
    ensures r.Ok? ==> r.value == old(db.orders)[orderId].(status := ParseStatus(status).value, updatedAt := now)
                      && StatusName(r.value.status) == status
                      && db.orders == old(db.orders)[orderId := r.value]
  {
    var parsed := ParseStatus(status);
    if parsed.None? {
      return Err(VALIDATION_FAILED);
    }
    if orderId !in db.orders {
      return Err(Failure(404, "Order not found"));
    }
    var updated := db.orders[orderId].(status := parsed.value, updatedAt := now);
    db.UpdateOrder(orderId, updated);
    return Ok(updated);
  }
}
