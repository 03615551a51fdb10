/**
 * The storefront's guest cart (`CartContext`): a list of lines held in the
 * page state, replaced by addItem, removeItem, updateQuantity and clearCart,
 * and the figures derived from it (item count, subtotal, tax, total,
 * isInCart).
 *
 * Product ids are the backend's ids; prices and discounts arrive as decimal
 * text and are read with `parse`, which stands for `parseFloat`.
 */
module CartContext {
  import opened Wrappers
  import opened Schema
  import Pricing
  import Listing

  /** A product as the storefront receives it from the API. */
  datatype ShopProduct = ShopProduct(
    id: Id,
    name: string,
    slug: string,
    price: string,
    discountPercent: Option<string>,
    stock: int,
    featured: Option<bool>)

  datatype CartLine = CartLine(product: ShopProduct, quantity: int)

  /** The quantity addItem uses when the caller gives none. */
  const DEFAULT_QUANTITY := 1

  /** `items.some(item => item.product.id === productId)`. */
  function IsInCart(items: seq<CartLine>, productId: Id): (r: bool)
    ensures r <==> exists i :: 0 <= i < |items| && items[i].product.id == productId
  {
    if items == [] then false
    else items[0].product.id == productId || IsInCart(items[1..], productId)
  }

  /** No two lines are for the same product. */
  ghost predicate DistinctIds(items: seq<CartLine>)
  {
    forall i, j :: 0 <= i < j < |items| ==> items[i].product.id != items[j].product.id
  }

  /**
   * The map in addItem: the lines for `productId` get `quantity` more, every
   * other line is kept, and the order is unchanged.
   */
  function Bumped(items: seq<CartLine>, productId: Id, quantity: int): (r: seq<CartLine>)
    ensures |r| == |items|
    ensures forall i :: 0 <= i < |items| ==> r[i].product == items[i].product
    ensures forall i :: 0 <= i < |items| ==>
              r[i].quantity == items[i].quantity + (if items[i].product.id == productId then quantity else 0)
  {
    if items == [] then []
    else
      var last := items[|items| - 1];
      Bumped(items[..|items| - 1], productId, quantity)
        + [if last.product.id == productId then last.(quantity := last.quantity + quantity) else last]
  }

  /** The guest branch of addItem: a product already present gets its quantity raised, any other is appended. */
  function AddTo(items: seq<CartLine>, product: ShopProduct, quantity: int): seq<CartLine>
  {
    if IsInCart(items, product.id) then Bumped(items, product.id, quantity)
    else items + [CartLine(product, quantity)]
  }

  /** removeItem: the lines for other products, in order. */
  function RemoveFrom(items: seq<CartLine>, productId: Id): seq<CartLine>
  {
    Listing.Filter(items, (l: CartLine) => l.product.id != productId)
  }

  /**
   * The guest branch of updateQuantity for a positive quantity: the lines for
   * `productId` take the new quantity, every other line is kept, in order.
   */
  function UpdateIn(items: seq<CartLine>, productId: Id, quantity: int): (r: seq<CartLine>)
    ensures |r| == |items|
    ensures forall i :: 0 <= i < |items| ==> r[i].product == items[i].product
    ensures forall i :: 0 <= i < |items| ==>
              r[i].quantity == if items[i].product.id == productId then quantity else items[i].quantity
  {
    if items == [] then []
    else
      var last := items[|items| - 1];
      UpdateIn(items[..|items| - 1], productId, quantity)
        + [if last.product.id == productId then last.(quantity := quantity) else last]
  }

  /** itemCount: the sum of the quantities. */
  function ItemCount(items: seq<CartLine>): int
  {
    if items == [] then 0 else ItemCount(items[..|items| - 1]) + items[|items| - 1].quantity
  }

  /** The total quantity on the lines for one product. */
  function QuantityOf(items: seq<CartLine>, productId: Id): int
  {
    if items == [] then 0
    else
      var last := items[|items| - 1];
      QuantityOf(items[..|items| - 1], productId) + (if last.product.id == productId then last.quantity else 0)
  }

  /** The price of one line: the discounted unit price times the quantity. */
  function LineAmount(line: CartLine, parse: string -> real): real
  {
    Pricing.ClientDiscountedPrice(line.product.price, line.product.discountPercent, parse) * line.quantity as real
  }

  /** subtotal: the sum of the line amounts. */
  function Subtotal(items: seq<CartLine>, parse: string -> real): real
  {
    if items == [] then 0.0 else Subtotal(items[..|items| - 1], parse) + LineAmount(items[|items| - 1], parse)
  }

  /** tax: 8% of the subtotal, unrounded; never negative nor above the subtotal when the subtotal is not negative. */
  function Tax(items: seq<CartLine>, parse: string -> real): (r: real)
    ensures r == Subtotal(items, parse) * Pricing.TAX_RATE
    ensures Subtotal(items, parse) >= 0.0 ==> 0.0 <= r <= Subtotal(items, parse)
  {
    Pricing.Tax(Subtotal(items, parse))
  }

  /** total: the subtotal plus the tax. */
  function Total(items: seq<CartLine>, parse: string -> real): (r: real)
    ensures r == Subtotal(items, parse) * 1.08
  {
    Subtotal(items, parse) + Tax(items, parse)
  }

  /** The subtotal of two runs of lines is the sum of their subtotals. */
  lemma {:induction false} SubtotalAppend(a: seq<CartLine>, b: seq<CartLine>, parse: string -> real)
    ensures Subtotal(a + b, parse) == Subtotal(a, parse) + Subtotal(b, parse)
    decreases |b|
  {
    if b == [] {
      assert a + b == a;
    } else {
      var init := b[..|b| - 1];
      assert (a + b)[..|a + b| - 1] == a + init;
      assert (a + b)[|a + b| - 1] == b[|b| - 1];
      SubtotalAppend(a, init, parse);
    }
  }

  /**
   * Since the tax is not rounded, the tax of a cart is the sum of the taxes of
   * any split of its lines, and the total is the sum of their totals.
   */
  lemma TaxAdditive(a: seq<CartLine>, b: seq<CartLine>, parse: string -> real)
    ensures Tax(a + b, parse) == Tax(a, parse) + Tax(b, parse)
    ensures Total(a + b, parse) == Total(a, parse) + Total(b, parse)
  {
    SubtotalAppend(a, b, parse);
  }

  /** A product absent from the cart has a quantity of 0 in it. */
  lemma {:induction false} QuantityOfAbsent(items: seq<CartLine>, productId: Id)
    requires !IsInCart(items, productId)
    ensures QuantityOf(items, productId) == 0
  {
    if items != [] {
      var init := items[..|items| - 1];
      forall i | 0 <= i < |init|
        ensures init[i].product.id != productId
      {
        assert init[i] == items[i];
      }
      QuantityOfAbsent(init, productId);
    }
  }

  /** The number of lines for a product. */
  function Occurrences(items: seq<CartLine>, productId: Id): nat
  {
    if items == [] then 0
    else Occurrences(items[..|items| - 1], productId) + (if items[|items| - 1].product.id == productId then 1 else 0)
  }

  /** Raising every line for a product by `q` raises the item count by `q` per such line. */
  lemma {:induction false} ItemCountBump(items: seq<CartLine>, productId: Id, q: int)
    ensures ItemCount(Bumped(items, productId, q)) == ItemCount(items) + q * Occurrences(items, productId)
  {
    if items != [] {
      var init := items[..|items| - 1];
      var last := items[|items| - 1];
      var r := Bumped(items, productId, q);
      var n := Occurrences(init, productId);
      assert r[..|r| - 1] == Bumped(init, productId, q);
      ItemCountBump(init, productId, q);
      assert ItemCount(r) == ItemCount(init) + q * n + r[|r| - 1].quantity;
      if last.product.id == productId {
        MulSucc(q, n);
      }
    }
  }

  /** One more line of `q` adds `q` to `n` lines of `q`: the step of the bump lemmas. */
  lemma MulSucc(q: int, n: nat)
    ensures q * (n + 1) == q * n + q
  {
  }

  /** Raising every line for a product by `q` raises that product's quantity by `q` per such line, and no other. */
  lemma {:induction false} QuantityOfBump(items: seq<CartLine>, productId: Id, q: int, k: Id)
    ensures QuantityOf(Bumped(items, productId, q), k)
            == QuantityOf(items, k) + (if k == productId then q * Occurrences(items, productId) else 0)
  {
    if items != [] {
      var init := items[..|items| - 1];
      var last := items[|items| - 1];
      var r := Bumped(items, productId, q);
      assert r[..|r| - 1] == Bumped(init, productId, q);
      QuantityOfBump(init, productId, q, k);
      if last.product.id == productId && k == productId {
        MulSucc(q, Occurrences(init, productId));
      }
    }
  }

  /** When ids are distinct, a product occurs once if it is in the cart and not at all otherwise. */
  lemma {:induction false} OccurrencesDistinct(items: seq<CartLine>, productId: Id)
    requires DistinctIds(items)
    ensures Occurrences(items, productId) == if IsInCart(items, productId) then 1 else 0
  {
    if items != [] {
      var init := items[..|items| - 1];
      var last := items[|items| - 1];
      assert DistinctIds(init);
      OccurrencesDistinct(init, productId);
      if last.product.id == productId {
        forall i | 0 <= i < |init|
          ensures init[i].product.id != productId
        {
          assert init[i] == items[i];
        }
      } else if IsInCart(items, productId) {
        var i :| 0 <= i < |items| && items[i].product.id == productId;
        assert init[i] == items[i];
      }
    }
  }

  /** addItem keeps the product ids distinct. */
  lemma AddToKeepsDistinct(items: seq<CartLine>, product: ShopProduct, quantity: int)
    requires DistinctIds(items)
    ensures DistinctIds(AddTo(items, product, quantity))
  {
    var r := AddTo(items, product, quantity);
    if !IsInCart(items, product.id) {
      forall i, j | 0 <= i < j < |r|
        ensures r[i].product.id != r[j].product.id
      {
        if j == |items| {
          assert r[i] == items[i];
        }
      }
    }
  }

  /** addItem on a cart with distinct ids raises the item count by exactly the quantity added. */
  lemma AddToItemCount(items: seq<CartLine>, product: ShopProduct, quantity: int)
    requires DistinctIds(items)
    ensures ItemCount(AddTo(items, product, quantity)) == ItemCount(items) + quantity
  {
    if IsInCart(items, product.id) {
      ItemCountBump(items, product.id, quantity);
      OccurrencesDistinct(items, product.id);
    } else {
      var r := items + [CartLine(product, quantity)];
      assert r[..|r| - 1] == items;
    }
  }

  /** addItem on a cart with distinct ids adds the quantity to that product, whether its line existed or is new, and to no other. */
  lemma AddToQuantities(items: seq<CartLine>, product: ShopProduct, quantity: int, k: Id)
    requires DistinctIds(items)
    ensures QuantityOf(AddTo(items, product, quantity), k) == QuantityOf(items, k) + (if k == product.id then quantity else 0)
  {
    if IsInCart(items, product.id) {
      QuantityOfBump(items, product.id, quantity, k);
      OccurrencesDistinct(items, product.id);
    } else {
      var r := items + [CartLine(product, quantity)];
      assert r[..|r| - 1] == items;
    }
  }

  /** addItem of a product that was not in the cart followed by removeItem of it gives back the cart. */
  lemma AddThenRemove(items: seq<CartLine>, product: ShopProduct, quantity: int)
    requires !IsInCart(items, product.id)
    ensures RemoveFrom(AddTo(items, product, quantity), product.id) == items
  {
    var p := (l: CartLine) => l.product.id != product.id;
    Listing.FilterAppend(items, [CartLine(product, quantity)], p);
    assert Listing.Filter([CartLine(product, quantity)], p) == [];
    assert forall x :: x in items ==> p(x);
  }

  /** removeItem leaves no line for the product and lowers the item count by that product's quantity. */
  lemma {:induction false} RemoveFromItemCount(items: seq<CartLine>, productId: Id)
    ensures !IsInCart(RemoveFrom(items, productId), productId)
    ensures ItemCount(RemoveFrom(items, productId)) == ItemCount(items) - QuantityOf(items, productId)
  {
    var p := (l: CartLine) => l.product.id != productId;
    var r := RemoveFrom(items, productId);
    forall i | 0 <= i < |r|
      ensures r[i].product.id != productId
    {
      assert r[i] in r;
    }
    if items != [] {
      var init := items[..|items| - 1];
      var last := items[|items| - 1];
      RemoveFromItemCount(init, productId);
      var ri := RemoveFrom(init, productId);
      if p(last) {
        assert r == ri + [last];
        assert (ri + [last])[..|ri + [last]| - 1] == ri;
      } else {
        assert r == ri;
      }
    }
  }

  /** removeItem takes away exactly the product's quantity and leaves every other product's quantity alone. */
  lemma {:induction false} RemoveFromQuantities(items: seq<CartLine>, productId: Id, k: Id)
    ensures QuantityOf(RemoveFrom(items, productId), k) == if k == productId then 0 else QuantityOf(items, k)
  {
    if items != [] {
      var init := items[..|items| - 1];
      var last := items[|items| - 1];
      RemoveFromQuantities(init, productId, k);
      var ri := RemoveFrom(init, productId);
      if last.product.id != productId {
        var r := ri + [last];
        assert RemoveFrom(items, productId) == r;
        assert r[..|r| - 1] == ri;
      } else {
        assert RemoveFrom(items, productId) == ri;
      }
    }
  }

  /** removeItem keeps the product ids distinct. */
  lemma {:induction false} RemoveFromKeepsDistinct(items: seq<CartLine>, productId: Id)
    requires DistinctIds(items)
    ensures DistinctIds(RemoveFrom(items, productId))
  {
    if items != [] {
      var init := items[..|items| - 1];
      var last := items[|items| - 1];
      assert DistinctIds(init);
      RemoveFromKeepsDistinct(init, productId);
      var ri := RemoveFrom(init, productId);
      if last.product.id != productId {
        var r := ri + [last];
        assert RemoveFrom(items, productId) == r;
        forall i, j | 0 <= i < j < |r|
          ensures r[i].product.id != r[j].product.id
        {
          if j == |ri| {
            assert r[i] == ri[i] && ri[i] in ri;
            assert ri[i] in init;
            var k :| 0 <= k < |init| && init[k] == ri[i];
            assert items[k] == init[k];
          }
        }
      }
    }
  }

  /** updateQuantity for a product not in the cart leaves the cart unchanged. */
  lemma UpdateAbsentUnchanged(items: seq<CartLine>, productId: Id, quantity: int)
    requires !IsInCart(items, productId)
    ensures UpdateIn(items, productId, quantity) == items
  {
    var r := UpdateIn(items, productId, quantity);
    forall i | 0 <= i < |items|
      ensures r[i] == items[i]
    {
      assert items[i].product.id != productId;
    }
  }

  /** updateQuantity keeps the product ids distinct and, with distinct ids, sets that product's quantity. */
  lemma UpdateInQuantity(items: seq<CartLine>, productId: Id, quantity: int)
    requires DistinctIds(items) && IsInCart(items, productId)
    ensures DistinctIds(UpdateIn(items, productId, quantity))
    ensures QuantityOf(UpdateIn(items, productId, quantity), productId) == quantity
  {
    var r := UpdateIn(items, productId, quantity);
    assert forall i :: 0 <= i < |items| ==> r[i].product.id == items[i].product.id;
    var i :| 0 <= i < |items| && items[i].product.id == productId;
    QuantityOfSingle(r, productId, i);
  }

  /** With distinct ids, the quantity of a product is the quantity on its one line. */
  lemma {:induction false} QuantityOfSingle(items: seq<CartLine>, productId: Id, i: nat)
    requires DistinctIds(items) && i < |items| && items[i].product.id == productId
    ensures QuantityOf(items, productId) == items[i].quantity
  {
    var init := items[..|items| - 1];
    assert DistinctIds(init);
    if i == |items| - 1 {
      forall k | 0 <= k < |init|
        ensures init[k].product.id != productId
      {
        assert init[k] == items[k];
      }
      QuantityOfAbsent(init, productId);
    } else {
      assert init[i] == items[i];
      QuantityOfSingle(init, productId, i);
    }
  }

  /** The guest cart held in the page state. */
  class GuestCart {
    var items: seq<CartLine>

    ghost predicate Valid()
      reads this
    {
      DistinctIds(items)
    }

    constructor ()
      ensures Valid() && items == []
    {
      items := [];
    }

    /** addItem; `quantity` None means the argument was left out. */
    method AddItem(product: ShopProduct, quantity: Option<int>)
      requires Valid()
      modifies this
      ensures Valid()
      ensures items == AddTo(old(items), product, quantity.GetOr(DEFAULT_QUANTITY))
    {
      AddToKeepsDistinct(items, product, quantity.GetOr(DEFAULT_QUANTITY));
      items := AddTo(items, product, quantity.GetOr(DEFAULT_QUANTITY));
    }

    method RemoveItem(productId: Id)
      requires Valid()
      modifies this
      ensures Valid()
      ensures items == RemoveFrom(old(items), productId)
    {
      RemoveFromKeepsDistinct(items, productId);
      items := RemoveFrom(items, productId);
    }

    /** updateQuantity: a quantity of 0 or less removes the product, any other replaces its quantity. */
    method UpdateQuantity(productId: Id, quantity: int)
      requires Valid()
      modifies this
      ensures Valid()
      ensures quantity <= 0 ==> items == RemoveFrom(old(items), productId)
      ensures quantity > 0 ==> items == UpdateIn(old(items), productId, quantity)
    {
      if quantity <= 0 {
        RemoveItem(productId);
        return;
      }
      if IsInCart(items, productId) {
        UpdateInQuantity(items, productId, quantity);
      } else {
        UpdateAbsentUnchanged(items, productId, quantity);
      }
      items := UpdateIn(items, productId, quantity);
    }

    method ClearCart()
      modifies this
      ensures Valid() && items == []
    {
      items := [];
    }
  }
}
