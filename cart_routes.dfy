/**
 * The server cart: one cart per user, created on first use, with one line per
 * product. The handlers change the carts and cart_items tables in place; what
 * each does to a cart's lines is given by the functions `AddLine`, `SetLine`
 * and `RemoveLine`, about which the lemmas below state the cart's promises.
 */
module CartRoutes {
  import opened Wrappers
  import opened Schema

  type Lines = map<Id, int>

  /** POST /cart on one cart: an existing line accumulates, a new product gets a line of its own. */
  function AddLine(lines: Lines, productId: Id, quantity: int): (r: Lines)
    ensures r.Keys == lines.Keys + {productId}
  {
    if productId in lines then lines[productId := lines[productId] + quantity]
    else lines[productId := quantity]
  }

  /** PUT /cart/:itemId on one cart: a quantity of 0 or less deletes the line, a positive one replaces it if it exists. */
  function SetLine(lines: Lines, productId: Id, quantity: int): (r: Lines)
    ensures r.Keys <= lines.Keys
  {
    if quantity <= 0 then lines - {productId}
    else if productId in lines then lines[productId := quantity]
    else lines
  }

  /** DELETE /cart/:itemId on one cart. */
  function RemoveLine(lines: Lines, productId: Id): (r: Lines)
    ensures productId !in r
  {
    lines - {productId}
  }

  /** Adding a product already in the cart sets its quantity to old + requested and leaves the other lines alone. */
  lemma AddAccumulates(lines: Lines, productId: Id, quantity: int)
    requires productId in lines
    ensures AddLine(lines, productId, quantity)[productId] == lines[productId] + quantity
    ensures forall k :: k in lines && k != productId ==> AddLine(lines, productId, quantity)[k] == lines[k]
  {
  }

  /** Adding a new product adds exactly one line with the requested quantity. */
  lemma AddNewLine(lines: Lines, productId: Id, quantity: int)
    requires productId !in lines
    ensures AddLine(lines, productId, quantity) == lines[productId := quantity]
    ensures |AddLine(lines, productId, quantity)| == |lines| + 1
  {
  }

  /** Adding a product that was not in the cart and then deleting it restores the previous lines. */
  lemma AddThenRemoveRestores(lines: Lines, productId: Id, quantity: int)
    requires productId !in lines
    ensures RemoveLine(AddLine(lines, productId, quantity), productId) == lines
  {
  }

  /** Setting a quantity of 0 or less is the same as deleting the line: no line keeps a non-positive quantity this way. */
  lemma SetNonPositiveRemoves(lines: Lines, productId: Id, quantity: int)
    requires quantity <= 0
    ensures SetLine(lines, productId, quantity) == RemoveLine(lines, productId)
  {
  }

  /** A positive quantity replaces only the matching line; for a product not in the cart nothing changes. */
  lemma SetPositive(lines: Lines, productId: Id, quantity: int)
    requires quantity > 0
    ensures productId in lines ==> SetLine(lines, productId, quantity) == lines[productId := quantity]
    ensures productId !in lines ==> SetLine(lines, productId, quantity) == lines
  {
  }

  /** Adding 2 then setting 5 leaves a line of 5, whatever the cart held before. */
  lemma AddTwoThenSetFive(lines: Lines, productId: Id)
    ensures SetLine(AddLine(lines, productId, 2), productId, 5)[productId] == 5
  {
  }

  /** The cart of `userId`, created empty when the user has none. */
  method FindOrCreateCart(db: Database, userId: Id) returns (cartId: Id)
    requires db.Valid()
    requires userId in db.users
    modifies db`carts, db`cartItems, db`nextId
    ensures db.Valid()
    ensures userId in old(db.carts) ==>
      cartId == old(db.carts)[userId] && db.carts == old(db.carts) && db.cartItems == old(db.cartItems) && db.nextId == old(db.nextId)
    ensures userId !in old(db.carts) ==>
      && cartId == old(db.nextId) && cartId !in old(db.cartItems)
      && db.carts == old(db.carts)[userId := cartId]
      && db.cartItems == old(db.cartItems)[cartId := map[]]
      && db.nextId == old(db.nextId) + 1
    ensures userId in db.carts && db.carts[userId] == cartId && cartId in db.cartItems
  {
    if userId in db.carts {
      cartId := db.carts[userId];
      return;
    }
    cartId := CreateCart(db, userId);
  }

  /** The insert of a new, empty cart for a user who has none. */
  method CreateCart(db: Database, userId: Id) returns (cartId: Id)
    requires db.Valid() && userId !in db.carts
    requires userId in db.users
    modifies db`carts, db`cartItems, db`nextId
    ensures db.Valid()
    ensures cartId == old(db.nextId) && cartId !in old(db.cartItems)
    ensures db.carts == old(db.carts)[userId := cartId]
    ensures db.cartItems == old(db.cartItems)[cartId := map[]]
    ensures db.nextId == old(db.nextId) + 1
  {
    cartId := db.FreshId();
    ShapeAfterCreate(db.carts, db.cartItems, userId, cartId);
    db.carts := db.carts[userId := cartId];
    db.cartItems := db.cartItems[cartId := map[]];
    assert db.IdsFresh();
    assert db.Unique();
    assert db.ForeignKeys();
  }

  /** A new empty cart for a user without one keeps one cart per user and no cart without a user. */
  lemma ShapeAfterCreate(carts: map<Id, Id>, cartItems: map<Id, Lines>, userId: Id, cartId: Id)
    requires CartShape(carts, cartItems) && userId !in carts && cartId !in cartItems
    ensures CartShape(carts[userId := cartId], cartItems[cartId := map[]])
  {
    var carts', cartItems' := carts[userId := cartId], cartItems[cartId := map[]];
    forall c | c in cartItems'
      ensures exists u :: u in carts' && carts'[u] == c
    {
      if c == cartId {
        assert carts'[userId] == c;
      } else {
        var u :| u in carts && carts[u] == c;
        assert carts'[u] == c;
      }
    }
  }

  /** Rewriting the lines of an existing cart keeps the shape of the carts. */
  lemma ShapeAfterWrite(carts: map<Id, Id>, cartItems: map<Id, Lines>, cartId: Id, lines: Lines)
    requires CartShape(carts, cartItems) && cartId in cartItems
    ensures CartShape(carts, cartItems[cartId := lines])
  {
    var cartItems' := cartItems[cartId := lines];
    forall c | c in cartItems'
      ensures exists u :: u in carts && carts[u] == c
    {
      assert c in cartItems;
    }
  }

  /** GET /cart: the user's lines; a user without a cart gets exactly one new, empty cart, and a second GET creates none. */
  method GetCart(db: Database, userId: Id) returns (cartId: Id, lines: Lines)
    requires db.Valid()
    requires userId in db.users
    modifies db`carts, db`cartItems, db`nextId
    ensures db.Valid()
    ensures userId in old(db.carts) ==>
      && db.carts == old(db.carts) && db.cartItems == old(db.cartItems)
      && lines == old(db.cartItems)[old(db.carts)[userId]]
    ensures userId !in old(db.carts) ==>
      && db.carts == old(db.carts)[userId := cartId] && cartId !in old(db.cartItems)
      && db.cartItems == old(db.cartItems)[cartId := map[]] && lines == map[]
  {
    cartId := FindOrCreateCart(db, userId);
    lines := db.cartItems[cartId];
  }

  /** The write of POST /cart succeeds: the product exists and the new quantity fits the integer column. */
  predicate AddAccepted(lines: Lines, products: set<Id>, productId: Id, quantity: int)
  {
    productId in products && FitsInteger(AddLine(lines, productId, quantity)[productId])
  }

  /**
   * POST /cart: finds or creates the cart, then adds `quantity` (1 when omitted)
   * of the product. A product that does not exist trips the foreign key, and a
   * quantity beyond the integer column is refused: 500, with the cart created
   * but no line added or changed.
   */
  method AddItem(db: Database, userId: Id, productId: Id, quantity: Option<int>) returns (r: Result<Lines>)
    requires db.Valid()
    requires userId in db.users
    modifies db`carts, db`cartItems, db`nextId
    ensures db.Valid()
    ensures userId in db.carts && db.carts[userId] in db.cartItems
    ensures db.carts == (if userId in old(db.carts) then old(db.carts) else old(db.carts)[userId := old(db.nextId)])
    ensures
      var c := db.carts[userId];
      var before := if userId in old(db.carts) then old(db.cartItems)[c] else map[];
      var created := if userId in old(db.carts) then old(db.cartItems) else old(db.cartItems)[c := map[]];
      var q := quantity.GetOr(DEFAULT_CART_QUANTITY);
      && (AddAccepted(before, db.products.Keys, productId, q) ==>
            var after := AddLine(before, productId, q);
            db.cartItems == created[c := after] && r == Ok(after))
      && (!AddAccepted(before, db.products.Keys, productId, q) ==>
            db.cartItems == created && r == Err(Failure(500, "Internal Server Error")))
  {
    var c := FindOrCreateCart(db, userId);
    r := AddToCart(db, c, productId, quantity.GetOr(DEFAULT_CART_QUANTITY));
  }

  /** The insert of POST /cart into an existing cart, checked against the products table. */
  method AddToCart(db: Database, c: Id, productId: Id, q: int) returns (r: Result<Lines>)
    requires db.Valid() && c in db.cartItems
    modifies db`cartItems
    ensures db.Valid()
    ensures AddAccepted(old(db.cartItems)[c], db.products.Keys, productId, q) ==>
      var after := AddLine(old(db.cartItems)[c], productId, q);
      db.cartItems == old(db.cartItems)[c := after] && r == Ok(after)
    ensures !AddAccepted(old(db.cartItems)[c], db.products.Keys, productId, q) ==>
      db.cartItems == old(db.cartItems) && r == Err(Failure(500, "Internal Server Error"))
  {
    if !AddAccepted(db.cartItems[c], db.products.Keys, productId, q) {
      return Err(Failure(500, "Internal Server Error"));
    }
    var after := AddLine(db.cartItems[c], productId, q);
    ShapeAfterWrite(db.carts, db.cartItems, c, after);
    db.cartItems := db.cartItems[c := after];
    assert db.IdsFresh() && db.Unique() && db.ForeignKeys();
    r := Ok(after);
  }

  /**
   * PUT /cart/:itemId: 404 without a cart, and 500 for a positive quantity
   * beyond the integer column; otherwise only that product's line changes, as
   * `SetLine` says.
   */
  method SetQuantity(db: Database, userId: Id, productId: Id, quantity: int) returns (r: Result<bool>)
    requires db.Valid()
    modifies db`cartItems
    ensures db.Valid()
    ensures userId !in db.carts ==> r == Err(Failure(404, "Cart not found")) && db.cartItems == old(db.cartItems)
    ensures userId in db.carts && quantity > INT_MAX ==>
      r == Err(Failure(500, "Internal Server Error")) && db.cartItems == old(db.cartItems)
    ensures userId in db.carts && quantity <= INT_MAX ==>
      var c := db.carts[userId];
      r == Ok(true) && db.cartItems == old(db.cartItems)[c := SetLine(old(db.cartItems)[c], productId, quantity)]
  {
    if userId !in db.carts {
      return Err(Failure(404, "Cart not found"));
    }
    if quantity > INT_MAX {
      return Err(Failure(500, "Internal Server Error"));
    }
    var c := db.carts[userId];
    db.cartItems := db.cartItems[c := SetLine(db.cartItems[c], productId, quantity)];
    r := Ok(true);
  }

  /** DELETE /cart/:itemId: 404 without a cart; otherwise that product's line is gone. */
  method RemoveItem(db: Database, userId: Id, productId: Id) returns (r: Result<bool>)
    requires db.Valid()
    modifies db`cartItems
    ensures db.Valid()
    ensures userId !in db.carts ==> r == Err(Failure(404, "Cart not found")) && db.cartItems == old(db.cartItems)
    ensures userId in db.carts ==>
      var c := db.carts[userId];
      r == Ok(true) && db.cartItems == old(db.cartItems)[c := RemoveLine(old(db.cartItems)[c], productId)]
  {
    if userId !in db.carts {
      return Err(Failure(404, "Cart not found"));
    }
    var c := db.carts[userId];
    db.cartItems := db.cartItems[c := RemoveLine(db.cartItems[c], productId)];
    r := Ok(true);
  }

  /** DELETE /cart: the user's cart ends with no lines; succeeds (changing nothing) when there is no cart. */
  method ClearCart(db: Database, userId: Id) returns (r: Result<bool>)
    requires db.Valid()
    modifies db`cartItems
    ensures db.Valid()
    ensures r == Ok(true)
    ensures userId !in db.carts ==> db.cartItems == old(db.cartItems)
    ensures userId in db.carts ==> db.cartItems == old(db.cartItems)[db.carts[userId] := map[]]
  {
    if userId in db.carts {
      db.cartItems := db.cartItems[db.carts[userId] := map[]];
    }
    r := Ok(true);
  }
}
