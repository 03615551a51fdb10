/**
 * The relational schema of the store: the two enums, the row types of every
 * table the core touches, the column defaults, and the database itself as a
 * class whose fields are the tables. Uniqueness and foreign-key constraints
 * are part of the database invariant `Valid`.
 */
module Schema {
  import opened Wrappers

  /** Row identities. The store uses random uuids; here they are drawn from a counter. */
  type Id = nat
  /** A timestamp, supplied by the caller's clock. */
  type Time = nat

  datatype Role = USER | ADMIN
  const DEFAULT_ROLE: Role := USER

  datatype OrderStatus = PENDING | PROCESSING | SHIPPED | DELIVERED | CANCELLED
  const DEFAULT_ORDER_STATUS: OrderStatus := PENDING

  const DEFAULT_CART_QUANTITY: int := 1
  const DEFAULT_STOCK: int := 0
  const DEFAULT_DISCOUNT_PERCENT: real := 0.0
  const DEFAULT_DISCOUNT_AMOUNT: real := 0.0
  const DEFAULT_FEATURED: bool := false
  const DEFAULT_ACTIVE: bool := true
  const DEFAULT_MUST_CHANGE_PASSWORD: bool := false

  function RoleName(r: Role): string
  {
    match r
    case USER => "USER"
    case ADMIN => "ADMIN"
  }

  function StatusName(s: OrderStatus): string
  {
    match s
    case PENDING => "PENDING"
    case PROCESSING => "PROCESSING"
    case SHIPPED => "SHIPPED"
    case DELIVERED => "DELIVERED"
    case CANCELLED => "CANCELLED"
  }

  /** The five spellings the order-status enum accepts. */
  const STATUS_NAMES: set<string> := {"PENDING", "PROCESSING", "SHIPPED", "DELIVERED", "CANCELLED"}

  /** Parsing a status string against the enum: exactly the five names are accepted. */
  function ParseStatus(s: string): (r: Option<OrderStatus>)
    ensures r.Some? <==> s in STATUS_NAMES
    ensures r.Some? ==> StatusName(r.value) == s
  {
    if s == "PENDING" then Some(PENDING)
    else if s == "PROCESSING" then Some(PROCESSING)
    else if s == "SHIPPED" then Some(SHIPPED)
    else if s == "DELIVERED" then Some(DELIVERED)
    else if s == "CANCELLED" then Some(CANCELLED)
    else None
  }

  /** Every status value is written with one of the five names and parses back to itself. */
  lemma StatusNameRoundTrip(st: OrderStatus)
    ensures StatusName(st) in STATUS_NAMES
    ensures ParseStatus(StatusName(st)) == Some(st)
  {
  }

  datatype User = User(
    email: string,
    passwordHash: string,
    firstName: Option<string>,
    lastName: Option<string>,
    role: Role,
    mustChangePassword: bool,
    createdAt: Time,
    updatedAt: Time)

  datatype Category = Category(name: string, slug: string)

  datatype Product = Product(
    name: string,
    slug: string,
    price: real,
    discountPercent: Option<real>,
    stock: int,
    categoryId: Option<Id>,
    featured: bool,
    active: bool,
    createdAt: Time,
    updatedAt: Time)

  datatype Order = Order(
    userId: Id,
    subtotal: real,
    taxAmount: real,
    discountAmount: real,
    total: real,
    status: OrderStatus,
    paymentIntentId: Option<Id>,
    shippingAddress: string,
    createdAt: Time,
    updatedAt: Time)

  datatype OrderItem = OrderItem(orderId: Id, productId: Id, quantity: int, priceAtPurchase: real)

  /** The range of an `integer` column. */
  const INT_MIN: int := -0x8000_0000
  const INT_MAX: int := 0x7FFF_FFFF

  predicate FitsInteger(n: int)
  {
    INT_MIN <= n <= INT_MAX
  }

  /** A `varchar(width)` column holds at most `width` characters. */
  predicate FitsVarchar(s: string, width: nat)
  {
    |s| <= width
  }

  predicate FitsOptionalVarchar(s: Option<string>, width: nat)
  {
    s.None? || |s.value| <= width
  }

  /** A `decimal(10, 2)` column holds whole cents of magnitude below 10^8. */
  predicate FitsDecimal10(x: real)
  {
    -100000000.0 < x < 100000000.0
  }

  /** A `decimal(5, 2)` column holds whole cents of magnitude below 10^3. */
  predicate FitsDecimal5(x: real)
  {
    -1000.0 < x < 1000.0
  }

  const NAME_WIDTH: nat := 255
  const SHORT_NAME_WIDTH: nat := 100

  /** A users row the columns can hold: email and hash up to 255 characters, names up to 100. */
  predicate UserFits(u: User)
  {
    && FitsVarchar(u.email, NAME_WIDTH)
    && FitsVarchar(u.passwordHash, NAME_WIDTH)
    && FitsOptionalVarchar(u.firstName, SHORT_NAME_WIDTH)
    && FitsOptionalVarchar(u.lastName, SHORT_NAME_WIDTH)
  }

  /** A categories row the columns can hold: name and slug up to 100 characters. */
  predicate CategoryFits(c: Category)
  {
    FitsVarchar(c.name, SHORT_NAME_WIDTH) && FitsVarchar(c.slug, SHORT_NAME_WIDTH)
  }

  /** A products row the columns can hold. */
  predicate ProductFits(p: Product)
  {
    && FitsVarchar(p.name, NAME_WIDTH)
    && FitsVarchar(p.slug, NAME_WIDTH)
    && FitsDecimal10(p.price)
    && (p.discountPercent.None? || FitsDecimal5(p.discountPercent.value))
    && FitsInteger(p.stock)
  }

  /** An orders row the columns can hold: each of the four amounts within decimal(10, 2). */
  predicate OrderFits(o: Order)
  {
    FitsDecimal10(o.subtotal) && FitsDecimal10(o.taxAmount) && FitsDecimal10(o.discountAmount) && FitsDecimal10(o.total)
  }

  datatype Review = Review(productId: Id, userId: Id, rating: int, comment: string)

  datatype ProductQA = ProductQA(productId: Id, question: string, answer: string)

  /** users.email is unique. */
  ghost predicate UniqueEmails(users: map<Id, User>)
  {
    forall a, b :: a in users && b in users && users[a].email == users[b].email ==> a == b
  }

  /** categories.slug is unique. */
  ghost predicate UniqueCategorySlugs(categories: map<Id, Category>)
  {
    forall a, b :: a in categories && b in categories && categories[a].slug == categories[b].slug ==> a == b
  }

  /** products.slug is unique. */
  ghost predicate UniqueProductSlugs(products: map<Id, Product>)
  {
    forall a, b :: a in products && b in products && products[a].slug == products[b].slug ==> a == b
  }

  predicate EmailTaken(users: map<Id, User>, email: string)
  {
    exists id :: id in users && users[id].email == email
  }

  predicate CategorySlugTaken(categories: map<Id, Category>, slug: string)
  {
    exists id :: id in categories && categories[id].slug == slug
  }

  predicate ProductSlugTaken(products: map<Id, Product>, slug: string)
  {
    exists id :: id in products && products[id].slug == slug
  }

  /** The keys of `m` below `n`, in ascending order: the table's rows in a fixed order. */
  function IdsBelow<T>(m: map<Id, T>, n: nat): (r: seq<Id>)
    ensures forall i :: 0 <= i < |r| ==> r[i] in m && r[i] < n
    ensures forall k :: k in m && k < n ==> k in r
    ensures forall i, j :: 0 <= i < j < |r| ==> r[i] < r[j]
  {
    if n == 0 then [] else IdsBelow(m, n - 1) + (if n - 1 in m then [n - 1] else [])
  }

  /** The first row of `m` (in id order, below `n`) that satisfies `p`. */
  function FirstWhere<T>(m: map<Id, T>, n: nat, p: T -> bool): (r: Option<Id>)
    ensures r.Some? ==> r.value in m && r.value < n && p(m[r.value])
    ensures r.Some? ==> forall k :: k in m && k < r.value ==> !p(m[k])
    ensures r.None? ==> forall k :: k in m && k < n ==> !p(m[k])
  {
    if n == 0 then None
    else
      var earlier := FirstWhere(m, n - 1, p);
      if earlier.Some? then earlier
      else if n - 1 in m && p(m[n - 1]) then Some(n - 1)
      else None
  }

  /** Each user's cart has a row of lines, every row of lines is some user's cart, and no two users share one. */
  ghost predicate CartShape(carts: map<Id, Id>, cartItems: map<Id, map<Id, int>>)
  {
    && (forall u :: u in carts ==> carts[u] in cartItems)
    && (forall c :: c in cartItems ==> exists u :: u in carts && carts[u] == c)
    && (forall u, v :: u in carts && v in carts && carts[u] == carts[v] ==> u == v)
  }

  /** Every table, as the handlers see it. */
  class Database {
    var users: map<Id, User>
    var categories: map<Id, Category>
    var products: map<Id, Product>
    var orders: map<Id, Order>
    var orderItems: seq<OrderItem>
    /** carts.userId is unique: at most one cart per user. */
    var carts: map<Id, Id>
    /** The cart_items of each cart, keyed by product. */
    var cartItems: map<Id, map<Id, int>>
    var reviews: seq<Review>
    var qas: seq<ProductQA>
    /** The next fresh row id. */
    var nextId: Id

    /** Every row id was drawn before `nextId`. */
    ghost predicate IdsFresh()
      reads this
    {
      && (forall k :: k in users ==> k < nextId)
      && (forall k :: k in categories ==> k < nextId)
      && (forall k :: k in products ==> k < nextId)
      && (forall k :: k in orders ==> k < nextId)
      && (forall k :: k in cartItems ==> k < nextId)
    }

    /** The cart rows are exactly the carts of users, one per user and none shared. */
    ghost predicate CartsWellFormed()
      reads this
    {
      CartShape(carts, cartItems)
    }

    /** The unique constraints of the schema. */
    ghost predicate Unique()
      reads this
    {
      UniqueEmails(users) && UniqueCategorySlugs(categories) && UniqueProductSlugs(products)
    }

    /** The foreign keys of the schema: every id a row holds names an existing row. */
    ghost predicate ForeignKeys()
      reads this
    {
      && (forall o :: o in orders ==> orders[o].userId in users)
      && (forall u :: u in carts ==> u in users)
      && (forall i :: 0 <= i < |reviews| ==> reviews[i].userId in users)
      && (forall p :: p in products && products[p].categoryId.Some? ==> products[p].categoryId.value in categories)
      && (forall c, p :: c in cartItems && p in cartItems[c] ==> p in products)
      && (forall i :: 0 <= i < |orderItems| ==> orderItems[i].productId in products && orderItems[i].orderId in orders)
      && (forall i :: 0 <= i < |reviews| ==> reviews[i].productId in products)
      && (forall i :: 0 <= i < |qas| ==> qas[i].productId in products)
    }

    ghost predicate Valid()
      reads this
    {
      IdsFresh() && CartsWellFormed() && Unique() && ForeignKeys()
    }

    constructor ()
      ensures Valid()
      ensures users == map[] && categories == map[] && products == map[] && orders == map[]
      ensures orderItems == [] && carts == map[] && cartItems == map[]
      ensures reviews == [] && qas == [] && nextId == 0
    {
      users, categories, products, orders := map[], map[], map[], map[];
      orderItems, carts, cartItems := [], map[], map[];
      reviews, qas, nextId := [], [], 0;
    }

    /** Draws a fresh row id, the stand-in for the store's random uuid default. */
    method FreshId() returns (id: Id)
      requires Valid()
      modifies this`nextId
      ensures Valid()
      ensures id == old(nextId) && nextId == id + 1
    {
      id := nextId;
      nextId := nextId + 1;
    }

    /** Inserts a user under a fresh id; an email no user holds keeps the unique constraint. */
    method InsertUser(u: User) returns (id: Id)
      requires Valid() && !EmailTaken(users, u.email)
      modifies this`users, this`nextId
      ensures Valid()
      ensures id == old(nextId) && id !in old(users) && nextId == id + 1
      ensures users == old(users)[id := u]
    {
      assert IdsFresh();
      id := nextId;
      nextId := nextId + 1;
      users := users[id := u];
      assert IdsFresh();
      assert Unique();
      assert ForeignKeys();
    }

    /** Inserts an order of an existing user under a fresh id. */
    method InsertOrder(o: Order) returns (id: Id)
      requires Valid() && o.userId in users
      modifies this`orders, this`nextId
      ensures Valid()
      ensures id == old(nextId) && id !in old(orders) && nextId == id + 1
      ensures orders == old(orders)[id := o]
    {
      assert IdsFresh();
      id := nextId;
      nextId := nextId + 1;
      orders := orders[id := o];
      assert IdsFresh();
      assert ForeignKeys();
    }

    /** Rewrites an order row in place, keeping its owner, so that every invariant survives. */
    method UpdateOrder(id: Id, o: Order)
      requires Valid() && id in orders && o.userId == orders[id].userId
      modifies this`orders
      ensures Valid()
      ensures orders == old(orders)[id := o]
    {
      orders := orders[id := o];
      assert IdsFresh();
      assert ForeignKeys();
    }

    /** A product row that some other row still points at; deleting it violates a foreign key. */
    predicate ProductReferenced(id: Id)
      reads this
    {
      || (exists c :: c in cartItems && id in cartItems[c])
      || (exists i :: 0 <= i < |orderItems| && orderItems[i].productId == id)
      || (exists i :: 0 <= i < |reviews| && reviews[i].productId == id)
      || (exists i :: 0 <= i < |qas| && qas[i].productId == id)
    }

    /** A category row that some product still points at. */
    predicate CategoryReferenced(id: Id)
      reads this
    {
      exists p :: p in products && products[p].categoryId == Some(id)
    }
  }
}
