/**
 * The products router: the body schema (with its decimal-string rule for
 * price and discount), the public listing (conditions, sort, page and total),
 * lookup by slug, and the administrator's create, patch and delete.
 */
module ProductRoutes {
  import opened Wrappers
  import opened Schema
  import Text
  import Listing
  import Pricing

  /** The position of the first '.' in `s`, or `|s|` when there is none. */
  function DotIndex(s: string): (k: nat)
    ensures k <= |s|
    ensures k < |s| ==> s[k] == '.'
    ensures forall i :: 0 <= i < k ==> s[i] != '.'
  {
    if s == [] || s[0] == '.' then 0 else 1 + DotIndex(s[1..])
  }

  /** The pattern `^\d+(\.\d{1,2})?$` of price and discountPercent, read left to right. */
  predicate IsDecimalText(s: string)
  {
    var k := DotIndex(s);
    && k >= 1
    && Text.AllDigits(s[..k])
    && (k == |s| || (1 <= |s| - (k + 1) <= 2 && Text.AllDigits(s[k + 1..])))
  }

  /** The same pattern stated declaratively: all digits, or digits, a dot and one or two digits. */
  ghost predicate DecimalShape(s: string)
  {
    || (|s| >= 1 && Text.AllDigits(s))
    || (exists k :: 1 <= k < |s| && s[k] == '.' && |s| - (k + 1) in {1, 2}
                    && Text.AllDigits(s[..k]) && Text.AllDigits(s[k + 1..]))
  }

  /** The left-to-right reading accepts exactly the strings of the declarative pattern. */
  lemma DecimalTextMeansShape(s: string)
    ensures IsDecimalText(s) <==> DecimalShape(s)
  {
    var k := DotIndex(s);
    if IsDecimalText(s) {
      if k < |s| {
        assert |s| - (k + 1) in {1, 2};
      }
    }
    if DecimalShape(s) {
      if |s| >= 1 && Text.AllDigits(s) {
        assert s[..k] == s;
      } else {
        var j :| 1 <= j < |s| && s[j] == '.' && |s| - (j + 1) in {1, 2}
                 && Text.AllDigits(s[..j]) && Text.AllDigits(s[j + 1..]);
        assert k == j;
      }
    }
  }

  /** The number a decimal string denotes. */
  function DecimalValue(s: string): real
    requires IsDecimalText(s)
  {
    var k := DotIndex(s);
    var whole := Text.DigitsValue(s[..k]) as real;
    if k == |s| then whole
    else
      var fraction := s[k + 1..];
      whole + Text.DigitsValue(fraction) as real / (if |fraction| == 1 then 10.0 else 100.0)
  }

  /** An accepted decimal string is a non-negative whole number of cents, as the numeric(_, 2) columns store. */
  lemma DecimalValueIsCents(s: string)
    requires IsDecimalText(s)
    ensures DecimalValue(s) >= 0.0
    ensures Pricing.IsCents(DecimalValue(s))
  {
    var k := DotIndex(s);
    var w := Text.DigitsValue(s[..k]);
    if k == |s| {
      Pricing.CentsAreCents(w * 100);
      assert (w * 100) as real / 100.0 == w as real;
    } else {
      var f := Text.DigitsValue(s[k + 1..]);
      if |s| - (k + 1) == 1 {
        Pricing.CentsAreCents(w * 100 + f * 10);
        assert (w * 100 + f * 10) as real / 100.0 == w as real + f as real / 10.0;
      } else {
        Pricing.CentsAreCents(w * 100 + f);
        assert (w * 100 + f) as real / 100.0 == w as real + f as real / 100.0;
      }
    }
  }

  /** Every natural number written in decimal digits is an accepted price and denotes that number. */
  lemma WholeNumbersAccepted(n: nat)
    ensures IsDecimalText(Text.NatText(n))
    ensures DecimalValue(Text.NatText(n)) == n as real
  {
    var s := Text.NatText(n);
    var k := DotIndex(s);
    assert k == |s|;
    assert s[..k] == s;
    Text.NatTextRoundTrip(n);
  }

  /** "19.99" and "150" are accepted as written; "1.999", ".5" and "5." are not. */
  lemma DecimalExamples()
    ensures IsDecimalText("19.99") && DecimalValue("19.99") == 19.99
    ensures IsDecimalText("150") && DecimalValue("150") == 150.0
    ensures !IsDecimalText("1.999") && !IsDecimalText(".5") && !IsDecimalText("5.")
  {
    assert DotIndex("19.99") == 2;
    assert "19.99"[..2] == "19" && "19.99"[3..] == "99";
    assert "1"[..0] == "" && "9"[..0] == "";
    assert Text.DigitsValue("1") == 1 && Text.DigitsValue("9") == 9;
    assert "19"[..1] == "1" && "99"[..1] == "9";
    assert Text.DigitsValue("19") == 19;
    assert Text.DigitsValue("99") == 99;
    assert DotIndex("150") == 3;
    assert "150"[..3] == "150";
    assert "150"[..2] == "15" && "15"[..1] == "1";
    assert Text.DigitsValue("15") == 15;
    assert Text.DigitsValue("150") == 150;
    assert DotIndex("1.999") == 1;
    assert DotIndex(".5") == 0;
    assert DotIndex("5.") == 1;
  }

  /**
   * The pattern does not bound the discount: "150" is an accepted discount
   * percentage, and with it any positive price becomes negative.
   */
  lemma DiscountPatternAllowsNegativePrice(price: real)
    requires price > 0.0
    ensures IsDecimalText("150")
    ensures Pricing.DiscountedPrice(price, Some(DecimalValue("150"))) < 0.0
  {
    DecimalExamples();
    Pricing.DiscountAboveHundredIsNegative(price, 150.0);
  }

  /** The create body; description and image url are not modelled. */
  datatype ProductInput = ProductInput(
    name: string,
    slug: string,
    price: string,
    discountPercent: Option<string>,
    stock: int,
    categoryId: Option<Id>,
    featured: Option<bool>,
    active: Option<bool>)

  predicate ValidDecimal(s: Option<string>)
  {
    s.None? || IsDecimalText(s.value)
  }

  /** createProductSchema: non-empty name and slug, decimal price and discount, integer stock of at least 0. */
  predicate ValidProductInput(input: ProductInput)
  {
    && |input.name| >= 1
    && |input.slug| >= 1
    && IsDecimalText(input.price)
    && ValidDecimal(input.discountPercent)
    && input.stock >= 0
  }

  /** The inserted row: the supplied fields, and the column defaults for the rest. */
  function NewProduct(input: ProductInput, now: Time): Product
    requires ValidProductInput(input)
  {
    Product(
      input.name,
      input.slug,
      DecimalValue(input.price),
      Some(if input.discountPercent.Some? then DecimalValue(input.discountPercent.value) else DEFAULT_DISCOUNT_PERCENT),
      input.stock,
      input.categoryId,
      input.featured.GetOr(DEFAULT_FEATURED),
      input.active.GetOr(DEFAULT_ACTIVE),
      now,
      now)
  }

  /** A new product with no discount supplied is sold at its list price. */
  lemma NewProductDefaults(input: ProductInput, now: Time)
    requires ValidProductInput(input)
    requires input.discountPercent.None? && input.featured.None? && input.active.None?
    ensures var p := NewProduct(input, now);
            && p.discountPercent == Some(0.0) && !p.featured && p.active
            && Pricing.DiscountedPrice(p.price, p.discountPercent) == p.price
  {
  }

  /**
   * POST /: a valid body with an unused slug is inserted; an unknown category
   * breaks the foreign key, and a value its column cannot hold is refused.
   */
  method CreateProduct(db: Database, input: ProductInput, now: Time) returns (r: Result<Id>)
    requires db.Valid()
    modifies db`products, db`nextId
    ensures db.Valid()
    ensures !ValidProductInput(input) ==> r == Err(VALIDATION_FAILED)
    ensures ValidProductInput(input) && ProductSlugTaken(old(db.products), input.slug) ==>
              r == Err(Failure(400, "Product with this slug already exists"))
    ensures ValidProductInput(input) && !ProductSlugTaken(old(db.products), input.slug)
            && ((input.categoryId.Some? && input.categoryId.value !in db.categories) || !ProductFits(NewProduct(input, now))) ==>
              r == Err(Failure(500, "Failed to create product"))
    ensures r.Err? ==> db.products == old(db.products) && db.nextId == old(db.nextId)
    ensures r.Ok? <==> ValidProductInput(input) && !ProductSlugTaken(old(db.products), input.slug)
                       && (input.categoryId.None? || input.categoryId.value in db.categories)
                       && ProductFits(NewProduct(input, now))
    ensures r.Ok? ==> r.value == old(db.nextId) && r.value !in old(db.products)
                      && db.products == old(db.products)[r.value := NewProduct(input, now)]
  {
    if !ValidProductInput(input) {
      return Err(VALIDATION_FAILED);
    }
    if ProductSlugTaken(db.products, input.slug) {
      return Err(Failure(400, "Product with this slug already exists"));
    }
    if (input.categoryId.Some? && input.categoryId.value !in db.categories) || !ProductFits(NewProduct(input, now)) {
      return Err(Failure(500, "Failed to create product"));
    }
    var id := db.FreshId();
    db.products := db.products[id := NewProduct(input, now)];
    assert db.IdsFresh();
    assert db.Unique();
    assert db.ForeignKeys();
    return Ok(id);
  }

  /** The patch body: every field optional. */
  datatype ProductPatch = ProductPatch(
    name: Option<string>,
    slug: Option<string>,
    price: Option<string>,
    discountPercent: Option<string>,
    stock: Option<int>,
    categoryId: Option<Id>,
    featured: Option<bool>,
    active: Option<bool>)

  /** The partial schema: each supplied field must pass its rule. */
  predicate ValidProductPatch(patch: ProductPatch)
  {
    && (patch.name.None? || |patch.name.value| >= 1)
    && (patch.slug.None? || |patch.slug.value| >= 1)
    && ValidDecimal(patch.price)
    && ValidDecimal(patch.discountPercent)
    && (patch.stock.None? || patch.stock.value >= 0)
  }

  /** The row after a patch: the supplied fields replaced, `updatedAt` set, everything else kept. */
  function Patched(p: Product, patch: ProductPatch, now: Time): (q: Product)
    requires ValidProductPatch(patch)
    ensures q.updatedAt == now && q.createdAt == p.createdAt
    ensures q.name == patch.name.GetOr(p.name) && q.slug == patch.slug.GetOr(p.slug)
    ensures patch.price.None? ==> q.price == p.price
    ensures patch.price.Some? ==> q.price == DecimalValue(patch.price.value)
    ensures patch.discountPercent.None? ==> q.discountPercent == p.discountPercent
    ensures patch.discountPercent.Some? ==> q.discountPercent == Some(DecimalValue(patch.discountPercent.value))
    ensures q.stock == patch.stock.GetOr(p.stock)
    ensures q.categoryId == (if patch.categoryId.Some? then patch.categoryId else p.categoryId)
    ensures q.featured == patch.featured.GetOr(p.featured) && q.active == patch.active.GetOr(p.active)
  {
    p.(
      name := patch.name.GetOr(p.name),
      slug := patch.slug.GetOr(p.slug),
      price := if patch.price.Some? then DecimalValue(patch.price.value) else p.price,
      discountPercent := if patch.discountPercent.Some? then Some(DecimalValue(patch.discountPercent.value)) else p.discountPercent,
      stock := patch.stock.GetOr(p.stock),
      categoryId := if patch.categoryId.Some? then patch.categoryId else p.categoryId,
      featured := patch.featured.GetOr(p.featured),
      active := patch.active.GetOr(p.active),
      updatedAt := now)
  }

  /** An empty patch only moves `updatedAt`. */
  lemma EmptyPatchOnlyTouches(p: Product, now: Time)
    ensures Patched(p, ProductPatch(None, None, None, None, None, None, None, None), now) == p.(updatedAt := now)
  {
  }

  /** Every supplied value fits its column; the columns a patch leaves alone are not checked again. */
  predicate ProductPatchFits(patch: ProductPatch)
    requires ValidProductPatch(patch)
  {
    && FitsOptionalVarchar(patch.name, NAME_WIDTH)
    && FitsOptionalVarchar(patch.slug, NAME_WIDTH)
    && (patch.price.None? || FitsDecimal10(DecimalValue(patch.price.value)))
    && (patch.discountPercent.None? || FitsDecimal5(DecimalValue(patch.discountPercent.value)))
    && (patch.stock.None? || FitsInteger(patch.stock.value))
  }

  /** Another product already carries the slug (a unique-constraint violation). */
  predicate SlugClash(products: map<Id, Product>, id: Id, slug: Option<string>)
  {
    slug.Some? && exists k :: k in products && k != id && products[k].slug == slug.value
  }

  /** PATCH /:id: validation, then 404 for a missing row, then the store's constraints. */
  method PatchProduct(db: Database, id: Id, patch: ProductPatch, now: Time) returns (r: Result<Product>)
    requires db.Valid()
    modifies db`products
    ensures db.Valid()
    ensures !ValidProductPatch(patch) ==> r == Err(VALIDATION_FAILED)
    ensures ValidProductPatch(patch) && id !in old(db.products) ==> r == Err(Failure(404, "Product not found"))
    ensures ValidProductPatch(patch) && id in old(db.products)
            && (SlugClash(old(db.products), id, patch.slug) || (patch.categoryId.Some? && patch.categoryId.value !in db.categories)
                || !ProductPatchFits(patch)) ==>
              r == Err(Failure(500, "Failed to update product"))
    ensures r.Err? ==> db.products == old(db.products)
    ensures r.Ok? <==> ValidProductPatch(patch) && id in old(db.products) && !SlugClash(old(db.products), id, patch.slug)
                       && (patch.categoryId.None? || patch.categoryId.value in db.categories) && ProductPatchFits(patch)
    ensures r.Ok? ==> r.value == Patched(old(db.products)[id], patch, now) && db.products == old(db.products)[id := r.value]
  {
    if !ValidProductPatch(patch) {
      return Err(VALIDATION_FAILED);
    }
    if id !in db.products {
      return Err(Failure(404, "Product not found"));
    }
    if SlugClash(db.products, id, patch.slug) || (patch.categoryId.Some? && patch.categoryId.value !in db.categories) || !ProductPatchFits(patch) {
      return Err(Failure(500, "Failed to update product"));
    }
    var updated := Patched(db.products[id], patch, now);
    var before := db.products;
    db.products := db.products[id := updated];
    assert db.IdsFresh();
    assert db.Unique() by {
      forall a, b | a in db.products && b in db.products && db.products[a].slug == db.products[b].slug
        ensures a == b
      {
        if a != id && b != id {
          assert before[a].slug == before[b].slug;
        }
      }
    }
    assert db.ForeignKeys();
    return Ok(updated);
  }

  /** DELETE /:id: 404 for a missing row; a row other rows still refer to cannot be deleted. */
  method DeleteProduct(db: Database, id: Id) returns (r: Result<string>)
    requires db.Valid()
    modifies db`products
    ensures db.Valid()
    ensures id !in old(db.products) ==> r == Err(Failure(404, "Product not found"))
    ensures id in old(db.products) && db.ProductReferenced(id) ==> r == Err(Failure(500, "Failed to delete product"))
    ensures r.Err? ==> db.products == old(db.products)
    ensures r.Ok? <==> id in old(db.products) && !db.ProductReferenced(id)
    ensures r.Ok? ==> r.value == "Product deleted successfully" && db.products == old(db.products) - {id}
  {
    if id !in db.products {
      return Err(Failure(404, "Product not found"));
    }
    if db.ProductReferenced(id) {
      return Err(Failure(500, "Failed to delete product"));
    }
    db.products := db.products - {id};
    assert db.IdsFresh();
    assert db.Unique();
    assert db.ForeignKeys();
    return Ok("Product deleted successfully");
  }

  /** GET /:slug: the product with that slug, active or not. */
  method GetProductBySlug(db: Database, slug: string) returns (r: Result<Id>)
    requires db.Valid()
    ensures r.Err? <==> !ProductSlugTaken(db.products, slug)
    ensures r.Err? ==> r == Err(Failure(404, "Product not found"))
    ensures r.Ok? ==> r.value in db.products && db.products[r.value].slug == slug
  {
    assert db.IdsFresh();
    var found := FirstWhere(db.products, db.nextId, (p: Product) => p.slug == slug);
    if found.None? {
      return Err(Failure(404, "Product not found"));
    }
    return Ok(found.value);
  }

  /** The listing's query parameters; an absent parameter is None. */
  datatype ProductQuery = ProductQuery(
    category: Option<string>,
    search: Option<string>,
    featured: Option<string>,
    sort: Option<string>,
    limit: Option<int>,
    offset: Option<int>)

  /** One element of the `conditions` array the listing builds. */
  datatype Condition = ActiveOnly | InCategory(categoryId: Id) | NameContains(term: string) | FeaturedOnly

  predicate Holds(p: Product, c: Condition)
  {
    match c
    case ActiveOnly => p.active
    case InCategory(id) => p.categoryId == Some(id)
    case NameContains(term) => Text.Contains(p.name, term)
    case FeaturedOnly => p.featured
  }

  predicate HoldsAll(p: Product, conditions: seq<Condition>)
  {
    forall i :: 0 <= i < |conditions| ==> Holds(p, conditions[i])
  }

  /** The category a `category` parameter names, if it names one; an unknown slug adds no filter. */
  function ResolveCategory(categories: map<Id, Category>, bound: nat, slug: Option<string>): (r: Option<Id>)
    ensures r.Some? ==> Truthy(slug) && r.value in categories && categories[r.value].slug == slug.value
    ensures Truthy(slug) && r.None? ==> forall c :: c in categories && c < bound ==> categories[c].slug != slug.value
  {
    if Truthy(slug) then FirstWhere(categories, bound, (c: Category) => c.slug == slug.value) else None
  }

  /** The condition list for a query whose category parameter resolved to `category`. */
  function QueryConditions(q: ProductQuery, category: Option<Id>): seq<Condition>
  {
    [ActiveOnly]
    + (if category.Some? then [InCategory(category.value)] else [])
    + (if Truthy(q.search) then [NameContains(q.search.value)] else [])
    + (if q.featured == Some("true") then [FeaturedOnly] else [])
  }

  /** What a listed product must satisfy, stated directly. */
  predicate Listed(p: Product, q: ProductQuery, category: Option<Id>)
  {
    && p.active
    && (category.None? || p.categoryId == category)
    && (!Truthy(q.search) || Text.Contains(p.name, q.search.value))
    && (q.featured != Some("true") || p.featured)
  }

  /** A product satisfies every condition of the list exactly when it is listed. */
  lemma ConditionsMeanListed(p: Product, q: ProductQuery, category: Option<Id>)
    ensures HoldsAll(p, QueryConditions(q, category)) <==> Listed(p, q, category)
  {
    var c := QueryConditions(q, category);
    var i := 1;
    if category.Some? {
      assert c[i] == InCategory(category.value);
      i := i + 1;
    }
    if Truthy(q.search) {
      assert c[i] == NameContains(q.search.value);
      i := i + 1;
    }
    if q.featured == Some("true") {
      assert c[i] == FeaturedOnly;
    }
    assert c[0] == ActiveOnly;
  }

  /** The sort order: ascending price, descending price, or newest first. */
  function SortKey(products: map<Id, Product>, sort: Option<string>): Id -> real
  {
    (id: Id) =>
      if id !in products then 0.0
      else if sort == Some("price_asc") then products[id].price
      else if sort == Some("price_desc") then -products[id].price
      else -(products[id].createdAt as real)
  }

  /** Every product id, oldest id first. */
  function ProductIds(db: Database): seq<Id>
    reads db
  {
    IdsBelow(db.products, db.nextId)
  }

  /** The products that satisfy every condition, in id order. */
  function Matching(products: map<Id, Product>, ids: seq<Id>, conditions: seq<Condition>): seq<Id>
  {
    Listing.Filter(ids, (id: Id) => id in products && HoldsAll(products[id], conditions))
  }

  datatype ProductPage = ProductPage(products: seq<Id>, total: nat)

  /** The page for an accepted query: matching products, sorted, windowed; the total ignores the window. */
  function ListingPage(products: map<Id, Product>, ids: seq<Id>, conditions: seq<Condition>, sort: Option<string>,
                       offset: nat, limit: nat): ProductPage
  {
    var matching := Matching(products, ids, conditions);
    ProductPage(Listing.Page(Listing.SortBy(matching, SortKey(products, sort)), offset, limit), |matching|)
  }

  /**
   * The page holds at most `limit` products, each listed by the query (and,
   * for distinct ids, once), in the requested order; `total` counts every
   * matching product.
   */
  lemma ListingPageSound(products: map<Id, Product>, ids: seq<Id>, q: ProductQuery, category: Option<Id>, offset: nat, limit: nat)
    ensures var conditions := QueryConditions(q, category);
            var page := ListingPage(products, ids, conditions, q.sort, offset, limit);
            && |page.products| <= limit
            && (Listing.Distinct(ids) ==> Listing.Distinct(page.products))
            && page.total == |Matching(products, ids, conditions)|
            && (forall i :: 0 <= i < |page.products| ==>
                  page.products[i] in products && Listed(products[page.products[i]], q, category))
            && (forall i, j :: 0 <= i < j < |page.products| ==>
                  SortKey(products, q.sort)(page.products[i]) <= SortKey(products, q.sort)(page.products[j]))
  {
    var conditions := QueryConditions(q, category);
    var matching := Matching(products, ids, conditions);
    var key := SortKey(products, q.sort);
    var sorted := Listing.SortBy(matching, key);
    Listing.SortBySorted(matching, key);
    var page := Listing.Page(sorted, offset, limit);
    if Listing.Distinct(ids) {
      Listing.FilterDistinct(ids, (id: Id) => id in products && HoldsAll(products[id], conditions));
      Listing.SortByDistinct(matching, key);
      Listing.PageDistinct(sorted, offset, limit);
    }
    forall i | 0 <= i < |page|
      ensures page[i] in products && Listed(products[page[i]], q, category)
    {
      assert page[i] == sorted[offset + i];
      assert sorted[offset + i] in multiset(sorted);
      assert page[i] in matching;
      ConditionsMeanListed(products[page[i]], q, category);
    }
    forall i, j | 0 <= i < j < |page|
      ensures key(page[i]) <= key(page[j])
    {
      assert page[i] == sorted[offset + i] && page[j] == sorted[offset + j];
    }
  }

  /** Every listed product that exists is counted in the total. */
  lemma ListedAreCounted(products: map<Id, Product>, ids: seq<Id>, q: ProductQuery, category: Option<Id>, id: Id)
    requires id in ids && id in products && Listed(products[id], q, category)
    ensures id in Matching(products, ids, QueryConditions(q, category))
  {
    ConditionsMeanListed(products[id], q, category);
  }

  /** Under `price_asc` the listed prices never decrease; under `price_desc` they never increase. */
  lemma PriceSortMeaning(products: map<Id, Product>, a: Id, b: Id, sort: Option<string>)
    requires a in products && b in products
    requires SortKey(products, sort)(a) <= SortKey(products, sort)(b)
    ensures sort == Some("price_asc") ==> products[a].price <= products[b].price
    ensures sort == Some("price_desc") ==> products[a].price >= products[b].price
    ensures sort != Some("price_asc") && sort != Some("price_desc") ==> products[a].createdAt >= products[b].createdAt
  {
  }

  /**
   * GET /: builds the condition list (active; the resolved category; the name
   * search; featured only for the value "true"), then sorts and windows with
   * `limit` defaulting to 20 and `offset` to 0. A negative limit or offset is
   * refused by the store.
   */
  method ListProducts(db: Database, q: ProductQuery) returns (r: Result<ProductPage>)
    requires db.Valid()
    ensures q.limit.GetOr(20) < 0 || q.offset.GetOr(0) < 0 ==> r == Err(Failure(500, "Failed to fetch products"))
    ensures r.Ok? <==> q.limit.GetOr(20) >= 0 && q.offset.GetOr(0) >= 0
    ensures r.Ok? ==> r.value == ListingPage(db.products, ProductIds(db),
                                             QueryConditions(q, ResolveCategory(db.categories, db.nextId, q.category)),
                                             q.sort, q.offset.GetOr(0), q.limit.GetOr(20))
  {
    var conditions := [ActiveOnly];
    var category := ResolveCategory(db.categories, db.nextId, q.category);
    if Truthy(q.category) {
      if category.Some? {
        conditions := conditions + [InCategory(category.value)];
      }
    }
    if Truthy(q.search) {
      conditions := conditions + [NameContains(q.search.value)];
    }
    if q.featured == Some("true") {
      conditions := conditions + [FeaturedOnly];
    }
    assert conditions == QueryConditions(q, category);
    var limit := q.limit.GetOr(20);
    var offset := q.offset.GetOr(0);
    if limit < 0 || offset < 0 {
      return Err(Failure(500, "Failed to fetch products"));
    }
    var matching := Matching(db.products, ProductIds(db), conditions);
    var sorted := Listing.SortBy(matching, SortKey(db.products, q.sort));
    return Ok(ProductPage(Listing.Page(sorted, offset, limit), |matching|));
  }
}
