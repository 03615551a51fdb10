/**
 * The categories router: the listing with each category's product count,
 * lookup by slug, and the administrator's create, patch and delete.
 */
module CategoryRoutes {
  import opened Wrappers
  import opened Schema
  import Listing

  /** The products of category `categoryId`, active or not. */
  function ProductsIn(products: map<Id, Product>, categoryId: Id): set<Id>
  {
    set p | p in products && products[p].categoryId == Some(categoryId)
  }

  /** A listed category: its row and its product count, without the products themselves. */
  datatype CategorySummary = CategorySummary(id: Id, category: Category, productCount: nat)

  /** The `map` of the listing over the categories named by `ids`. */
  function Summaries(categories: map<Id, Category>, ids: seq<Id>, products: map<Id, Product>): (r: seq<CategorySummary>)
    requires forall i :: 0 <= i < |ids| ==> ids[i] in categories
    ensures |r| == |ids|
    ensures forall i :: 0 <= i < |ids| ==> r[i].id == ids[i] && r[i].category == categories[ids[i]]
  {
    if ids == [] then []
    else
      var c := ids[|ids| - 1];
      Summaries(categories, ids[..|ids| - 1], products) + [CategorySummary(c, categories[c], |ProductsIn(products, c)|)]
  }

  /** The ids a listing names, in its order. */
  function SummaryIds(s: seq<CategorySummary>): (r: seq<Id>)
    ensures |r| == |s| && forall i :: 0 <= i < |s| ==> r[i] == s[i].id
  {
    seq(|s|, i requires 0 <= i < |s| => s[i].id)
  }

  /** The sum of the product counts of a listing. */
  function TotalCount(s: seq<CategorySummary>): nat
  {
    if s == [] then 0 else TotalCount(s[..|s| - 1]) + s[|s| - 1].productCount
  }

  /** The products whose category is one of `ids`. */
  function ProductsInAny(products: map<Id, Product>, ids: seq<Id>): set<Id>
  {
    set p | p in products && products[p].categoryId.Some? && products[p].categoryId.value in ids
  }

  /** The products that belong to some category. */
  function Categorised(products: map<Id, Product>): set<Id>
  {
    set p | p in products && products[p].categoryId.Some?
  }

  /** Each summary's count is the number of that category's products. */
  lemma {:induction false} SummaryCounts(categories: map<Id, Category>, ids: seq<Id>, products: map<Id, Product>)
    requires forall i :: 0 <= i < |ids| ==> ids[i] in categories
    ensures var r := Summaries(categories, ids, products);
            forall i :: 0 <= i < |ids| ==> r[i].productCount == |ProductsIn(products, ids[i])|
  {
    if ids != [] {
      var init := ids[..|ids| - 1];
      SummaryCounts(categories, init, products);
      var r := Summaries(categories, ids, products);
      forall i | 0 <= i < |ids|
        ensures r[i].productCount == |ProductsIn(products, ids[i])|
      {
        if i < |ids| - 1 {
          assert r[i] == Summaries(categories, init, products)[i];
          assert init[i] == ids[i];
        }
      }
    }
  }

  /** Over distinct categories, the counts add up to the number of products in any of them: no product is counted twice. */
  lemma {:induction false} CountsPartitionProducts(categories: map<Id, Category>, ids: seq<Id>, products: map<Id, Product>)
    requires forall i :: 0 <= i < |ids| ==> ids[i] in categories
    requires forall i, j :: 0 <= i < j < |ids| ==> ids[i] != ids[j]
    ensures TotalCount(Summaries(categories, ids, products)) == |ProductsInAny(products, ids)|
  {
    if ids == [] {
      assert ProductsInAny(products, ids) == {};
    } else {
      var init := ids[..|ids| - 1];
      var c := ids[|ids| - 1];
      CountsPartitionProducts(categories, init, products);
      var s := Summaries(categories, ids, products);
      assert s[..|s| - 1] == Summaries(categories, init, products);
      var a := ProductsInAny(products, init);
      var b := ProductsIn(products, c);
      assert ProductsInAny(products, ids) == a + b by {
        forall p | p in ProductsInAny(products, ids)
          ensures p in a + b
        {
          var v := products[p].categoryId.value;
          var i :| 0 <= i < |ids| && ids[i] == v;
          if i < |ids| - 1 {
            assert init[i] == v;
          }
        }
      }
      assert a * b == {} by {
        forall p | p in a
          ensures p !in b
        {
          var v := products[p].categoryId.value;
          var i :| 0 <= i < |init| && init[i] == v;
          assert ids[i] == v;
        }
      }
      assert |a + b| == |a| + |b|;
    }
  }

  /** The listing names exactly the given ids, in order. */
  lemma SummaryIdsAreIds(categories: map<Id, Category>, ids: seq<Id>, products: map<Id, Product>)
    requires forall i :: 0 <= i < |ids| ==> ids[i] in categories
    ensures SummaryIds(Summaries(categories, ids, products)) == ids
  {
  }

  /** In the listing of every category below `bound`, each row is a category with its own product count. */
  lemma ListingRows(categories: map<Id, Category>, products: map<Id, Product>, bound: nat)
    ensures var r := Summaries(categories, IdsBelow(categories, bound), products);
            forall i :: 0 <= i < |r| ==>
              r[i].id in categories && r[i].category == categories[r[i].id]
              && r[i].productCount == |ProductsIn(products, r[i].id)|
  {
    SummaryCounts(categories, IdsBelow(categories, bound), products);
  }

  /** The listing of every category names each category at most once. */
  lemma ListingOnce(categories: map<Id, Category>, products: map<Id, Product>, bound: nat)
    ensures Listing.Distinct(SummaryIds(Summaries(categories, IdsBelow(categories, bound), products)))
  {
    var ids := IdsBelow(categories, bound);
    var names := SummaryIds(Summaries(categories, ids, products));
    forall i, j | 0 <= i < j < |names|
      ensures names[i] != names[j]
    {
      assert names[i] == ids[i] && names[j] == ids[j];
    }
  }

  /** The listing of every category below `bound` names every category when all ids are below it. */
  lemma ListingCovers(categories: map<Id, Category>, products: map<Id, Product>, bound: nat)
    requires forall c :: c in categories ==> c < bound
    ensures forall c :: c in categories ==> c in SummaryIds(Summaries(categories, IdsBelow(categories, bound), products))
  {
    SummaryIdsAreIds(categories, IdsBelow(categories, bound), products);
  }

  /** The counts of the listing of every category add up to the number of categorised products. */
  lemma ListingTotal(categories: map<Id, Category>, products: map<Id, Product>, bound: nat)
    requires forall c :: c in categories ==> c < bound
    requires forall p :: p in products && products[p].categoryId.Some? ==> products[p].categoryId.value in categories
    ensures TotalCount(Summaries(categories, IdsBelow(categories, bound), products)) == |Categorised(products)|
  {
    var ids := IdsBelow(categories, bound);
    CountsPartitionProducts(categories, ids, products);
    EveryCategoryListed(categories, products, ids);
  }

  /** When `ids` covers every category a product names, the products in any of them are all categorised products. */
  lemma EveryCategoryListed(categories: map<Id, Category>, products: map<Id, Product>, ids: seq<Id>)
    requires forall c :: c in categories ==> c in ids
    requires forall p :: p in products && products[p].categoryId.Some? ==> products[p].categoryId.value in categories
    ensures ProductsInAny(products, ids) == Categorised(products)
  {
    forall p | p in Categorised(products)
      ensures p in ProductsInAny(products, ids)
    {
      assert products[p].categoryId.value in categories;
    }
  }

  /** GET /: every category once, with its product count; the counts add up to the number of categorised products. */
  method ListCategories(db: Database) returns (r: seq<CategorySummary>)
    requires db.Valid()
    ensures forall i :: 0 <= i < |r| ==>
              r[i].id in db.categories && r[i].category == db.categories[r[i].id]
              && r[i].productCount == |ProductsIn(db.products, r[i].id)|
    ensures forall c :: c in db.categories ==> c in SummaryIds(r)
    ensures Listing.Distinct(SummaryIds(r))
    ensures TotalCount(r) == |Categorised(db.products)|
  {
    assert db.IdsFresh();
    assert db.ForeignKeys();
    ListingRows(db.categories, db.products, db.nextId);
    ListingCovers(db.categories, db.products, db.nextId);
    ListingOnce(db.categories, db.products, db.nextId);
    ListingTotal(db.categories, db.products, db.nextId);
    r := Summaries(db.categories, IdsBelow(db.categories, db.nextId), db.products);
  }

  /** A category together with its products, as GET /:slug returns it. */
  datatype CategoryView = CategoryView(id: Id, category: Category, products: seq<Id>)

  /** GET /:slug: the category with that slug and all its products; 404 when none has it. */
  method GetCategoryBySlug(db: Database, slug: string) returns (r: Result<CategoryView>)
    requires db.Valid()
    ensures r.Err? <==> !CategorySlugTaken(db.categories, slug)
    ensures r.Err? ==> r == Err(Failure(404, "Category not found"))
    ensures r.Ok? ==> r.value.id in db.categories && r.value.category == db.categories[r.value.id]
                      && r.value.category.slug == slug
                      && forall p :: p in r.value.products <==> p in ProductsIn(db.products, r.value.id)
  {
    assert db.IdsFresh();
    var found := FirstWhere(db.categories, db.nextId, (c: Category) => c.slug == slug);
    if found.None? {
      return Err(Failure(404, "Category not found"));
    }
    var id := found.value;
    var products := db.products;
    var mine := Listing.Filter(IdsBelow(products, db.nextId), (p: Id) => p in products && products[p].categoryId == Some(id));
    return Ok(CategoryView(id, db.categories[id], mine));
  }

  /** categorySchema: non-empty name and slug. */
  predicate ValidCategory(name: string, slug: string)
  {
    |name| >= 1 && |slug| >= 1
  }

  /** POST /: a valid category with an unused slug and a name and slug its columns can hold is inserted. */
  method CreateCategory(db: Database, name: string, slug: string) returns (r: Result<Id>)
    requires db.Valid()
    modifies db`categories, db`nextId
    ensures db.Valid()
    ensures !ValidCategory(name, slug) ==> r == Err(VALIDATION_FAILED)
    ensures ValidCategory(name, slug) && CategorySlugTaken(old(db.categories), slug) ==>
              r == Err(Failure(400, "Category with this slug already exists"))
    ensures ValidCategory(name, slug) && !CategorySlugTaken(old(db.categories), slug) && !CategoryFits(Category(name, slug)) ==>
              r == Err(Failure(500, "Failed to create category"))
    ensures r.Err? ==> db.categories == old(db.categories) && db.nextId == old(db.nextId)
    ensures r.Ok? <==> ValidCategory(name, slug) && !CategorySlugTaken(old(db.categories), slug) && CategoryFits(Category(name, slug))
    ensures r.Ok? ==> r.value == old(db.nextId) && r.value !in old(db.categories)
                      && db.categories == old(db.categories)[r.value := Category(name, slug)]
  {
    if !ValidCategory(name, slug) {
      return Err(VALIDATION_FAILED);
    }
    if CategorySlugTaken(db.categories, slug) {
      return Err(Failure(400, "Category with this slug already exists"));
    }
    if !CategoryFits(Category(name, slug)) {
      return Err(Failure(500, "Failed to create category"));
    }
    var id := db.FreshId();
    db.categories := db.categories[id := Category(name, slug)];
    assert db.IdsFresh();
    assert db.Unique();
    assert db.ForeignKeys();
    return Ok(id);
  }

  /** The partial schema: a supplied name or slug must be non-empty. */
  predicate ValidCategoryPatch(name: Option<string>, slug: Option<string>)
  {
    (name.None? || |name.value| >= 1) && (slug.None? || |slug.value| >= 1)
  }

  /** Another category already carries the slug. */
  predicate CategorySlugClash(categories: map<Id, Category>, id: Id, slug: Option<string>)
  {
    slug.Some? && exists k :: k in categories && k != id && categories[k].slug == slug.value
  }

  /** A supplied name or slug is short enough for its column. */
  predicate CategoryPatchFits(name: Option<string>, slug: Option<string>)
  {
    FitsOptionalVarchar(name, SHORT_NAME_WIDTH) && FitsOptionalVarchar(slug, SHORT_NAME_WIDTH)
  }

  /**
   * PATCH /:id: only the supplied fields change. `others` says whether the
   * body also supplies a description or an image url, whose values are not
   * modelled. A patch that supplies no field has nothing to set and fails; so
   * does one whose slug another category holds or whose name or slug is too
   * long for its column.
   */
  method PatchCategory(db: Database, id: Id, name: Option<string>, slug: Option<string>, others: bool) returns (r: Result<Category>)
    requires db.Valid()
    modifies db`categories
    ensures db.Valid()
    ensures !ValidCategoryPatch(name, slug) ==> r == Err(VALIDATION_FAILED)
    ensures ValidCategoryPatch(name, slug) && name.None? && slug.None? && !others ==>
              r == Err(Failure(500, "Failed to update category"))
    ensures ValidCategoryPatch(name, slug) && (name.Some? || slug.Some? || others) && id !in old(db.categories) ==>
              r == Err(Failure(404, "Category not found"))
    ensures ValidCategoryPatch(name, slug) && id in old(db.categories)
            && (CategorySlugClash(old(db.categories), id, slug) || !CategoryPatchFits(name, slug)) ==>
              r == Err(Failure(500, "Failed to update category"))
    ensures r.Err? ==> db.categories == old(db.categories)
    ensures r.Ok? <==> ValidCategoryPatch(name, slug) && (name.Some? || slug.Some? || others) && id in old(db.categories)
                       && !CategorySlugClash(old(db.categories), id, slug) && CategoryPatchFits(name, slug)
    ensures r.Ok? ==> var c := old(db.categories)[id];
                      && r.value == Category(name.GetOr(c.name), slug.GetOr(c.slug))
                      && db.categories == old(db.categories)[id := r.value]
  {
    if !ValidCategoryPatch(name, slug) {
      return Err(VALIDATION_FAILED);
    }
    if name.None? && slug.None? && !others {
      return Err(Failure(500, "Failed to update category"));
    }
    if id !in db.categories {
      return Err(Failure(404, "Category not found"));
    }
    if CategorySlugClash(db.categories, id, slug) || !CategoryPatchFits(name, slug) {
      return Err(Failure(500, "Failed to update category"));
    }
    var c := db.categories[id];
    var updated := Category(name.GetOr(c.name), slug.GetOr(c.slug));
    var before := db.categories;
    db.categories := db.categories[id := updated];
    assert db.IdsFresh();
    assert db.Unique() by {
      forall a, b | a in db.categories && b in db.categories && db.categories[a].slug == db.categories[b].slug
        ensures a == b
      {
        if a != id && b != id {
          assert before[a].slug == before[b].slug;
        }
      }
    }
    assert db.ForeignKeys();
    return Ok(updated);
  }

  /** DELETE /:id: 404 for a missing row; a category that products still name cannot be deleted. */
  method DeleteCategory(db: Database, id: Id) returns (r: Result<string>)
    requires db.Valid()
    modifies db`categories
    ensures db.Valid()
    ensures id !in old(db.categories) ==> r == Err(Failure(404, "Category not found"))
    ensures id in old(db.categories) && db.CategoryReferenced(id) ==> r == Err(Failure(500, "Failed to delete category"))
    ensures r.Err? ==> db.categories == old(db.categories)
    ensures r.Ok? <==> id in old(db.categories) && !db.CategoryReferenced(id)
    ensures r.Ok? ==> r.value == "Category deleted successfully" && db.categories == old(db.categories) - {id}
  {
    if id !in db.categories {
      return Err(Failure(404, "Category not found"));
    }
    if db.CategoryReferenced(id) {
      return Err(Failure(500, "Failed to delete category"));
    }
    db.categories := db.categories - {id};
    assert db.IdsFresh();
    assert db.Unique();
    assert db.ForeignKeys();
    return Ok("Category deleted successfully");
  }
}
