/**
 * The seeding script: the random admin password, and the four seeding steps
 * that each insert their sample rows only when the rows are not there yet.
 *
 * The random bytes are a parameter, bcrypt is the oracle `hash` (cost 12), and
 * the clock is the parameter `now`. Console output is the returned outcome.
 */
module Seed {
  import opened Wrappers
  import opened Schema

  newtype byte = x: int | 0 <= x < 256

  const CHARSET := "abcdefghijklmnopqrstuvwxyzABCDEFGHIJKLMNOPQRSTUVWXYZ0123456789!@#$%^&*"
  const DEFAULT_PASSWORD_LENGTH: nat := 16

  /** The password drawn from `randomBytes`: byte i picks character (byte mod 70) of the charset. */
  function PasswordFrom(randomBytes: seq<byte>): (r: string)
    ensures |r| == |randomBytes|
    ensures forall i :: 0 <= i < |r| ==> r[i] in CHARSET
  {
    seq(|randomBytes|, i requires 0 <= i < |randomBytes| => CHARSET[randomBytes[i] as int % |CHARSET|])
  }

  /** generateSecurePassword: one charset character per random byte, appended in order. */
  method GenerateSecurePassword(length: nat, randomBytes: seq<byte>) returns (password: string)
    requires |randomBytes| == length
    ensures |password| == length
    ensures forall i :: 0 <= i < length ==> password[i] == CHARSET[randomBytes[i] as int % 70]
    ensures password == PasswordFrom(randomBytes)
  {
    password := "";
    for i := 0 to length
      invariant |password| == i
      invariant forall j :: 0 <= j < i ==> password[j] == CHARSET[randomBytes[j] as int % 70]
    {
      password := password + [CHARSET[randomBytes[i] as int % 70]];
    }
  }

  /** How many of the values 0 .. n-1 are congruent to k modulo 70. */
  function Preimages(k: nat, n: nat): nat
  {
    if n == 0 then 0 else Preimages(k, n - 1) + (if (n - 1) % 70 == k then 1 else 0)
  }

  lemma {:induction false} PreimagesCount(k: nat, n: nat)
    requires k < 70
    ensures Preimages(k, n) == n / 70 + (if k < n % 70 then 1 else 0)
  {
    if n > 0 {
      PreimagesCount(k, n - 1);
      if (n - 1) % 70 == 69 {
        assert n % 70 == 0 && n / 70 == (n - 1) / 70 + 1;
      } else {
        assert n % 70 == (n - 1) % 70 + 1 && n / 70 == (n - 1) / 70;
      }
    }
  }

  /**
   * The byte-to-character mapping is not uniform: 256 = 3 * 70 + 46, so each of
   * the first 46 characters is picked by four byte values and each of the
   * other 24 by three.
   */
  lemma CharsetBias(k: nat)
    requires k < |CHARSET|
    ensures Preimages(k, 256) == if k < 46 then 4 else 3
  {
    PreimagesCount(k, 256);
  }

  const DEFAULT_ADMIN_EMAIL := "admin@example.com"

  predicate IsAdmin(u: User) { u.role == ADMIN }

  /** What seedAdmin reports: an admin was already there, a new admin (with the password shown when it was generated), or a failed insert: the email is taken or too long for its column. */
  datatype AdminOutcome = AdminExists | AdminCreated(id: Id, shownPassword: Option<string>) | InsertFailed

  /** The admin row seedAdmin inserts: a generated password must be changed at first login. */
  function AdminRow(email: string, passwordHash: string, generated: bool, now: Time): (u: User)
    ensures u.role == ADMIN && u.email == email && u.passwordHash == passwordHash
    ensures u.mustChangePassword <==> generated
  {
    User(email, passwordHash, Some("Admin"), Some("User"), ADMIN, generated, now, now)
  }

  /**
   * seedAdmin: nothing when any ADMIN user exists; otherwise one ADMIN with the
   * configured email (or the default) and the configured password (or one drawn
   * from `randomBytes`). An email that an ordinary user already holds breaks
   * the unique constraint, and an email longer than its column is refused; in
   * both cases the insert fails and nothing is written.
   */
  method SeedAdmin(db: Database, adminEmail: Option<string>, adminPassword: Option<string>,
                   randomBytes: seq<byte>, hash: string -> string, now: Time)
    returns (r: AdminOutcome)
    requires db.Valid()
    requires |randomBytes| == DEFAULT_PASSWORD_LENGTH
    modifies db`users, db`nextId
    ensures db.Valid()
    ensures (exists u :: u in old(db.users) && IsAdmin(old(db.users)[u])) ==> r == AdminExists
    ensures !r.AdminCreated? ==> db.users == old(db.users) && db.nextId == old(db.nextId)
    ensures r.AdminCreated? <==>
              && (forall u :: u in old(db.users) ==> !IsAdmin(old(db.users)[u]))
              && !EmailTaken(old(db.users), if Truthy(adminEmail) then adminEmail.value else DEFAULT_ADMIN_EMAIL)
              && UserFits(AdminRow(if Truthy(adminEmail) then adminEmail.value else DEFAULT_ADMIN_EMAIL,
                                   hash(if Truthy(adminPassword) then adminPassword.value else PasswordFrom(randomBytes)),
                                   !Truthy(adminPassword), now))
    ensures r.AdminCreated? ==>
              var email := if Truthy(adminEmail) then adminEmail.value else DEFAULT_ADMIN_EMAIL;
              var password := if Truthy(adminPassword) then adminPassword.value else PasswordFrom(randomBytes);
              && r.id == old(db.nextId) && r.id !in old(db.users)
              && db.users == old(db.users)[r.id := AdminRow(email, hash(password), !Truthy(adminPassword), now)]
              && r.shownPassword == (if Truthy(adminPassword) then None else Some(password))
  {
    var existing := FirstWhere(db.users, db.nextId, IsAdmin);
    if existing.Some? {
      return AdminExists;
    }
    assert db.IdsFresh();
    var email := if Truthy(adminEmail) then adminEmail.value else DEFAULT_ADMIN_EMAIL;
    var password;
    if Truthy(adminPassword) {
      password := adminPassword.value;
    } else {
      password := GenerateSecurePassword(DEFAULT_PASSWORD_LENGTH, randomBytes);
    }
    var row := AdminRow(email, hash(password), !Truthy(adminPassword), now);
    if EmailTaken(db.users, email) || !UserFits(row) {
      return InsertFailed;
    }
    var id := db.InsertUser(row);
    return AdminCreated(id, if Truthy(adminPassword) then None else Some(password));
  }

  /** The five sample categories, in insertion order. */
  const SAMPLE_CATEGORIES: seq<Category> := [
    Category("Electronics", "electronics"),
    Category("Clothing", "clothing"),
    Category("Home & Garden", "home-garden"),
    Category("Sports", "sports"),
    Category("Books", "books")
  ]

  /** Rows inserted together under the consecutive ids first, first + 1, ... */
  function Numbered<T>(rows: seq<T>, first: Id): (r: map<Id, T>)
    ensures forall k :: k in r <==> first <= k < first + |rows|
    ensures forall j :: 0 <= j < |rows| ==> r[first + j] == rows[j]
  {
    if rows == [] then map[] else Numbered(rows[..|rows| - 1], first)[first + |rows| - 1 := rows[|rows| - 1]]
  }

  lemma SampleSlugsDistinct()
    ensures forall i, j :: 0 <= i < j < |SAMPLE_CATEGORIES| ==> SAMPLE_CATEGORIES[i].slug != SAMPLE_CATEGORIES[j].slug
  {
  }

  /** seedCategories: the five sample categories, only into an empty table; returns how many were added. */
  method SeedCategories(db: Database) returns (added: nat)
    requires db.Valid()
    modifies db`categories, db`nextId
    ensures db.Valid()
    ensures old(db.categories) != map[] ==> added == 0 && db.categories == old(db.categories) && db.nextId == old(db.nextId)
    ensures old(db.categories) == map[] ==>
              && added == |SAMPLE_CATEGORIES|
              && db.categories == Numbered(SAMPLE_CATEGORIES, old(db.nextId))
              && db.nextId == old(db.nextId) + added
    // A second run therefore finds the table filled and adds nothing.
    ensures db.categories != map[]
  {
    if db.categories != map[] {
      return 0;
    }
    var first := db.nextId;
    db.categories := Numbered(SAMPLE_CATEGORIES, first);
    db.nextId := first + |SAMPLE_CATEGORIES|;
    assert first in db.categories;
    SampleSlugsDistinct();
    assert UniqueCategorySlugs(db.categories) by {
      forall a, b | a in db.categories && b in db.categories && db.categories[a].slug == db.categories[b].slug
        ensures a == b
      {
        assert db.categories[a] == SAMPLE_CATEGORIES[a - first];
        assert db.categories[b] == SAMPLE_CATEGORIES[b - first];
      }
    }
    assert db.IdsFresh();
    assert db.Unique();
    assert db.ForeignKeys();
    return |SAMPLE_CATEGORIES|;
  }

  /** One entry of the sample product list; the category is named by its slug. */
  datatype SampleProduct = SampleProduct(
    name: string,
    slug: string,
    price: real,
    discountPercent: Option<real>,
    stock: int,
    categorySlug: string,
    featured: Option<bool>)

  const SAMPLE_PRODUCTS: seq<SampleProduct> := [
    SampleProduct("Wireless Bluetooth Headphones", "wireless-bluetooth-headphones", 149.99, Some(10.0), 50, "electronics", Some(true)),
    SampleProduct("Smart Watch Pro", "smart-watch-pro", 299.99, None, 30, "electronics", Some(true)),
    SampleProduct("Ultra-Slim Laptop", "ultra-slim-laptop", 999.99, None, 20, "electronics", Some(true)),
    SampleProduct("Classic Cotton T-Shirt", "classic-cotton-tshirt", 29.99, Some(15.0), 200, "clothing", None),
    SampleProduct("Slim Fit Jeans", "slim-fit-jeans", 49.99, None, 150, "clothing", None),
    SampleProduct("Hooded Sweatshirt", "hooded-sweatshirt", 39.99, None, 100, "clothing", None),
    SampleProduct("Running Shoes Elite", "running-shoes-elite", 129.99, None, 75, "sports", Some(true)),
    SampleProduct("Yoga Mat Non-Slip", "yoga-mat-non-slip", 19.99, None, 120, "sports", None),
    SampleProduct("Adjustable Dumbbells", "adjustable-dumbbells", 89.99, None, 45, "sports", None),
    SampleProduct("Bestseller Novel Collection", "bestseller-novel-collection", 49.99, Some(20.0), 100, "books", None),
    SampleProduct("Gourmet Cookbook", "gourmet-cookbook", 34.99, None, 60, "books", None),
    SampleProduct("Science Fiction Masterpiece", "science-fiction-masterpiece", 14.99, None, 150, "books", None),
    SampleProduct("Garden Tool Set", "garden-tool-set", 79.99, None, 40, "home-garden", None),
    SampleProduct("Ceramic Plant Pot", "ceramic-plant-pot", 24.99, None, 80, "home-garden", None),
    SampleProduct("Professional Knife Set", "professional-knife-set", 119.99, None, 25, "home-garden", None)
  ]

  /** The id the category map gives a slug; an unknown slug gives no category. */
  function CategoryFor(categories: map<Id, Category>, bound: nat, slug: string): (r: Option<Id>)
    ensures r.Some? ==> r.value in categories && categories[r.value].slug == slug
    ensures r.None? ==> forall c :: c in categories && c < bound ==> categories[c].slug != slug
  {
    FirstWhere(categories, bound, (c: Category) => c.slug == slug)
  }

  /** The products row of a sample; absent columns take their defaults. */
  function SampleRow(s: SampleProduct, categories: map<Id, Category>, bound: nat, now: Time): Product
  {
    Product(s.name, s.slug, s.price, Some(s.discountPercent.GetOr(DEFAULT_DISCOUNT_PERCENT)), s.stock,
            CategoryFor(categories, bound, s.categorySlug), s.featured.GetOr(DEFAULT_FEATURED), DEFAULT_ACTIVE, now, now)
  }

  /** The slugs of the sample categories, in order. */
  function SampleCategorySlugs(): (r: seq<string>)
    ensures |r| == |SAMPLE_CATEGORIES| && forall i :: 0 <= i < |r| ==> r[i] == SAMPLE_CATEGORIES[i].slug
  {
    seq(|SAMPLE_CATEGORIES|, i requires 0 <= i < |SAMPLE_CATEGORIES| => SAMPLE_CATEGORIES[i].slug)
  }

  /** The fifteen sample products have distinct slugs. */
  lemma SampleProductSlugsDistinct()
    ensures |SAMPLE_PRODUCTS| == 15
    ensures forall i, j :: 0 <= i < j < |SAMPLE_PRODUCTS| ==> SAMPLE_PRODUCTS[i].slug != SAMPLE_PRODUCTS[j].slug
  {
  }

  /** Every sample product names one of the sample categories. */
  lemma SampleProductCategoriesKnown()
    ensures forall i :: 0 <= i < |SAMPLE_PRODUCTS| ==> SAMPLE_PRODUCTS[i].categorySlug in SampleCategorySlugs()
  {
    assert SampleCategorySlugs() == ["electronics", "clothing", "home-garden", "sports", "books"];
  }

  /** Every sample product has a non-negative stock, a discount between 0 and 100, and a row that fits its columns. */
  lemma SampleProductsFit(categories: map<Id, Category>, bound: nat, now: Time)
    ensures forall i :: 0 <= i < |SAMPLE_PRODUCTS| ==>
              && SAMPLE_PRODUCTS[i].stock >= 0
              && 0.0 <= SAMPLE_PRODUCTS[i].discountPercent.GetOr(DEFAULT_DISCOUNT_PERCENT) <= 100.0
              && ProductFits(SampleRow(SAMPLE_PRODUCTS[i], categories, bound, now))
  {
  }

  /** The products table and the id counter of a seeding run. */
  datatype Seeded = Seeded(products: map<Id, Product>, nextId: Id)

  /**
   * The state a seedProducts run leaves after the samples `samples`, started on
   * `products` with the counter at `next`: sample by sample, a slug the table
   * already has is skipped and any other sample is inserted under the next id.
   */
  function Seeding(products: map<Id, Product>, next: Id, samples: seq<SampleProduct>,
                   categories: map<Id, Category>, bound: nat, now: Time): (r: Seeded)
    ensures r.nextId >= next
  {
    if samples == [] then Seeded(products, next)
    else
      var t := Seeding(products, next, samples[..|samples| - 1], categories, bound, now);
      var s := samples[|samples| - 1];
      if ProductSlugTaken(t.products, s.slug) then t
      else Seeded(t.products[t.nextId := SampleRow(s, categories, bound, now)], t.nextId + 1)
  }

  /**
   * A run keeps every existing row as it was and adds rows exactly under the
   * ids it drew, so the count of new rows is the advance of the counter.
   */
  lemma {:induction false} SeedingKeepsRows(products: map<Id, Product>, next: Id, samples: seq<SampleProduct>,
                                            categories: map<Id, Category>, bound: nat, now: Time)
    requires forall k :: k in products ==> k < next
    ensures var t := Seeding(products, next, samples, categories, bound, now);
            && (forall k :: k in t.products <==> k in products || next <= k < t.nextId)
            && (forall k :: k in products ==> t.products[k] == products[k])
  {
    if samples != [] {
      SeedingKeepsRows(products, next, samples[..|samples| - 1], categories, bound, now);
    }
  }

  /** Each new row is the row of a sample whose slug no existing product had. */
  lemma {:induction false} SeedingAddsSamples(products: map<Id, Product>, next: Id, samples: seq<SampleProduct>,
                                              categories: map<Id, Category>, bound: nat, now: Time)
    requires forall k :: k in products ==> k < next
    ensures var t := Seeding(products, next, samples, categories, bound, now);
            forall k :: k in t.products && k !in products ==>
              exists j :: 0 <= j < |samples| && t.products[k] == SampleRow(samples[j], categories, bound, now)
                          && !ProductSlugTaken(products, samples[j].slug)
  {
    if samples != [] {
      var init := samples[..|samples| - 1];
      var s := samples[|samples| - 1];
      SeedingAddsSamples(products, next, init, categories, bound, now);
      SeedingKeepsRows(products, next, init, categories, bound, now);
      var t0 := Seeding(products, next, init, categories, bound, now);
      var t := Seeding(products, next, samples, categories, bound, now);
      forall k | k in t.products && k !in products
        ensures exists j :: 0 <= j < |samples| && t.products[k] == SampleRow(samples[j], categories, bound, now)
                            && !ProductSlugTaken(products, samples[j].slug)
      {
        if k in t0.products {
          assert t.products[k] == t0.products[k];
          var j :| 0 <= j < |init| && t0.products[k] == SampleRow(init[j], categories, bound, now)
                   && !ProductSlugTaken(products, init[j].slug);
          assert samples[j] == init[j];
        } else {
          assert !ProductSlugTaken(t0.products, s.slug);
          forall id | id in products
            ensures products[id].slug != s.slug
          {
            assert t0.products[id] == products[id];
          }
          assert samples[|samples| - 1] == s;
        }
      }
    }
  }

  /** After a run, every sample's slug names a product. */
  lemma {:induction false} SeedingCoversSamples(products: map<Id, Product>, next: Id, samples: seq<SampleProduct>,
                                                categories: map<Id, Category>, bound: nat, now: Time)
    requires forall k :: k in products ==> k < next
    ensures var t := Seeding(products, next, samples, categories, bound, now);
            forall i :: 0 <= i < |samples| ==> ProductSlugTaken(t.products, samples[i].slug)
  {
    if samples != [] {
      var init := samples[..|samples| - 1];
      var s := samples[|samples| - 1];
      SeedingCoversSamples(products, next, init, categories, bound, now);
      SeedingKeepsRows(products, next, init, categories, bound, now);
      var t0 := Seeding(products, next, init, categories, bound, now);
      var t := Seeding(products, next, samples, categories, bound, now);
      forall i | 0 <= i < |samples|
        ensures ProductSlugTaken(t.products, samples[i].slug)
      {
        if i < |init| {
          assert samples[i] == init[i];
          var id :| id in t0.products && t0.products[id].slug == init[i].slug;
          assert t.products[id].slug == init[i].slug;
        } else if !ProductSlugTaken(t0.products, s.slug) {
          assert t.products[t0.nextId].slug == s.slug;
        }
      }
    }
  }

  /** A run over samples whose slugs are all taken changes nothing. */
  lemma {:induction false} SeedingAllTaken(products: map<Id, Product>, next: Id, samples: seq<SampleProduct>,
                                           categories: map<Id, Category>, bound: nat, now: Time)
    requires forall i :: 0 <= i < |samples| ==> ProductSlugTaken(products, samples[i].slug)
    ensures Seeding(products, next, samples, categories, bound, now) == Seeded(products, next)
  {
    if samples != [] {
      SeedingAllTaken(products, next, samples[..|samples| - 1], categories, bound, now);
    }
  }

  /** Running seedProducts a second time on the state the first run left changes nothing and adds 0. */
  lemma SeedingIdempotent(products: map<Id, Product>, next: Id, samples: seq<SampleProduct>,
                          categories: map<Id, Category>, bound: nat, now: Time)
    requires forall k :: k in products ==> k < next
    ensures var t := Seeding(products, next, samples, categories, bound, now);
            Seeding(t.products, t.nextId, samples, categories, bound, now) == t
  {
    var t := Seeding(products, next, samples, categories, bound, now);
    SeedingCoversSamples(products, next, samples, categories, bound, now);
    SeedingAllTaken(t.products, t.nextId, samples, categories, bound, now);
  }

  /** One turn of the seedProducts loop: the sample is inserted when no product has its slug. */
  method InsertSample(db: Database, s: SampleProduct, categories: map<Id, Category>, bound: nat, now: Time)
    returns (inserted: bool)
    requires db.Valid() && db.categories == categories
    modifies db`products, db`nextId
    ensures db.Valid()
    ensures inserted <==> !ProductSlugTaken(old(db.products), s.slug)
    ensures inserted ==> db.nextId == old(db.nextId) + 1 && db.products == old(db.products)[old(db.nextId) := SampleRow(s, categories, bound, now)]
    ensures !inserted ==> db.nextId == old(db.nextId) && db.products == old(db.products)
  {
    if ProductSlugTaken(db.products, s.slug) {
      return false;
    }
    var id := db.FreshId();
    db.products := db.products[id := SampleRow(s, categories, bound, now)];
    assert db.IdsFresh();
    assert db.Unique();
    assert db.ForeignKeys();
    return true;
  }

  /**
   * seedProducts: the category map is read once; then each sample whose slug is
   * not in the table yet is inserted, and addedCount counts the inserts.
   */
  method SeedProducts(db: Database, samples: seq<SampleProduct>, now: Time) returns (addedCount: nat)
    requires db.Valid()
    modifies db`products, db`nextId
    ensures db.Valid()
    ensures var t := Seeding(old(db.products), old(db.nextId), samples, db.categories, old(db.nextId), now);
            db.products == t.products && db.nextId == t.nextId
    ensures addedCount == db.nextId - old(db.nextId)
  {
    var products0, first, categories := db.products, db.nextId, db.categories;
    addedCount := 0;
    for i := 0 to |samples|
      invariant db.Valid() && db.categories == categories
      invariant db.products == Seeding(products0, first, samples[..i], categories, first, now).products
      invariant db.nextId == Seeding(products0, first, samples[..i], categories, first, now).nextId
      invariant db.nextId == first + addedCount
    {
      assert samples[..i + 1][..i] == samples[..i];
      var added := InsertSample(db, samples[i], categories, first, now);
      if added {
        addedCount := addedCount + 1;
      }
    }
    assert samples[..|samples|] == samples;
  }

  /** The two reviews and the two questions seeded for one product. */
  const PRAISE_OPENING := "Absolutely love this "
  const PRAISE_CLOSING := "! High quality and worth every penny."
  const SECOND_REVIEW := "Great product, fast delivery. Very satisfied with my purchase."
  const DURABILITY_OPENING := "Is this "
  const DURABILITY_CLOSING := " durable?"
  const DURABILITY_ANSWER := "Yes, it is designed with high-quality materials to ensure long-lasting durability."
  const WARRANTY_QUESTION := "What is the warranty period?"
  const WARRANTY_ANSWER := "All our products come with a standard 12-month manufacturer warranty."

  function ProductReviews(productId: Id, productName: string, adminId: Id): seq<Review>
  {
    [Review(productId, adminId, 5, PRAISE_OPENING + productName + PRAISE_CLOSING),
     Review(productId, adminId, 4, SECOND_REVIEW)]
  }

  function ProductQuestions(productId: Id, productName: string): seq<ProductQA>
  {
    [ProductQA(productId, DURABILITY_OPENING + productName + DURABILITY_CLOSING, DURABILITY_ANSWER),
     ProductQA(productId, WARRANTY_QUESTION, WARRANTY_ANSWER)]
  }

  /** The reviews seeded for the products `ids`, in order: two per product, rated 5 and 4, by the admin. */
  function SeededReviews(products: map<Id, Product>, ids: seq<Id>, adminId: Id): (r: seq<Review>)
    requires forall i :: 0 <= i < |ids| ==> ids[i] in products
    ensures |r| == 2 * |ids|
  {
    if ids == [] then []
    else
      var last := ids[|ids| - 1];
      SeededReviews(products, ids[..|ids| - 1], adminId) + ProductReviews(last, products[last].name, adminId)
  }

  /** The questions seeded for the products `ids`, in order: two per product. */
  function SeededQuestions(products: map<Id, Product>, ids: seq<Id>): (r: seq<ProductQA>)
    requires forall i :: 0 <= i < |ids| ==> ids[i] in products
    ensures |r| == 2 * |ids|
  {
    if ids == [] then []
    else
      var last := ids[|ids| - 1];
      SeededQuestions(products, ids[..|ids| - 1]) + ProductQuestions(last, products[last].name)
  }

  /**
   * The seeded rows, position by position: rows 2i and 2i + 1 belong to product
   * ids[i]; the reviews are the admin's, rated 5 then 4.
   */
  lemma {:induction false} SeededRowsShape(products: map<Id, Product>, ids: seq<Id>, adminId: Id)
    requires forall i :: 0 <= i < |ids| ==> ids[i] in products
    ensures var r := SeededReviews(products, ids, adminId);
            forall j :: 0 <= j < |r| ==> r[j].productId == ids[j / 2] && r[j].userId == adminId && r[j].rating == (if j % 2 == 0 then 5 else 4)
    ensures var q := SeededQuestions(products, ids);
            forall j :: 0 <= j < |q| ==> q[j].productId == ids[j / 2]
  {
    if ids != [] {
      var init := ids[..|ids| - 1];
      SeededRowsShape(products, init, adminId);
      var r := SeededReviews(products, ids, adminId);
      var q := SeededQuestions(products, ids);
      forall j | 0 <= j < |r|
        ensures r[j].productId == ids[j / 2] && r[j].userId == adminId && r[j].rating == (if j % 2 == 0 then 5 else 4)
      {
        if j < 2 * |init| {
          assert r[j] == SeededReviews(products, init, adminId)[j];
          assert ids[j / 2] == init[j / 2];
        }
      }
      forall j | 0 <= j < |q|
        ensures q[j].productId == ids[j / 2]
      {
        if j < 2 * |init| {
          assert q[j] == SeededQuestions(products, init)[j];
          assert ids[j / 2] == init[j / 2];
        }
      }
    }
  }

  /**
   * seedReviewsAndQA: nothing when any review exists or there is no admin;
   * otherwise, product by product, two reviews by the first admin and two
   * questions with answers.
   */
  method SeedReviewsAndQA(db: Database) returns (seededProducts: nat)
    requires db.Valid()
    modifies db`reviews, db`qas
    ensures db.Valid()
    ensures old(db.reviews) != [] || (forall u :: u in db.users ==> !IsAdmin(db.users[u])) ==>
              seededProducts == 0 && db.reviews == old(db.reviews) && db.qas == old(db.qas)
    ensures old(db.reviews) == [] && (exists u :: u in db.users && IsAdmin(db.users[u])) ==>
              var ids := IdsBelow(db.products, db.nextId);
              var admin := FirstWhere(db.users, db.nextId, IsAdmin);
              && admin.Some?
              && seededProducts == |db.products|
              && db.reviews == SeededReviews(db.products, ids, admin.value)
              && db.qas == old(db.qas) + SeededQuestions(db.products, ids)
  {
    if db.reviews != [] {
      return 0;
    }
    var productList := IdsBelow(db.products, db.nextId);
    var adminUser := FirstWhere(db.users, db.nextId, IsAdmin);
    assert db.IdsFresh();
    if adminUser.None? {
      return 0;
    }
    SeedEachProduct(db, productList, adminUser.value);
    IdsBelowCoversTable(db.products, db.nextId);
    return |productList|;
  }

  /** The loop of seedReviewsAndQA: the feedback of each listed product, in order, after the reviews already there. */
  method SeedEachProduct(db: Database, productList: seq<Id>, adminId: Id)
    requires db.Valid() && adminId in db.users
    requires forall j :: 0 <= j < |productList| ==> productList[j] in db.products
    modifies db`reviews, db`qas
    ensures db.Valid()
    ensures db.reviews == old(db.reviews) + SeededReviews(db.products, productList, adminId)
    ensures db.qas == old(db.qas) + SeededQuestions(db.products, productList)
  {
    var reviews0, qas0 := db.reviews, db.qas;
    ghost var products := db.products;
    assert productList[..0] == [];
    for i := 0 to |productList|
      invariant db.Valid() && db.products == products
      invariant db.reviews == reviews0 + SeededReviews(products, productList[..i], adminId)
      invariant db.qas == qas0 + SeededQuestions(products, productList[..i])
    {
      SeededStep(products, productList, i, adminId, reviews0, qas0);
      SeedProductFeedback(db, productList[i], adminId);
    }
    assert productList[..|productList|] == productList;
  }

  /** The inserts of one turn of the seedReviewsAndQA loop: two reviews and two questions for one product. */
  method SeedProductFeedback(db: Database, productId: Id, adminId: Id)
    requires db.Valid() && productId in db.products
    requires adminId in db.users
    modifies db`reviews, db`qas
    ensures db.Valid()
    ensures db.reviews == old(db.reviews) + ProductReviews(productId, db.products[productId].name, adminId)
    ensures db.qas == old(db.qas) + ProductQuestions(productId, db.products[productId].name)
  {
    db.reviews := db.reviews + ProductReviews(productId, db.products[productId].name, adminId);
    db.qas := db.qas + ProductQuestions(productId, db.products[productId].name);
    assert db.ForeignKeys();
  }

  /** One turn of the seedReviewsAndQA loop: the rows of product i follow those of the products before it. */
  lemma SeededStep(products: map<Id, Product>, ids: seq<Id>, i: nat, adminId: Id,
                   reviews0: seq<Review>, qas0: seq<ProductQA>)
    requires i < |ids|
    requires forall j :: 0 <= j < |ids| ==> ids[j] in products
    ensures reviews0 + SeededReviews(products, ids[..i + 1], adminId) ==
              reviews0 + SeededReviews(products, ids[..i], adminId) + ProductReviews(ids[i], products[ids[i]].name, adminId)
    ensures qas0 + SeededQuestions(products, ids[..i + 1]) ==
              qas0 + SeededQuestions(products, ids[..i]) + ProductQuestions(ids[i], products[ids[i]].name)
  {
    assert ids[..i + 1][..i] == ids[..i];
  }

  /** Every row of a table whose ids are all below `n` is listed exactly once. */
  lemma IdsBelowCoversTable<T>(m: map<Id, T>, n: nat)
    requires forall k :: k in m ==> k < n
    ensures |IdsBelow(m, n)| == |m|
  {
    var ids := IdsBelow(m, n);
    var listed := set i | 0 <= i < |ids| :: ids[i];
    assert listed == m.Keys;
    DistinctCard(ids);
  }

  lemma {:induction false} DistinctCard(s: seq<Id>)
    requires forall i, j :: 0 <= i < j < |s| ==> s[i] < s[j]
    ensures |set i | 0 <= i < |s| :: s[i]| == |s|
  {
    if s != [] {
      var init := s[..|s| - 1];
      DistinctCard(init);
      var a := set i | 0 <= i < |init| :: init[i];
      var b := set i | 0 <= i < |s| :: s[i];
      assert b == a + {s[|s| - 1]};
      assert s[|s| - 1] !in a;
    }
  }
}
