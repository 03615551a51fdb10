# Shop backend and storefront: a Dafny model

This project models the order, cart and payment lifecycle of a small online shop. The backend is an HTTP API over a relational database (users, categories, products, carts and cart items, orders and order items, reviews, product questions). The storefront is a browser client that keeps a guest cart, sends orders and payments, and shows an admin dashboard. The model covers:

- **Database** (`Schema`): one `Database` object holding every table as a map from row id to row, with one id counter. Its `Valid()` invariant covers fresh ids, the unique columns (user email, category and product slug, one cart per user), the cart-line shape, and every foreign key, including the user of each order, cart and review. The cart and order handlers take the caller's id as a user that exists, which `authMiddleware` has already checked (backend/src/middleware/auth.ts:35-42). Column widths and numeric ranges are separate predicates (`UserFits`, `ProductFits`, ...) that the inserting and updating handlers check, answering 500 when a value does not fit.
- **Backend route handlers**: cart, orders, payments, products, categories, auth, and the two auth middlewares. Each is a method that changes only the tables it names and keeps `Valid()`. Every refused request leaves the database unchanged, except that POST /cart may already have created the cart. The promises of the routes are lemmas over specification functions such as `AddLine`, `Decremented`, `MarkProcessing` and `ListingPage`.
- **Seeding script**: the password generator loop, and the four seeding steps that skip whatever is already present.
- **Storefront, guest cart and pricing**:
  - the guest cart, a `seq` of lines held by a class and replaced by each action, with its derived figures;
  - the shared discount rule and the 8% tax;
  - the admin dashboard's revenue, pending count, filter and status replacement.
- **Storefront, page logic**:
  - the checkout step machine and its redirect guards;
  - the API client's headers, error decision and query strings;
  - the testimonial carousel index;
  - the product card's price and stock indicator.

Foreign code has no visible body here, so it becomes a parameter of the operations that call it:
- bcrypt `hash`/`compare`, JWT `sign`/`verify` and `crypto.randomBytes`;
- `parseFloat` and the URL form encoding;
- the clock;
- the Stripe SDK and its webhook signature check. The SDK is the small `PaymentRoutes.Processor` class, which assigns intent ids in sequence. The signature check is an outcome parameter.

Money is `real`. `toFixed(2)` is `Pricing.ToFixed2`, which rounds half away from zero at the cent. `Math.round` is `Pricing.RoundHalfUp`, the floor of x + 1/2. Row ids are natural numbers drawn from the counter in place of random uuids.

## Model

| member | source | states |
|---|---|---|
| Schema.ParseStatus | backend/src/db/schema.ts:6 | a status string is accepted iff it is one of the five enum names, and it parses to the value with that name |
| Schema.StatusNameRoundTrip | backend/src/db/schema.ts:6 | every status is written with one of the five names and parses back to itself |
| Schema.Database.FreshId | backend/src/db/schema.ts:10 | a new row id differs from every id in use, which stands in for the random uuid default |
| Schema.Database.InsertUser | backend/src/db/schema.ts:9-11 | a user whose email no row holds is inserted under a fresh id and the store stays consistent: emails stay unique and every foreign key still holds |
| Schema.Database.InsertOrder | backend/src/db/schema.ts:49-51 | an order of an existing user is inserted under a fresh id, which no order held before, and the store stays consistent |
| Schema.Database.UpdateOrder | backend/src/db/schema.ts:49-51 | rewriting an order row while keeping its owner leaves the store consistent; only that row changes |
| Schema.FirstWhere | backend/src/db/seed.ts:27-29 | `findFirst` with a where clause: a found row satisfies the condition and no row before it does; none found means no row does |
| Schema.IdsBelow | backend/src/db/seed.ts:311 | `findMany`: every row id once, in increasing order |
| CartRoutes.AddLine | backend/src/routes/cart.ts:64-76 | adding to a cart's lines leaves exactly the old products plus the added one |
| CartRoutes.SetLine | backend/src/routes/cart.ts:118-131 | setting a quantity never adds a product to the cart |
| CartRoutes.RemoveLine | backend/src/routes/cart.ts:147-151 | after the delete the product has no line |
| CartRoutes.AddAccumulates | backend/src/routes/cart.ts:57-68 | a product already in the cart gets old + requested quantity; every other line is unchanged |
| CartRoutes.AddNewLine | backend/src/routes/cart.ts:69-76 | a product not in the cart gets one new line with the requested quantity, and the cart has one more line |
| CartRoutes.AddThenRemoveRestores | backend/src/routes/cart.ts:69-76 | adding a product that was not in the cart and then deleting it restores the old lines |
| CartRoutes.SetNonPositiveRemoves | backend/src/routes/cart.ts:118-123 | a quantity of 0 or less acts as deleting the line |
| CartRoutes.SetPositive | backend/src/routes/cart.ts:124-131 | a positive quantity replaces only the matching line; for a product not in the cart nothing changes |
| CartRoutes.AddTwoThenSetFive | backend/scripts/test-cart.ts:64-108 | adding 2 and then setting 5 leaves a line of 5, whatever the cart held |
| CartRoutes.FindOrCreateCart | backend/src/routes/cart.ts:45-54 | returns the user's existing cart and changes nothing, or creates exactly one new, empty cart under a fresh id |
| CartRoutes.CreateCart | backend/src/routes/cart.ts:49-54 | the insert gives the user a cart with no lines under a fresh id and keeps the database valid |
| CartRoutes.ShapeAfterCreate | backend/src/db/schema.ts:73-77 | one cart per user, and no cart rows without a user, survive inserting a cart for a user with none |
| CartRoutes.ShapeAfterWrite | backend/src/db/schema.ts:73-77 | rewriting an existing cart's lines keeps one cart per user |
| CartRoutes.GetCart | backend/src/routes/cart.ts:14-38 | returns the user's lines unchanged; a user with no cart gets exactly one new, empty cart, so a second call creates none |
| CartRoutes.AddItem | backend/src/routes/cart.ts:41-91 | the cart is found or created; then the product's line accumulates or is new, with quantity 1 when none is given; an unknown product, or a resulting quantity outside the integer column, gives 500 after the cart was created, with no line added or changed |
| CartRoutes.AddToCart | backend/src/routes/cart.ts:56-76 | the one line write of POST /cart: it succeeds exactly when the product exists and the new quantity fits the integer column, and otherwise leaves the lines alone with 500 |
| CartRoutes.SetQuantity | backend/src/routes/cart.ts:94-134 | 404 with no change when the user has no cart; 500 with no change for a quantity above 2147483647; otherwise only that cart's lines change, as SetLine says |
| CartRoutes.RemoveItem | backend/src/routes/cart.ts:137-154 | 404 with no change when the user has no cart; otherwise only that product's line is deleted |
| CartRoutes.ClearCart | backend/src/routes/cart.ts:157-169 | always succeeds; the user's cart ends with no lines, and with no cart nothing changes |
| Pricing.ClientPriceIsDiscountedPrice | frontend/src/lib/utils.ts:16-20 | the storefront's price is the shared rule applied to the parsed fields; an absent or empty discount leaves the parsed price |
| Pricing.NoDiscountKeepsPrice | frontend/src/lib/utils.ts:18-19 | no discount, or a discount of 0, leaves the price unchanged |
| Pricing.DiscountWithinPrice | frontend/src/lib/utils.ts:19 | for a price of at least 0 and a discount from 0 to 100 the result lies between 0 and the price, and a discount of 100 gives 0 |
| Pricing.DiscountAntitone | frontend/src/lib/utils.ts:19 | for a fixed price of at least 0 a larger discount never gives a larger result |
| Pricing.DiscountAboveHundredIsNegative | frontend/src/lib/utils.ts:19 | a discount above 100, which the product validator accepts, gives a negative price |
| Pricing.RoundHalfUp | backend/src/routes/payments.ts:54 | Math.round lands within half a unit of its argument |
| Pricing.ToFixed2 | backend/src/routes/orders.ts:115-128 | toFixed(2) yields whole cents within half a cent of the value, and keeps the sign |
| Pricing.CentsAreCents | backend/src/routes/orders.ts:125-128 | a number of cents divided by 100 is a whole number of cents |
| Pricing.ToFixed2OfCents | backend/src/routes/orders.ts:115-128 | toFixed(2) leaves an amount that is already whole cents unchanged |
| Pricing.AmountInCentsExact | backend/src/routes/payments.ts:54 | for a stored total the conversion to cents is exact |
| Pricing.StoredAmounts | backend/src/routes/orders.ts:119-128 | all three stored amounts are whole cents, and the stored total is within 1.5 cents of stored subtotal plus stored tax |
| Pricing.StoredTotalMayDifferFromSum | backend/src/routes/orders.ts:119-128 | since each amount is rounded on its own, the stored total can differ from subtotal plus tax: 0.00465 stores 0.00, 0.00 and 0.01 |
| OrderRoutes.FinalPriceIsDiscountedPrice | backend/src/routes/orders.ts:105-108 | the unit price the server charges, with a missing discount read as 0, is the storefront's discounted price |
| OrderRoutes.LineFailure | backend/src/routes/orders.ts:93-103 | a line fails iff its product is missing or has less stock than requested, and a failure is a 400 |
| OrderRoutes.FirstFailure | backend/src/routes/orders.ts:92-103 | no failure iff every line passes its check; otherwise the failure is that of a line all of whose predecessors pass |
| OrderRoutes.FirstFailurePrefix | backend/src/routes/orders.ts:92-103 | a failure among the first k lines is the failure of the whole request, since the loop returns there |
| OrderRoutes.SubtotalNonNegative | backend/src/routes/orders.ts:105-110 | with non-negative prices, discounts of at most 100 and quantities of at least 1, the subtotal is at least 0 |
| OrderRoutes.PricedLines | backend/src/routes/orders.ts:112-116 | one priced line per request line, in request order, each frozen at the product's final price |
| OrderRoutes.Attach | backend/src/routes/orders.ts:134-139 | one order_items row per priced line, in order, each carrying the new order's id |
| OrderRoutes.Decremented | backend/src/routes/orders.ts:142-158 | the stock loop keeps the same set of products |
| OrderRoutes.DecrementedStock | backend/src/routes/orders.ts:101-158 | each product loses the total quantity of all its lines and nothing else about it changes |
| OrderRoutes.QuantityOfAbsent | backend/src/routes/orders.ts:142-158 | a product no line names loses no stock |
| OrderRoutes.QuantityOfCoversLine | backend/src/routes/orders.ts:101-158 | a product's total quantity is at least that of each of its lines |
| OrderRoutes.QuantityOfNonNegative | backend/src/routes/orders.ts:14 | with quantities that are not negative, a product's total quantity is not negative |
| OrderRoutes.Reserved | backend/src/routes/orders.ts:101 | the corrected check compares each line's product with the whole quantity the order requests of it: lines of one product reserve the same amount, and with non-negative quantities no line reserves less than it asks |
| OrderRoutes.QuantityOfCoversLines | backend/src/routes/orders.ts:101 | with non-negative quantities every line's product is requested at least that line's quantity in total |
| OrderRoutes.DuplicateLineOversell | backend/src/routes/orders.ts:101-158 | two lines of one unit for a product with one in stock both pass the check as written and leave stock -1; the corrected check refuses them |
| OrderRoutes.ReservedNeverOversells | backend/src/routes/orders.ts:101-158 | under the corrected check no product with stock of at least 0 is left below 0 |
| OrderRoutes.ReservedImpliesLineChecks | backend/src/routes/orders.ts:101 | every order the corrected check passes also passes the per-line check |
| OrderRoutes.PriceItems | backend/src/routes/orders.ts:89-117 | the pricing loop returns the first failing line's 400, or the priced lines and the sum of final price times quantity |
| OrderRoutes.PlaceOrder | backend/src/routes/orders.ts:122-158 | a fresh order row, its item rows appended, and the stock loop, keeping the database valid |
| OrderRoutes.WriteOrder | backend/src/routes/orders.ts:122-139 | the order row is inserted under a fresh id and its items are appended, with their foreign keys intact |
| OrderRoutes.LowerStock | backend/src/routes/orders.ts:142-158 | only stock changes, as Decremented says, and the database stays valid |
| OrderRoutes.DecrementStock | backend/src/routes/orders.ts:142-158 | the loop re-reads each line's product and writes back its stock less the line's quantity |
| OrderRoutes.CreateOrder | backend/src/routes/orders.ts:82-178 | a body with no lines, a quantity below 1 or no address gives the validation 400; a missing product or short stock gives that line's 400 with nothing written; an order row whose rounded subtotal, tax or total does not fit decimal(10,2) gives 500 with nothing written; otherwise a PENDING order of the caller with subtotal, 8% tax and total, its frozen items, and stock lowered line by line |
| OrderRoutes.CreateOrderReserved | backend/src/routes/orders.ts:82-178 | the corrected handler: the same outcomes, including the 500 for amounts too large for their columns, checked per product total, and no stock of at least 0 ends below 0 |
| OrderRoutes.Commit | backend/src/routes/orders.ts:119-170 | the returned order is the inserted row with exactly its new items |
| OrderRoutes.NewItemsOnly | backend/src/routes/orders.ts:160-168 | rows written before the order existed never belong to it, so the order is read back with exactly the new items |
| OrderRoutes.GetOrder | backend/src/routes/orders.ts:49-79 | 404 for a missing order, 403 unless the caller owns it or is ADMIN, otherwise the order and its items |
| OrderRoutes.NewestFirstSorted | backend/src/routes/orders.ts:38 | ordering by creation time descending keeps the same orders, lists none twice that the input listed once, and puts newer ones first |
| OrderRoutes.ListUserOrders | backend/src/routes/orders.ts:27-46 | exactly the caller's orders, each once, newest first |
| OrderRoutes.StatusQuery | backend/src/routes/orders.ts:183-186 | no status or an empty one means no filter; anything else must be an enum name, and then filters by that status |
| OrderRoutes.AdminWindowSound | backend/src/routes/orders.ts:185-196 | the admin page holds at most limit orders, each with the wanted status and, for distinct ids, once, newest first |
| OrderRoutes.AdminListOrders | backend/src/routes/orders.ts:181-203 | limit defaults to 50 and offset to 0; an unknown status or a negative limit or offset makes the query fail with 500 |
| OrderRoutes.UpdateStatus | backend/src/routes/orders.ts:206-232 | any of the five statuses may follow any status; an unknown one is a validation 400, a missing order 404; only status and updatedAt change |
| OrderRoutes.FrozenPrices | backend/src/routes/orders.ts:105-116 | every line keeps its product and quantity and is frozen at the product's current final price to the nearest cent: whole cents, within half a cent, and exact when the price already is in cents |
| PaymentRoutes.Processor.Create | backend/src/routes/payments.ts:53-71 | the processor records exactly one new intent, under an id it never used |
| PaymentRoutes.Processor.Retrieve | backend/src/routes/payments.ts:48 | an intent is found iff the processor has it |
| PaymentRoutes.CreatePaymentIntent | backend/src/routes/payments.ts:22-89 | a body without an order id gives the validation 400; 404 for a missing order, 403 for another user's order, with nothing changed; an order with an intent gets that intent's secret and nothing changes, or 500 when the processor cannot retrieve it; otherwise one intent of round(total × 100) cents in usd for that order and user is created and its id recorded on the order; the link between orders and intents is kept |
| PaymentRoutes.MarkProcessing | backend/src/routes/payments.ts:110-117 | the paid order becomes PROCESSING whatever its status was; every other order is unchanged |
| PaymentRoutes.ClearUserCart | backend/src/routes/payments.ts:121-131 | the payer's cart, if there is one, ends with no lines; every other cart is unchanged |
| PaymentRoutes.WebhookReplayIdempotent | backend/src/routes/payments.ts:105-131 | delivering the same successful payment a second time, at any later clock, leaves the orders and carts as a single delivery at that later clock: only updatedAt moves |
| PaymentRoutes.PaymentOverridesAnyStatus | backend/src/routes/payments.ts:111-116 | a payment for a DELIVERED or CANCELLED order moves it back to PROCESSING |
| PaymentRoutes.MarkOrderPaid | backend/src/routes/payments.ts:110-119 | the orders table becomes MarkProcessing of the old one, keeping every foreign key |
| PaymentRoutes.ClearPayerCart | backend/src/routes/payments.ts:121-131 | the cart lines become ClearUserCart of the old ones, keeping the cart shape |
| PaymentRoutes.HandleWebhook | backend/src/routes/payments.ts:92-152 | a missing signature or secret gives 400, and a payload that fails verification 400, both with nothing changed; a successful payment marks the order and clears the cart; a failed payment or any other event changes nothing and is acknowledged |
| PaymentRoutes.GetPaymentStatus | backend/src/routes/payments.ts:155-187 | 404 for a missing order and 403 for another user's; not_started when the order has no intent; otherwise the intent's status with the order's id and status |
| CartContext.IsInCart | frontend/src/context/CartContext.tsx:166-168 | true iff some line is for that product |
| CartContext.Bumped | frontend/src/context/CartContext.tsx:99-103 | the same lines in the same order, the product's lines raised by the quantity and every other line as it was |
| CartContext.UpdateIn | frontend/src/context/CartContext.tsx:144-148 | the same lines in the same order, the product's lines holding the new quantity and every other line as it was |
| CartContext.Tax | frontend/src/context/CartContext.tsx:177 | the tax of a cart with a non-negative subtotal is between 0 and the subtotal |
| CartContext.SubtotalAppend | frontend/src/context/CartContext.tsx:172-175 | the subtotal of two runs of lines is the sum of their subtotals |
| CartContext.TaxAdditive | frontend/src/context/CartContext.tsx:177-178 | the unrounded tax and total of a cart are the sums of those of any split of its lines |
| CartContext.Total | frontend/src/context/CartContext.tsx:177-178 | the total is 1.08 times the subtotal |
| CartContext.QuantityOfAbsent | frontend/src/context/CartContext.tsx:166-168 | a product not in the cart has quantity 0 in it |
| CartContext.ItemCountBump | frontend/src/context/CartContext.tsx:99-103 | raising a product's lines by q raises the item count by q per such line |
| CartContext.MulSucc | frontend/src/context/CartContext.tsx:99-103 | one more line of q adds q to the total of n such lines |
| CartContext.QuantityOfBump | frontend/src/context/CartContext.tsx:99-103 | raising a product's lines by q raises that product's quantity by q per line and no other product's |
| CartContext.OccurrencesDistinct | frontend/src/context/CartContext.tsx:97-105 | with distinct ids a product has one line if it is in the cart and none otherwise |
| CartContext.AddToKeepsDistinct | frontend/src/context/CartContext.tsx:96-106 | a guest addItem keeps the product ids of the lines distinct |
| CartContext.AddToQuantities | frontend/src/context/CartContext.tsx:96-106 | a guest addItem adds the quantity to that product, on its existing line or a new one, and to no other |
| CartContext.AddToItemCount | frontend/src/context/CartContext.tsx:96-106 | a guest addItem raises the item count by exactly the quantity added |
| CartContext.AddThenRemove | frontend/src/context/CartContext.tsx:105-119 | adding a product that was not in the cart and then removing it gives back the cart |
| CartContext.RemoveFromItemCount | frontend/src/context/CartContext.tsx:119 | removeItem leaves no line for the product and lowers the item count by its quantity |
| CartContext.RemoveFromQuantities | frontend/src/context/CartContext.tsx:119 | removeItem takes away exactly that product's quantity and leaves every other product's alone |
| CartContext.RemoveFromKeepsDistinct | frontend/src/context/CartContext.tsx:119 | removeItem keeps the product ids distinct |
| CartContext.UpdateAbsentUnchanged | frontend/src/context/CartContext.tsx:144-148 | updateQuantity for a product not in the cart leaves the cart unchanged |
| CartContext.UpdateInQuantity | frontend/src/context/CartContext.tsx:144-148 | updateQuantity keeps ids distinct and gives the product exactly the new quantity |
| CartContext.QuantityOfSingle | frontend/src/context/CartContext.tsx:97-105 | with distinct ids the quantity of a product is that of its one line |
| CartContext.GuestCart.constructor | frontend/src/context/CartContext.tsx:28 | the cart starts with no lines |
| CartContext.GuestCart.AddItem | frontend/src/context/CartContext.tsx:77-106 | the guest addItem, with quantity 1 when none is given; ids stay distinct |
| CartContext.GuestCart.RemoveItem | frontend/src/context/CartContext.tsx:110-121 | the guest removeItem keeps the other lines in order; ids stay distinct |
| CartContext.GuestCart.UpdateQuantity | frontend/src/context/CartContext.tsx:123-150 | a quantity of 0 or less acts exactly as removeItem; any other replaces only the matching line's quantity |
| CartContext.GuestCart.ClearCart | frontend/src/context/CartContext.tsx:152-164 | the guest clearCart leaves no lines |
| ProductRoutes.DotIndex | backend/src/routes/products.ts:15 | the position of the first '.', with no '.' before it |
| ProductRoutes.DecimalTextMeansShape | backend/src/routes/products.ts:15-16 | a price or discount is accepted iff it is one or more digits, optionally followed by '.' and one or two digits |
| ProductRoutes.DecimalValueIsCents | backend/src/routes/products.ts:15-16 | an accepted decimal denotes a non-negative whole number of cents |
| ProductRoutes.WholeNumbersAccepted | backend/src/routes/products.ts:15 | every natural number written in decimal digits passes the price pattern and denotes that number |
| ProductRoutes.DecimalExamples | backend/src/routes/products.ts:15-16 | "19.99" and "150" pass the pattern with their values, and "1.999", ".5" and "5." are refused |
| ProductRoutes.DiscountPatternAllowsNegativePrice | backend/src/routes/products.ts:16 | the pattern does not bound the discount: "150" is accepted and makes every positive price negative |
| ProductRoutes.NewProductDefaults | backend/src/db/schema.ts:38-43 | a product created without discount, featured or active gets discount 0, not featured and active, and sells at its list price |
| ProductRoutes.CreateProduct | backend/src/routes/products.ts:102-126 | an invalid body gives the validation 400; a used slug gives 400 with no insert; an unknown category, or a name, slug, price, discount or stock its column cannot hold, gives 500 with no insert; otherwise exactly one new row under a fresh id |
| ProductRoutes.Patched | backend/src/routes/products.ts:133-136 | the supplied fields replace the old ones (a supplied price or discount by the number its text denotes), updatedAt is set, and every other field is kept |
| ProductRoutes.EmptyPatchOnlyTouches | backend/src/routes/products.ts:136 | an empty patch changes only updatedAt |
| ProductRoutes.PatchProduct | backend/src/routes/products.ts:129-152 | an invalid body gives the validation 400; a missing id 404; a slug used by another product, an unknown category or a supplied value its column cannot hold 500; otherwise only that row changes, as Patched says |
| ProductRoutes.DeleteProduct | backend/src/routes/products.ts:155-172 | a missing id gives 404; a product still referenced by a cart, order, review or question cannot be deleted (500); otherwise only that row is removed |
| ProductRoutes.GetProductBySlug | backend/src/routes/products.ts:80-98 | 404 iff no product has the slug; otherwise a product with that slug, active or not |
| ProductRoutes.ResolveCategory | backend/src/routes/products.ts:33-40 | a category parameter resolves only to a category with that slug; a slug no category has adds no filter |
| ProductRoutes.ConditionsMeanListed | backend/src/routes/products.ts:31-48 | a product meets the built conditions iff it is active, in the resolved category, has the search term in its name, and is featured when featured is "true" |
| ProductRoutes.ListingPageSound | backend/src/routes/products.ts:50-72 | the page holds at most limit products, each listed by the query and, for distinct ids, once, in the sort order; total counts every match regardless of limit and offset |
| ProductRoutes.ListedAreCounted | backend/src/routes/products.ts:65-72 | every listed product is among the counted matches |
| ProductRoutes.PriceSortMeaning | backend/src/routes/products.ts:50-54 | price_asc orders by price ascending, price_desc descending, and anything else newest first |
| ProductRoutes.ListProducts | backend/src/routes/products.ts:27-77 | the listing with limit defaulting to 20 and offset to 0; a negative limit or offset makes the query fail with 500 |
| CategoryRoutes.Summaries | backend/src/routes/categories.ts:26-30 | one summary per category, in order, each with its id and row |
| CategoryRoutes.SummaryIds | backend/src/routes/categories.ts:26-30 | the ids a listing names, in its order |
| CategoryRoutes.SummaryCounts | backend/src/routes/categories.ts:28 | each productCount is the number of that category's products |
| CategoryRoutes.CountsPartitionProducts | backend/src/routes/categories.ts:26-30 | over distinct categories the counts add up to the products in any of them, so none is counted twice |
| CategoryRoutes.SummaryIdsAreIds | backend/src/routes/categories.ts:26-30 | the listing names exactly the listed categories, in order |
| CategoryRoutes.ListingRows | backend/src/routes/categories.ts:21-30 | each listed row is a category with its own product count |
| CategoryRoutes.ListingCovers | backend/src/routes/categories.ts:21-23 | every category is listed |
| CategoryRoutes.ListingOnce | backend/src/routes/categories.ts:21-23 | no category is listed twice |
| CategoryRoutes.ListingTotal | backend/src/routes/categories.ts:21-30 | the counts add up to the number of products that have a category |
| CategoryRoutes.EveryCategoryListed | backend/src/db/schema.ts:40 | since every product's category exists, the products of the listed categories are all categorised products |
| CategoryRoutes.ListCategories | backend/src/routes/categories.ts:19-37 | every category exactly once, each with its product count and without its products; the counts add up to the categorised products |
| CategoryRoutes.GetCategoryBySlug | backend/src/routes/categories.ts:40-58 | 404 iff no category has the slug; otherwise that category with exactly its products |
| CategoryRoutes.CreateCategory | backend/src/routes/categories.ts:62-86 | an empty name or slug gives the validation 400; a used slug gives 400 with no insert; a name or slug over 100 characters gives 500 with no insert; otherwise one new row under a fresh id |
| CategoryRoutes.PatchCategory | backend/src/routes/categories.ts:89-112 | an empty name or slug gives the validation 400; a patch that supplies no field fails with 500; a missing id gives 404; a slug another category has, or a name or slug over 100 characters, gives 500; otherwise only the supplied fields change |
| CategoryRoutes.DeleteCategory | backend/src/routes/categories.ts:115-132 | a missing id gives 404; a category its products still name cannot be deleted (500); otherwise only that row is removed |
| AuthRoutes.DomainShape | backend/src/routes/auth.ts:13 | an accepted domain holds no '@', contains a '.' followed by at least two letters, and ends in a letter |
| AuthRoutes.OnlyAt | backend/src/routes/auth.ts:13 | the '@' at which an accepted address splits is its only '@' |
| AuthRoutes.DomainExample | backend/src/routes/auth.ts:13 | "example.com" is a domain the email pattern accepts: dot-separated labels ending in a top-level label |
| AuthRoutes.LocalExample | backend/src/routes/auth.ts:13 | "admin" is a local part the email pattern accepts |
| AuthRoutes.NoDoubleDotExample | backend/src/routes/auth.ts:13 | "admin@example.com" has no two dots in a row |
| AuthRoutes.EmailAccepted | backend/src/routes/auth.ts:13 | the seeding script's default admin address "admin@example.com" passes the email pattern |
| AuthRoutes.EmailShape | backend/src/routes/auth.ts:13 | every accepted address has exactly one '@', after a non-empty local part not starting with '.', and before a dotted domain; it ends in a letter |
| AuthRoutes.Register | backend/src/routes/auth.ts:30-81 | a malformed email or a password under 8 UTF-16 code units gives the validation 400, an email already registered 400, a field too long for its column 500, all with no user created; otherwise one new user holding hash(password), never the plaintext, with role USER, and a token signed for exactly its id, email and role |
| AuthRoutes.Login | backend/src/routes/auth.ts:84-132 | an unknown email and a wrong password give the same 401; success iff some user has the email and the password matches its hash, with a token for exactly that user's id, email and role |
| AuthRoutes.Me | backend/src/routes/auth.ts:135-160 | the caller's public fields, or 404 when the row is gone |
| AuthRoutes.PasswordLengthBounds | backend/src/routes/auth.ts:14 | `min(8)` counts UTF-16 code units: 8 characters always pass, fewer than 4 never do, and without astral characters the bound is exactly 8 characters |
| AuthRoutes.AstralPasswordAccepted | backend/src/routes/auth.ts:14 | four emoji count as eight code units and pass the length check |
| AuthRoutes.ChangePassword | backend/src/routes/auth.ts:163-204 | a new password under 8 UTF-16 code units gives the validation 400, a missing user 404, a wrong current password 400, all leaving the hash unchanged; otherwise the hash becomes hash(newPassword) and mustChangePassword false |
| AuthRoutes.LoginTokenAuthenticates | backend/src/routes/auth.ts:106-111 | a token issued at login, sent as a bearer header, opens the authenticated routes as that user |
| AuthMiddleware.BearerToken | backend/src/middleware/auth.ts:26-30 | there is a token iff the header starts with "Bearer ", and it is the header with those 7 characters removed |
| AuthMiddleware.BearerRoundTrip | backend/src/middleware/auth.ts:26-30 | "Bearer " + token yields the token back |
| AuthMiddleware.Authenticate | backend/src/middleware/auth.ts:23-51 | every refusal is a 401: a missing or non-bearer header, a failed verification, or a decoded user that no longer exists; otherwise the context holds the decoded payload and its userId |
| AuthMiddleware.AdminGate | backend/src/middleware/auth.ts:57-69 | 401 with no user, 403 for any role other than ADMIN, and the handler runs otherwise |
| AuthMiddleware.AdminChain | backend/src/middleware/auth.ts:23-69 | both gates in a row pass exactly for a valid token of an existing ADMIN |
| Seed.PasswordFrom | backend/src/db/seed.ts:11-19 | one character per random byte, each from the 70-character charset |
| Seed.GenerateSecurePassword | backend/src/db/seed.ts:11-19 | the loop builds a password of the requested length whose character i is charset[byte i mod 70] |
| Seed.PreimagesCount | backend/src/db/seed.ts:16 | among 0 .. n-1 the values congruent to k modulo 70 number n/70, plus one when k < n mod 70 |
| Seed.CharsetBias | backend/src/db/seed.ts:12-16 | the byte-modulo mapping is biased: the first 46 characters are each picked by 4 of the 256 byte values, the last 24 by 3 |
| Seed.AdminRow | backend/src/db/seed.ts:40-47 | the inserted admin has role ADMIN, the configured email and hash, and must change the password exactly when it was generated |
| Seed.SeedAdmin | backend/src/db/seed.ts:24-63 | an existing ADMIN means nothing is inserted; otherwise an admin is created iff no user holds the chosen email (the configured one or admin@example.com) and the row fits its columns (an email of at most 255 characters), with hash of the configured password or of the generated one, and the password is shown only when generated |
| Seed.Numbered | backend/src/db/seed.ts:86 | a multi-row insert puts row j under id first + j and nothing else |
| Seed.SampleSlugsDistinct | backend/src/db/seed.ts:78-84 | the five sample category slugs are pairwise distinct, so the insert keeps slugs unique |
| Seed.SampleProductSlugsDistinct | backend/src/db/seed.ts:97-240 | the fifteen sample products have pairwise distinct slugs |
| Seed.SampleProductCategoriesKnown | backend/src/db/seed.ts:97-240 | every sample product names one of the five sample category slugs |
| Seed.SampleProductsFit | backend/src/db/seed.ts:97-240 | every sample product has non-negative stock, a discount within 0 to 100, and a row that fits the products columns |
| Seed.SeedCategories | backend/src/db/seed.ts:68-88 | a non-empty table is left alone and 0 added; an empty one receives exactly the five samples under consecutive ids; either way the table ends non-empty |
| Seed.CategoryFor | backend/src/db/seed.ts:94-105 | a found id names a category with that slug; none found means no category has it |
| Seed.SeedingKeepsRows | backend/src/db/seed.ts:243-253 | a seeding run keeps every existing product row unchanged and adds rows exactly under the ids it drew |
| Seed.SeedingAddsSamples | backend/src/db/seed.ts:244-252 | every new row is the row of some sample whose slug no existing product had |
| Seed.SeedingCoversSamples | backend/src/db/seed.ts:244-252 | after a run every sample slug names a product |
| Seed.SeedingAllTaken | backend/src/db/seed.ts:249 | a run over samples whose slugs are all taken changes nothing |
| Seed.SeedingIdempotent | backend/src/db/seed.ts:243-255 | a second seedProducts run on the state the first left changes nothing |
| Seed.InsertSample | backend/src/db/seed.ts:245-252 | the sample is inserted under the next id iff no product has its slug, and the database invariant holds after |
| Seed.SeedProducts | backend/src/db/seed.ts:93-256 | the table after the loop is the seeding run over the samples, and addedCount is the number of rows added |
| Seed.SeededReviews | backend/src/db/seed.ts:316-333 | two reviews per listed product |
| Seed.SeededQuestions | backend/src/db/seed.ts:335-347 | two questions per listed product |
| Seed.SeededRowsShape | backend/src/db/seed.ts:316-347 | rows 2i and 2i+1 belong to the i-th product; the reviews are the admin's, rated 5 then 4 |
| Seed.SeedReviewsAndQA | backend/src/db/seed.ts:303-351 | nothing when any review exists or there is no admin; otherwise the reviews and questions of every product in id order, by the first admin, one product per product row |
| Seed.SeedEachProduct | backend/src/db/seed.ts:316-348 | the loop over the listed products appends, in list order, each product's reviews and questions after the rows already there, and keeps every foreign key valid |
| Seed.SeedProductFeedback | backend/src/db/seed.ts:318-347 | one loop turn appends the product's two reviews and two questions and keeps every foreign key valid |
| Seed.IdsBelowCoversTable | backend/src/db/seed.ts:311-350 | the product list holds every product once, so the reported count is the table size |
| Text.TrimStart | frontend/src/app/checkout/page.tsx:93 | the result is a suffix of the input that does not start with trimmable whitespace, and everything cut off is trimmable |
| Text.TrimEnd | frontend/src/app/checkout/page.tsx:93 | the result is a prefix of the input that does not end with trimmable whitespace, and everything cut off is trimmable |
| Text.TrimEmptyIffBlank | frontend/src/app/checkout/page.tsx:93 | `trim()` gives "" exactly for a string of whitespace only, in both directions |
| Text.Utf16Length | backend/src/routes/auth.ts:14 | JavaScript's string length: between the number of characters and twice it, equal to it exactly when no character is astral and to twice it exactly when every one is |
| Text.Utf16LengthAppend | backend/src/routes/auth.ts:14 | the length of a concatenation is the sum of the lengths |
| Text.ContainsAt | backend/src/routes/products.ts:43 | the `%term%` match holds exactly when the term is the slice of the name at some position |
| Text.ContainsBounds | backend/src/routes/products.ts:43 | a matched term is no longer than the name; every name matches itself and the empty term |
| Text.NatText | backend/src/routes/orders.ts:98 | a non-empty run of decimal digits |
| Text.IntText | frontend/src/components/ProductCard.tsx:102 | a non-empty text that starts with '-' exactly for a negative number |
| Text.NatTextRoundTrip | backend/src/routes/orders.ts:98 | reading the decimal text back gives the number |
| Text.NatTextInjective | frontend/src/components/ProductCard.tsx:102 | two numbers with the same decimal text are equal |
| Listing.Insert | backend/src/routes/orders.ts:193 | inserting into an ordered list adds exactly one element and keeps the rest |
| Listing.InsertSorted | backend/src/routes/orders.ts:193 | inserting into a list sorted by the key leaves it sorted |
| Listing.SortBy | backend/src/routes/products.ts:50-59 | the `orderBy` result is a permutation of its input |
| Listing.SortBySorted | backend/src/routes/products.ts:50-59 | the `orderBy` result is sorted by the key |
| Listing.InsertDistinct | backend/src/routes/products.ts:50-59 | inserting an element not yet present into a list without repeats gives a list without repeats |
| Listing.SortByDistinct | backend/src/routes/products.ts:50-59 | the `orderBy` result of a list without repeats has no repeats |
| Listing.PageDistinct | backend/src/routes/products.ts:60-61 | a `limit`/`offset` window of a list without repeats has no repeats |
| Listing.Page | backend/src/routes/products.ts:60-61 | `limit`/`offset` keep at most limit rows, row i being row offset + i of the input, exactly limit when the input is long enough and none when the offset is past its end |
| Listing.Filter | backend/src/routes/orders.ts:189-192 | a row is kept iff it meets the condition, the input order kept; everything is kept when all rows meet it and nothing when none do |
| Listing.FilterDistinct | backend/src/routes/orders.ts:189-192 | filtering a list without repeats gives a list without repeats |
| Listing.FilterAppend | frontend/src/app/admin/page.tsx:87-93 | filtering distributes over concatenation |
| ApiClient.BaseUrl | frontend/src/lib/api.ts:3 | the configured URL when it is set and not empty, otherwise http://localhost:3001/api; never empty |
| ApiClient.BaseUrlStable | frontend/src/lib/api.ts:3 | configuring the chosen base URL explicitly changes nothing, and an empty setting is the same as none |
| ApiClient.RequestHeaders | frontend/src/lib/api.ts:14-22 | always the JSON content type unless the caller overrides it; `Authorization: Bearer <token>` exactly when a token is stored and the caller sends none; every caller header kept as given; no other header |
| ApiClient.ThrownMessage | frontend/src/lib/api.ts:26-32 | the reply resolves iff `ok`; otherwise the Error carries the body's error text, or 'Request failed' when that is missing or empty |
| ApiClient.ThrownMessageNotEmpty | frontend/src/lib/api.ts:28-30 | a refused reply always throws with a non-empty message |
| ApiClient.Lookup | frontend/src/lib/api.ts:52-58 | a value is found iff some pair carries the name |
| ApiClient.Without | frontend/src/lib/api.ts:52-58 | deleting a name removes it and leaves every other name's value as it was |
| ApiClient.SetParam | frontend/src/lib/api.ts:53-58 | `set` makes the name's value the given one, leaves other names alone, and appends when the name was absent |
| ApiClient.Serialize | frontend/src/lib/api.ts:60 | the query text is empty exactly when there are no pairs |
| ApiClient.SearchParams.constructor | frontend/src/lib/api.ts:52 | a new builder holds no pairs |
| ApiClient.SearchParams.Set | frontend/src/lib/api.ts:53-58 | the pairs become `set` applied to the old pairs |
| ApiClient.SetNewParam | frontend/src/lib/api.ts:53-58 | setting a name later than all present ones appends one pair |
| ApiClient.LookupAppend | frontend/src/lib/api.ts:53-58 | a name is looked up in the earlier pairs first |
| ApiClient.ProductsEntriesInOrder | frontend/src/lib/api.ts:53-58 | the products query names each parameter at most once, in the order category, search, featured, sort, limit, offset |
| ApiClient.ProductsEntriesLookup | frontend/src/lib/api.ts:51-58 | the products query carries a text filter iff it is non-empty, featured only as featured=true, limit and offset only when non-zero, each with its given value |
| ApiClient.ProductsPathWithoutParams | frontend/src/lib/api.ts:60-61 | no parameters give '/products' with no '?' |
| ApiClient.SetText | frontend/src/lib/api.ts:53-56 | a non-empty text parameter appends one pair, an empty or absent one nothing |
| ApiClient.SetNumber | frontend/src/lib/api.ts:57-58 | a non-zero number appends its decimal text, 0 or absent nothing |
| ApiClient.SetFeatured | frontend/src/lib/api.ts:55 | featured=true appends one pair, anything else nothing |
| ApiClient.ProductsPath | frontend/src/lib/api.ts:51-62 | the requested path is '/products', then '?' and the query when there is one |
| ApiClient.AdminOrdersEntriesInOrder | frontend/src/lib/api.ts:98-100 | the admin query names status, limit, offset at most once each, in that order |
| ApiClient.AdminOrdersEntriesLookup | frontend/src/lib/api.ts:96-100 | the admin query carries a non-empty status and non-zero limit and offset, each with its given value, and nothing else |
| ApiClient.AdminOrdersPathWithoutParams | frontend/src/lib/api.ts:102-103 | no parameters give '/orders/admin/all' with no '?' |
| ApiClient.AdminOrdersPath | frontend/src/lib/api.ts:96-104 | the requested path is '/orders/admin/all', then '?' and the query when there is one |
| CheckoutPage.ErrorText | frontend/src/app/checkout/page.tsx:111-112 | an Error shows its own message, anything else 'Failed to create order'; the text is empty only for an Error with an empty message |
| CheckoutPage.RefusalExplained | frontend/src/app/checkout/page.tsx:111-112 | a request the api client refuses always leaves a non-empty error on the page |
| CheckoutPage.OrderLines | frontend/src/app/checkout/page.tsx:103 | one (product id, quantity) line per cart line, in cart order |
| CheckoutPage.OrderRequestAccepted | frontend/src/app/checkout/page.tsx:102-105 | the backend's order validator accepts the page's request exactly when the cart has a line and every quantity is at least 1 |
| CheckoutPage.LineAmountMatchesServer | frontend/src/context/CartContext.tsx:172-175 | a line whose product copy agrees with the backend row costs on the page what the backend charges for it |
| CheckoutPage.SubtotalStep | frontend/src/context/CartContext.tsx:172-175 | both subtotals grow by the last line's amount |
| CheckoutPage.CartSubtotalMatchesServer | frontend/src/context/CartContext.tsx:172-175 | when every cart product agrees with the backend, every line is known there and the page's subtotal equals the backend's unrounded subtotal |
| CheckoutPage.LoginRedirect | frontend/src/app/checkout/page.tsx:80-84 | redirect to the login page with the checkout as return path exactly when the auth state has loaded and nobody is signed in |
| CheckoutPage.CartRedirect | frontend/src/app/checkout/page.tsx:86-90 | redirect to the cart exactly when the cart is empty and the step is not 'success' |
| CheckoutPage.TrimsToEmpty | frontend/src/app/checkout/page.tsx:93 | `!address.trim()` holds exactly for a blank address |
| CheckoutPage.BlankAddressSendsNothing | frontend/src/app/checkout/page.tsx:93-96 | a blank address only sets 'Please enter a shipping address' and sends neither request |
| CheckoutPage.PaymentOnlyAfterBothCalls | frontend/src/app/checkout/page.tsx:101-110 | the step becomes 'payment' iff the address is not blank and both the order and the intent call succeed; otherwise it stays 'address' |
| CheckoutPage.FailureKeepsStep | frontend/src/app/checkout/page.tsx:93-115 | any failure keeps the step and the secret; a blank address shows its own message; once the calls were made loading ends false |
| CheckoutPage.Checkout.constructor | frontend/src/app/checkout/page.tsx:73-78 | the page starts at 'address' with no order, no secret, no error, not loading, and an empty address |
| CheckoutPage.Checkout.SetShippingAddress | frontend/src/app/checkout/page.tsx:74 | the address field holds the typed text |
| CheckoutPage.Checkout.HandleCreateOrder | frontend/src/app/checkout/page.tsx:92-116 | the page state after the handler is the one its outcome table gives, the order request sent is the cart's lines with the untrimmed address, and the intent is requested for the created order only |
| CheckoutPage.Checkout.HandlePaymentSuccess | frontend/src/app/checkout/page.tsx:118-121 | the cart is emptied, the step is 'success', and the empty-cart guard then does not redirect |
| AdminPage.FilteredSumStep | frontend/src/app/admin/page.tsx:87-89 | one more order adds its parsed total to a filtered sum exactly when it passes the filter |
| AdminPage.RevenueStep | frontend/src/app/admin/page.tsx:87-89 | one more order adds its total to totalRevenue exactly when it is not CANCELLED |
| AdminPage.RevenuePartition | frontend/src/app/admin/page.tsx:87-89 | totalRevenue plus the cancelled orders' totals is the sum of all totals |
| AdminPage.RevenueAppend | frontend/src/app/admin/page.tsx:87-89 | totalRevenue is additive over concatenated order lists |
| AdminPage.RevenueNonnegative | frontend/src/app/admin/page.tsx:87-89 | with no negative total the revenue is not negative |
| AdminPage.PendingCount | frontend/src/app/admin/page.tsx:90 | pendingOrders never exceeds the number of orders |
| AdminPage.PendingPartition | frontend/src/app/admin/page.tsx:90 | pending and non-pending orders together are all the orders |
| AdminPage.FilteredOrders | frontend/src/app/admin/page.tsx:91-93 | no selection shows every order; a selection shows exactly the orders with that status |
| AdminPage.FilteredOrdersKeepOrder | frontend/src/app/admin/page.tsx:91-93 | the filter keeps the listing's order: filtering two runs gives the filtered first run followed by the filtered second |
| AdminPage.UpdatedOrders | frontend/src/app/admin/page.tsx:71-73 | the orders with the id take the new status and every other order is kept, in place |
| AdminPage.UpdateIdempotent | frontend/src/app/admin/page.tsx:71-73 | the same status change applied twice is applied once |
| AdminPage.UpdateAbsentUnchanged | frontend/src/app/admin/page.tsx:71-73 | a change for an id no order has leaves the list as it was |
| AdminPage.UpdatedAppend | frontend/src/app/admin/page.tsx:71-73 | the change distributes over appending one order |
| AdminPage.CancelLastRemovesRevenue | frontend/src/app/admin/page.tsx:71-89 | cancelling a counted last order takes its total off the revenue |
| AdminPage.CancelRemovesRevenue | frontend/src/app/admin/page.tsx:71-89 | cancelling any counted order, ids being distinct, takes exactly its total off the revenue |
| AdminPage.AdminRedirect | frontend/src/app/admin/page.tsx:39-43 | a visitor is sent to '/' exactly when the auth state has loaded and they are not an admin |
| AdminPage.AdminDashboard.constructor | frontend/src/app/admin/page.tsx:33-37 | the dashboard starts with empty lists, loading, and no status selected |
| AdminPage.AdminDashboard.LoadData | frontend/src/app/admin/page.tsx:51-66 | on success the three lists are the fetched ones, on failure they are kept; loading ends false either way |
| AdminPage.AdminDashboard.SelectStatus | frontend/src/app/admin/page.tsx:37 | the selection is the chosen status |
| AdminPage.AdminDashboard.HandleStatusUpdate | frontend/src/app/admin/page.tsx:68-77 | only a successful update call changes the list, and then by the status change |
| AdminPage.AdminDashboard.ShownOrders | frontend/src/app/admin/page.tsx:91-93 | the table shows the first ten filtered orders in order, exactly ten when there are that many |
| AdminPage.AdminDashboard.ShownProducts | frontend/src/app/admin/page.tsx:200 | the product list shows the first five products in order, exactly five when there are that many |
| TestimonialSlider.Next | frontend/src/components/TestimonialSlider.tsx:27 | the following index, staying in range and wrapping from the last to the first |
| TestimonialSlider.Prev | frontend/src/components/TestimonialSlider.tsx:28 | the preceding index, staying in range and wrapping from the first to the last |
| TestimonialSlider.PrevNext | frontend/src/components/TestimonialSlider.tsx:27-28 | previous undoes next |
| TestimonialSlider.NextPrev | frontend/src/components/TestimonialSlider.tsx:27-28 | next undoes previous |
| TestimonialSlider.NextSteps | frontend/src/components/TestimonialSlider.tsx:27 | any number of presses of next stays in range |
| TestimonialSlider.MulAtLeast | frontend/src/components/TestimonialSlider.tsx:27 | a positive multiple of n is at least n, the step that makes remainders unique |
| TestimonialSlider.ModUnique | frontend/src/components/TestimonialSlider.tsx:27 | a number has one remainder modulo n |
| TestimonialSlider.ModSucc | frontend/src/components/TestimonialSlider.tsx:27 | adding one before or after taking the remainder agrees |
| TestimonialSlider.NextStepsMod | frontend/src/components/TestimonialSlider.tsx:27 | k presses of next from i show index (i + k) mod n |
| TestimonialSlider.FullCycle | frontend/src/components/TestimonialSlider.tsx:27 | n presses of next come back to the starting testimonial |
| TestimonialSlider.Shown | frontend/src/components/TestimonialSlider.tsx:25-30 | nothing is drawn exactly for an empty list, and otherwise a testimonial of the list |
| TestimonialSlider.Stars | frontend/src/components/TestimonialSlider.tsx:57 | at least one star is drawn: the rating when it is positive, 5 when it is missing or 0; a negative rating makes the render throw (None) |
| TestimonialSlider.StoredRatingStars | frontend/src/components/TestimonialSlider.tsx:57 | a stored rating from 0 to 5 always draws between one and five stars |
| TestimonialSlider.Slider.constructor | frontend/src/components/TestimonialSlider.tsx:10-11 | no testimonials and index 0 |
| TestimonialSlider.Slider.Load | frontend/src/components/TestimonialSlider.tsx:13-23 | the fetched testimonials, or none when the call failed, with the index in range |
| TestimonialSlider.Slider.GoNext | frontend/src/components/TestimonialSlider.tsx:27 | the index moves to Next and stays in range |
| TestimonialSlider.Slider.GoPrev | frontend/src/components/TestimonialSlider.tsx:28 | the index moves to Prev and stays in range |
| TestimonialSlider.Slider.Current | frontend/src/components/TestimonialSlider.tsx:25-30 | nothing for an empty list, otherwise the testimonial at the index |
| ProductCard.StruckPrice | frontend/src/components/ProductCard.tsx:69-76 | the list price is struck through exactly when a discount is given and parses above 0, and then, for a positive price and a discount of at most 100, it lies above the shown price, which is at least 0 |
| ProductCard.NoDiscountShowsListPrice | frontend/src/components/ProductCard.tsx:69-76 | without a discount nothing is struck and the shown price is the list price |
| ProductCard.DiscountBelowList | frontend/src/components/ProductCard.tsx:69-76 | with a positive price and a discount above 0 and at most 100 the shown price is at least 0 and below the list price |
| ProductCard.Level | frontend/src/components/ProductCard.tsx:99-102 | above 10 is plenty, 1 to 10 limited, anything else sold out, each iff |
| ProductCard.StockLabelDeterminesLevel | frontend/src/components/ProductCard.tsx:99-102 | equal labels mean the same level and dot colour, and for limited stock the same stock |
| ProductCard.NegativeStockSoldOutButEnabled | frontend/src/components/ProductCard.tsx:81-102 | a negative stock reads 'Sold Out' with the rose dot, yet the add button stays enabled |
| ProductCard.Style | frontend/src/components/ProductCard.tsx:82-86 | the in-cart look exactly when in the cart, the disabled look exactly when not in the cart and the stock is 0 |
| ProductCard.PressAdd | frontend/src/components/ProductCard.tsx:80-81 | a disabled button (stock 0) leaves the guest cart as it was; otherwise the product is added with the default quantity |

## Left out

- Concurrency: each request runs alone against the database. The model does not cover the race between the stock check and the decrement, lost updates between concurrent cart adds, or two requests each creating a user's first cart.
- Floating point: `parseFloat`, `toFixed`, `Math.round` and JavaScript numbers are exact reals with explicit rounding functions. NaN from a malformed number is not modelled. A `limit` or `offset` query parameter is an already-parsed optional integer.
- Row ids are naturals from one counter rather than random uuids. The routes' `uuid()` format checks of ids are not modelled.
- Stripe is a sequential in-memory processor. Its network behaviour and retries are not modelled. The webhook signature check is an outcome parameter.
- LIKE search is substring containment. The `%` and `_` wildcards inside a search term are not modelled.
- Listing order: sorting by timestamp or price is a stable sort by an abstract numeric key. The order of rows with equal keys is the id order, which the database does not promise. `findFirst` without an order only promises some matching row; `Schema.FirstWhere` picks the lowest id.
- Columns with no logic are not modelled: product description and image URL, category description, avatar URLs, and the `with:` joins that attach related rows to responses.
- The register reply: the model's public user record carries `mustChangePassword` (false), which the source's register reply omits. The `me` reply's `createdAt` is not part of the record.
- Error handler: backend/src/index.ts's handler is modelled only as the 500 it returns when a cart write breaks a foreign key or a value is too large for its integer column.
- Column limits: the varchar widths and numeric ranges of backend/src/db/schema.ts are checked only for the columns the modelled rows carry (`Schema.UserFits`, `CategoryFits`, `ProductFits`, `OrderFits`, the cart quantity). Image URLs (varchar(500)) and descriptions are not modelled, so their limits are not either.
- OrderRoutes.CreateOrder: the order row is checked against its columns before anything is written; a line whose frozen price or quantity does not fit order_items, or a stock decrement below -2147483648, would fail after the order row (and possibly the items) was written, and that partial write is not modelled. With prices and stock inside their columns and discounts of at most 100 the frozen price and the quantity always fit; the stock can leave the integer range only through the duplicate-line defect under Findings. The same holds for OrderRoutes.CreateOrderReserved, where the stock cannot.
- ProductRoutes.PatchProduct: a supplied value too large for its column is reported as 500 only when the row exists; for a missing id the database may refuse an out-of-range integer parameter before it looks for the row, which the model reports as 404.
- CartRoutes.AddItem and CartRoutes.SetQuantity: the quantity is read from the JSON body without validation. The model takes it as an integer; a string (which `+` would concatenate), a fraction or null, each refused by the database with 500, are not modelled.
- CheckoutPage.Checkout.HandlePaymentSuccess: models the `onSuccess` callback handed to `CheckoutForm`, which the form never calls; a confirmed payment leaves the page by the processor's redirect to /checkout/success instead. The method is therefore never reached in the running page, and `CheckoutPage.CartRedirect`'s exception for the success step never applies there.
- Seed.SeedAdmin: `InsertFailed` is a normal outcome here. In the script a failed insert throws, and `main` then stops with exit code 1 before seeding testimonials.
- CategoryRoutes.PatchCategory: a supplied description or image URL is only a flag (`others`) that makes the patch non-empty; the values it sets are not modelled.
- bcrypt's cost factor and the JWT expiry are not modelled. An expired token is one that `verify` refuses.
- The testimonials, reviews and product-question routes are single database reads with no logic, and are not modelled. `seedTestimonials` is not modelled either.
- Guest cart: only the guest branches of CartContext are modelled. The signed-in branches forward each action to the cart routes, and their localStorage persistence and JSON parsing are browser I/O.
- The checkout page's signed-in `clearCart` (an API call) is not modelled. `CheckoutPage.Checkout.HandlePaymentSuccess` clears the guest cart.
- React effects, router redirects and fetches are recorded outcomes: redirects are returned paths, and API calls are given as their results. AuthContext is not modelled.
- Rendering is not modelled: markup, `Intl` price and date formatting, and the percent encoding `URLSearchParams` applies (the parameter `encode`).
- TestimonialSlider.Stars: a negative rating makes `Array(n)` throw; the model returns None for it and does not model the error boundary that would catch it.
- Console output of the seeding script is not modelled. Only the outcome that `Seed.SeedAdmin` reports is.

## Findings

| source | as written | input that shows it | evidently intended | confidence | as-written member | corrected member |
|---|---|---|---|---|---|---|
| backend/src/routes/orders.ts:101-158 | each order line is checked against the product's stock before any decrement, then stock is decremented once per line | a product with stock 1 and an order of two lines for it, each of quantity 1: both checks pass and the stock ends at -1 | reject an order whose total quantity of a product exceeds its stock, so stock never goes below zero | not executed | OrderRoutes.DuplicateLineOversell | OrderRoutes.ReservedNeverOversells |

