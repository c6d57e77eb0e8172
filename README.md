# Lux-Vision storefront core, modelled in Dafny

Lux-Vision is an eyewear shop with two halves:

- **The Express back end.** Its controllers turn HTTP requests into SQL statements against a PostgreSQL schema.
  - Orders: the checkout transaction and the status change.
  - Products: the filtered, sorted and paginated listing; creation; the dynamic UPDATE.
  - The per-user cart and wishlist.
  - Product reviews.
- **The React front end.**
  - Four context providers keep the cart, wishlist, compare tray and recently-viewed list in the browser.
  - The shop page filters, sorts and pages the catalogue.
  - A static review table computes per-product averages.

Each controller and each context is a Dafny module. Each module has:

- pure functions for what the code computes;
- a class over the tables or the provider's state for what it changes in place;
- lemmas for what the code promises.

| file | module | models |
|---|---|---|
| wrappers.dfy | Wrappers | `Option`, standing for an absent (`undefined`) field, a SQL NULL or a missing row; a JSON `null` from the client is not told apart |
| schema.dfy | Schema | the product row, the order status, the category and gender CHECK constraints, `in_stock` consistency |
| order_controller.dfy | OrderController | `createOrder` and `updateOrderStatus` over the products, orders and order-items tables |
| product_controller.dfy | ProductController | the query builder in `getProducts` and its pagination; `createProduct`; `updateProduct` |
| user_controller.dfy | UserController | the wishlist and cart handlers over the `wishlist` and `cart` tables |
| review_controller.dfy | ReviewController | the listing with its average, and creating, updating and deleting a review |
| storefront.dfy | Storefront | the front end's product, `filter` by id, and `Array.prototype.slice` |
| cart_context.dfy | CartContext | the guest cart updaters, its totals, and the `CartProvider` state |
| wishlist_context.dfy | WishlistContext | the wishlist updaters and the `WishlistProvider` state |
| compare_context.dfy | CompareContext | the three-item compare tray and the `CompareProvider` state |
| recently_viewed_context.dfy | RecentlyViewedContext | the twelve most recently viewed products |
| shop.dfy | ShopPage | filtering, sorting, pagination, the page bar and the page resets of the shop page |
| review_data.dfy | ReviewData | `getProductReviews` and `getAverageRating` on the static review list |

How the back end is modelled:

- A store call is a change to the tables. A constraint the schema enforces becomes an error answer, with the tables left as they were.
- Each transaction is modelled this way:
  - `CreateOrder` and its per-item loop, `InsertLines`, work on copies of the tables and commit them only at the end.
  - `CreateOrderSpec` is the declarative description of the whole transaction.
  - `CreateOrder` is proved to agree with `CreateOrderSpec`.
- `getProducts` is modelled up to the two statements it sends. `BuildProductQuery` is proved against `CountText`, `PageText` and `PageParams`, which describe those statements. `ListProducts` models the response the store's rows produce.
- `updateProduct` is modelled as the statement it builds, with its loop over the body's keys.

The front-end updaters are functions on sequences, and each provider class reassigns its `items` with them.

## Model

| member | source | states |
|---|---|---|
| OrderController.CreateOrderSpec | backend/src/controllers/order.controller.js:66-145 | the whole handler as one state transition: 400 and no change for absent or empty items; 500 and no change for a missing shipping address, a taken order number, a nameless item or an unknown product; otherwise (column widths and ranges aside, see Left out) 201 with the order appended, one line per item and the stock lowered (its properties are the lemmas below) |
| OrderController.StockAfter | backend/src/controllers/order.controller.js:121-128 | the product table after every item's unchecked decrement: a product some item names loses the summed quantity and gets `in_stock` = new stock > 0; other products are unchanged (proved in StockChange) |
| OrderController.StatusVocabulary | backend/src/controllers/order.controller.js:153-154 | exactly the five status names are accepted; each parses back to its own status and nothing else parses |
| OrderController.SumSubtotals | backend/src/controllers/order.controller.js:80-83 | the loop's result is Σ price × quantity over the items |
| OrderController.InsertLines | backend/src/controllers/order.controller.js:110-129 | of the modelled constraints, the loop fails iff some item has no `name` or names an unknown product; otherwise the products are the stock after every item and one line per item has been appended |
| OrderController.OrderTables.CreateOrder | backend/src/controllers/order.controller.js:66-145 | the handler's new tables and answer are those of `CreateOrderSpec`, and the store's guarantees (unique order numbers, lines pointing at orders) are kept |
| OrderController.AllOrNothing | backend/src/controllers/order.controller.js:78-144 | the answer is 201, 400 or 500; nothing is written unless it is 201, and a 201 appends exactly the returned order |
| OrderController.EmptyCartRejected | backend/src/controllers/order.controller.js:71-76 | an absent or empty item list answers 400 and changes nothing |
| OrderController.NamelessItemRollsBack | backend/src/controllers/order.controller.js:110-119 | one item without `name` makes the whole order answer 500 with every table unchanged |
| OrderController.OrderTotals | backend/src/controllers/order.controller.js:80-103 | a committed order has the items' subtotal, 18% tax, free shipping, total = 1.18 × subtotal, status pending, and the shipping address as billing address when none is given or the given one is falsy (`""`, `0`, `false` or `null`), as `billingAddress || shippingAddress` does |
| OrderController.LinesTotalIsSubtotal | backend/src/controllers/order.controller.js:110-119 | the lines' subtotals add up to the order's subtotal |
| OrderController.LinesForFields | backend/src/controllers/order.controller.js:111-118 | each line copies its item's product, name, price and quantity, records price × quantity and belongs to the new order |
| OrderController.OneLinePerItem | backend/src/controllers/order.controller.js:110-119 | a committed order appends one line per item, in item order, and these lines total the order's subtotal |
| OrderController.StockChange | backend/src/controllers/order.controller.js:121-128 | each product's stock drops by the total quantity ordered of it, with no floor; `in_stock` is re-derived for the products ordered; nothing else changes |
| OrderController.InStockStaysConsistent | backend/src/controllers/order.controller.js:122-128 | if `in_stock` agrees with the stock count before an order, it agrees after it |
| OrderController.OversellAccepted | backend/src/controllers/order.controller.js:122-128 | one unit in stock and two ordered: the order is accepted, and the stock becomes -1 and out of stock |
| OrderController.UnnamedOrdersNothing | backend/src/controllers/order.controller.js:121-128 | a product no item names is ordered in quantity 0 |
| OrderController.StockAfterKey | backend/src/controllers/order.controller.js:122-127 | one more item changes only the stock of the product it names |
| OrderController.OrderTables.UpdateOrderStatus | backend/src/controllers/order.controller.js:148-171 | 400 outside the vocabulary, 404 for an unknown order, otherwise 200 and only that order's status changes |
| ProductController.Digits | backend/src/controllers/product.controller.js:28 | a placeholder number is written as decimal digits, at least one, with a leading zero only for 0 |
| ProductController.DigitsRoundTrip | backend/src/controllers/product.controller.js:28 | reading the digits of a placeholder back as a decimal number gives the number it was written from |
| ProductController.PlaceholderInjective | backend/src/controllers/product.controller.js:28-76 | `$m` and `$n` are the same text exactly when m = n, so consecutive numbering gives every parameter its own placeholder |
| ProductController.ActiveIsTruthy | backend/src/controllers/product.controller.js:26-61 | a filter contributes a clause iff its value is truthy (non-empty) |
| ProductController.ActiveInHandlerOrder | backend/src/controllers/product.controller.js:26-61 | the contributing filters appear once each, in the order of the handler's `if` blocks |
| ProductController.AppendFilter | backend/src/controllers/product.controller.js:27-31 | one filter block appends its clause at the next placeholder, pushes its value and advances the index only when the filter is truthy |
| ProductController.ApplyFilters | backend/src/controllers/product.controller.js:22-61 | the six blocks build SELECT * plus the WHERE clauses of the truthy filters, with their parameters in the same order, and the index one past them |
| ProductController.BuildProductQuery | backend/src/controllers/product.controller.js:21-76 | the count statement, the page statement and its parameters are `CountText`, `PageText` and `PageParams`; the count runs with exactly the filter parameters, and the page parameters are those followed by LIMIT and OFFSET |
| ProductController.PlaceholdersMatchParams | backend/src/controllers/product.controller.js:57-76 | the i-th parameter is the i-th clause's value (the search value wrapped in %…%); LIMIT and OFFSET bind the last two parameters |
| ProductController.ReplaceFirstAtStart | backend/src/controllers/product.controller.js:65 | replacing the leading `SELECT *` swaps the head and keeps the rest |
| ProductController.CountQuerySharesWhere | backend/src/controllers/product.controller.js:63-67 | the count statement is SELECT COUNT(*) with the page statement's WHERE clauses |
| ProductController.TextIgnoresFilterValues | backend/src/controllers/product.controller.js:26-75 | filter values never reach the SQL text: the same truthy filters, sort field and direction give the same statements |
| ProductController.SortFieldAllowListed | backend/src/controllers/product.controller.js:71-72 | the ORDER BY field is always allow-listed; an allow-listed `sortBy` is kept and anything else becomes created_at |
| ProductController.ToUpper | backend/src/controllers/product.controller.js:73 | upper-casing keeps the length and maps each character |
| ProductController.DirectionIsAscExactly | backend/src/controllers/product.controller.js:73 | the direction is ASC exactly for the case variants of "asc"; everything else, absence included, is DESC |
| ProductController.TotalPages | backend/src/controllers/product.controller.js:88 | the page count is finite exactly when the limit is positive |
| ProductController.Window | backend/src/controllers/product.controller.js:75-78 | LIMIT/OFFSET returns the matching rows from `offset` on, in order: min(limit, rows − offset) of them, none past the end |
| ProductController.ListProducts | backend/src/controllers/product.controller.js:63-96 | the response: the LIMIT/OFFSET window of the matching rows with page, limit, total count and `Math.ceil(total / limit)` pages; 500 for a negative LIMIT or OFFSET (its properties are TotalPagesIsCeiling and EveryProductOnItsPage) |
| ProductController.TotalPagesIsCeiling | backend/src/controllers/product.controller.js:88 | `totalPages` is the least page count that holds every matching product, and 0 only when none match |
| ProductController.EveryProductOnItsPage | backend/src/controllers/product.controller.js:21 | the i-th matching product appears on page i / limit + 1, at position i % limit, and that page is within `totalPages` |
| ProductController.CreateProduct | backend/src/controllers/product.controller.js:157-177 | 400 iff a required field is falsy; 500 when the category or gender fails the CHECK (column widths and ranges aside, see Left out); otherwise the row holds the name, brand, description, price, discount (default 0), category, gender, the stock (default 0) and `in_stock` = stock > 0 |
| ProductController.SnakeCaseIsLower | backend/src/controllers/product.controller.js:225 | a column name has no uppercase letter and is one character longer per uppercase letter of the key |
| ProductController.SnakeCaseRoundTrip | backend/src/controllers/product.controller.js:225 | for keys without '_', the column name converts back to the key |
| ProductController.SnakeCaseInjective | backend/src/controllers/product.controller.js:225 | two different keys without '_' never name the same column |
| ProductController.SnakeCaseKeepsLowerKeys | backend/src/controllers/product.controller.js:225 | a key with no uppercase letter is its own column name |
| ProductController.SpellingsCollide | backend/src/controllers/product.controller.js:220-230 | a camelCase key and its snake_case spelling map to the same column |
| ProductController.SnakeCaseAppend | backend/src/controllers/product.controller.js:225 | the key rewrite works letter by letter, so it distributes over concatenation |
| ProductController.UpdateProduct | backend/src/controllers/product.controller.js:197-237 | 404 iff the id is unknown; otherwise one SET entry per key in order, the i-th bound at $i+1 to its value (JSON text for images and features), and the id bound last |
| UserController.QuantityOfRow | backend/src/scripts/migrate.js:125 | since (user, product) is unique for a non-NULL product, a row's quantity (possibly NULL) is that pair's quantity |
| UserController.UserTables.AddToWishlist | backend/src/controllers/user.controller.js:30-51 | a known product adds the pair (a no-op if present) and answers 201; an unknown product answers 500 and changes nothing; no product id adds one more NULL-product row and answers 201 |
| UserController.UserTables.RemoveFromWishlist | backend/src/controllers/user.controller.js:54-67 | only the caller's pair for that product is removed; 200 whether or not it existed |
| UserController.Upsert | backend/src/controllers/user.controller.js:110-116 | after the upsert the pair has a row, its quantity grew by the amount (NULL stays NULL), every other pair and every NULL-product row is unchanged, and pairs stay unique |
| UserController.BumpRow | backend/src/controllers/user.controller.js:113-114 | the conflict branch adds the amount to the existing row |
| UserController.InsertRow | backend/src/controllers/user.controller.js:111-112 | the insert branch creates the pair's row with the amount |
| UserController.UserTables.AddToCart | backend/src/controllers/user.controller.js:105-130 | a known product: 201 and the pair upserted with the quantity (default 1; INTEGER overflow aside, see Left out); an unknown product: 500 and no change; no product id: 201 and a new row with a NULL product |
| UserController.AddThreeTimes | backend/src/controllers/user.controller.js:107-116 | three one-unit additions of a product leave a single row holding 3 |
| UserController.OnlyPair | backend/src/scripts/migrate.js:125 | rows that all carry one (user, product) pair are at most one |
| UserController.UserTables.UpdateCartItem | backend/src/controllers/user.controller.js:133-161 | 400 for a given quantity ≤ 0 (JSON `null` and INTEGER range aside, see Left out); 404 unless the row exists and is the caller's; otherwise only that row's quantity is set, to NULL when no quantity is given |
| UserController.UserTables.RemoveFromCart | backend/src/controllers/user.controller.js:172-185 | the row is deleted only if the caller owns it; 200 in every case |
| UserController.UserTables.ClearCart | backend/src/controllers/user.controller.js:196-205 | the caller's rows are gone and every other user's rows are untouched |
| ReviewController.ReviewTable.CreateReview | backend/src/controllers/review.controller.js:46-89 | 400 iff a field is falsy or the user already reviewed the product; 500 when the rating is outside 1..5 or the product is unknown (the title's width aside, see Left out); otherwise 201 and the review is appended |
| ReviewController.ReviewTable.UpdateReview | backend/src/controllers/review.controller.js:92-126 | 404 unless the review is the caller's; 500 for a rating outside 1..5 (the title's width and a non-integer rating aside, see Left out); otherwise only that review changes, and only in the fields supplied |
| ReviewController.ReviewTable.DeleteReview | backend/src/controllers/review.controller.js:129-149 | 404 unless the review is the caller's; otherwise exactly that review is removed |
| ReviewController.WithoutReviewMembers | backend/src/controllers/review.controller.js:134-137 | deleting by id keeps every other review and drops the one with that id |
| ReviewController.WithoutReviewAt | backend/src/controllers/review.controller.js:134-137 | with unique ids, deleting the id of position i removes exactly position i |
| ReviewController.NoSuchReview | backend/src/controllers/review.controller.js:134-137 | deleting an id no row carries changes nothing |
| ReviewController.RemovalKeepsWellFormed | backend/src/scripts/migrate.js:55-67 | removing a review keeps ratings in 1..5, ids unique and one review per (product, user) |
| ReviewController.PatchKeepsWellFormed | backend/src/controllers/review.controller.js:98-106 | a COALESCE update with an allowed rating keeps the table well formed |
| ReviewController.ForProductMembers | backend/src/controllers/review.controller.js:8-15 | the product's reviews are exactly the rows with that product id |
| ReviewController.Reversed | backend/src/controllers/review.controller.js:13 | newest first: position k holds the k-th review from the end |
| ReviewController.ListingFacts | backend/src/controllers/review.controller.js:8-32 | the listing holds exactly the product's reviews, newest first, and `totalReviews` counts them |
| ReviewController.GetProductReviews | backend/src/controllers/review.controller.js:4-35 | the listing: the product's reviews newest first, their average, and their count (proved in ListingFacts and AverageFacts) |
| ReviewController.RatingTotalBounds | backend/src/scripts/migrate.js:59 | allowed ratings sum to between n and 5n |
| ReviewController.AverageFacts | backend/src/controllers/review.controller.js:18-25 | the average is 0 iff there are no reviews; otherwise it times the count is the rating total, and it lies in 1..5 |
| ReviewController.Average | backend/src/controllers/review.controller.js:18-25 | SQL `AVG(rating)`, falling back to 0: the exact mean of the ratings, 0 for none (proved in AverageZeroIffNone, AverageTimesCount and AverageInRange) |
| ReviewController.AverageZeroIffNone | backend/src/controllers/review.controller.js:23-25 | the average is 0 exactly when the product has no reviews |
| ReviewController.AverageTimesCount | backend/src/controllers/review.controller.js:18-24 | with reviews, the average is their mean: average × count = rating total |
| ReviewController.AverageInRange | backend/src/controllers/review.controller.js:18-24 | with reviews, the average lies between 1 and 5 |
| Storefront.Without | src/contexts/WishlistContext.tsx:52 | filtering out an id keeps exactly the items with another id, and is no longer |
| Storefront.WithoutAppend | src/contexts/WishlistContext.tsx:52 | filtering distributes over concatenation, so order is kept |
| Storefront.WithoutAbsent | src/contexts/CompareContext.tsx:45 | filtering out an absent id changes nothing |
| Storefront.WithoutRemovesId | src/contexts/CartContext.tsx:136 | after filtering, no item has that id |
| Storefront.WithoutUnique | src/contexts/CartContext.tsx:136 | filtering keeps ids unique |
| Storefront.AppendFreshUnique | src/contexts/WishlistContext.tsx:46 | appending a product with a new id keeps ids unique |
| Storefront.RelativeIndex | src/contexts/RecentlyViewedContext.tsx:31 | a slice bound in 0..len is kept, one past the length is clamped to the length, and a negative one counts from the end, floored at 0 |
| Storefront.Slice | src/pages/Shop.tsx:87 | `slice(start, end)` with 0 ≤ start ≤ end is the elements from start to min(end, length) |
| CartContext.Added | src/contexts/CartContext.tsx:80-116 | `addToCart`'s updater: a present product's line grows by the quantity, otherwise a new line is appended (proved in AddPresent, AddAbsent and AddKeepsUnique) |
| CartContext.Removed | src/contexts/CartContext.tsx:136 | `removeFromCart`'s updater: every line of the product is dropped and the rest keep their order (proved in Storefront.Without, WithoutRemovesId and RemoveTotals) |
| CartContext.Updated | src/contexts/CartContext.tsx:140-169 | `updateQuantity`'s updater: a quantity ≤ 0 removes, otherwise the product's line gets the quantity (proved in UpdateNonPositiveRemoves and UpdatePositiveSets) |
| CartContext.TotalItems | src/contexts/CartContext.tsx:190 | the reduce Σ quantity over the lines (its behaviour under add and remove is in TotalsAppend, BumpTotals and RemoveTotals) |
| CartContext.TotalPrice | src/contexts/CartContext.tsx:191 | the reduce Σ price × quantity over the lines (its behaviour under add and remove is in TotalsAppend, BumpTotals and RemoveTotals) |
| CartContext.BumpAll | src/contexts/CartContext.tsx:109-113 | every line is kept in place and only the product's lines grow by the amount |
| CartContext.SetAll | src/contexts/CartContext.tsx:165-169 | every line is kept in place and only the product's lines get the new quantity |
| CartContext.AddPresent | src/contexts/CartContext.tsx:106-116 | adding a product already in the cart grows its line and leaves the others alone |
| CartContext.AddAbsent | src/contexts/CartContext.tsx:106-116 | adding a new product appends one line with the quantity |
| CartContext.BumpAllIds | src/contexts/CartContext.tsx:109-113 | growing a line never changes which products the cart holds |
| CartContext.AddKeepsUnique | src/contexts/CartContext.tsx:106-116 | adding keeps one line per product |
| CartContext.UpdateKeepsUnique | src/contexts/CartContext.tsx:140-169 | removing and updating keep one line per product |
| CartContext.UpdateNonPositiveRemoves | src/contexts/CartContext.tsx:140-144 | a quantity ≤ 0 removes the product's line |
| CartContext.UpdatePositiveSets | src/contexts/CartContext.tsx:164-169 | a positive quantity sets the product's line in place and touches nothing else |
| CartContext.TotalsAppend | src/contexts/CartContext.tsx:190-191 | item count and price total add over concatenation |
| CartContext.BumpTotals | src/contexts/CartContext.tsx:190-191 | adding to a present product raises the totals by amount × its lines and amount × their prices |
| CartContext.BumpItemCount | src/contexts/CartContext.tsx:190 | adding to a present product raises the item count by amount × its lines |
| CartContext.BumpPrice | src/contexts/CartContext.tsx:191 | adding to a present product raises the price total by amount × its unit prices |
| CartContext.RemoveTotals | src/contexts/CartContext.tsx:190-191 | removing a product lowers the totals by its quantity and its value |
| CartContext.AddAbsentTotals | src/contexts/CartContext.tsx:190-191 | adding a new product raises the totals by the quantity and price × quantity |
| CartContext.UniqueLines | src/contexts/CartContext.tsx:106-116 | with one line per product, a product has one line iff it is in the cart |
| CartContext.AddPresentTotalItems | src/contexts/CartContext.tsx:190 | adding to a product already present raises the item count by the quantity |
| CartContext.CartProvider.AddToCart | src/contexts/CartContext.tsx:104-116 | the cart becomes the added-to cart with the quantity (default 1), and one line per product is kept |
| CartContext.CartProvider.RemoveFromCart | src/contexts/CartContext.tsx:135-137 | the product's line is gone and the rest is kept |
| CartContext.CartProvider.UpdateQuantity | src/contexts/CartContext.tsx:140-171 | the cart becomes the updated cart, and one line per product is kept |
| CartContext.CartProvider.ClearCart | src/contexts/CartContext.tsx:185-187 | the cart is empty |
| WishlistContext.WishlistAdded | src/contexts/WishlistContext.tsx:36-48 | a present product leaves the list alone; a new one is appended; ids stay unique; the product is in the list |
| WishlistContext.AppendedUnique | src/contexts/WishlistContext.tsx:46 | appending a new product keeps ids unique |
| WishlistContext.WishlistRemoved | src/contexts/WishlistContext.tsx:50-56 | removal keeps exactly the products with another id |
| WishlistContext.RemovedUnique | src/contexts/WishlistContext.tsx:52 | removal keeps ids unique |
| WishlistContext.IsInWishlist | src/contexts/WishlistContext.tsx:58-60 | `items.some(item => item.id === productId)` (characterised in IsInWishlistIff) |
| WishlistContext.IsInWishlistIff | src/contexts/WishlistContext.tsx:58-60 | `isInWishlist` holds iff some product has the id |
| WishlistContext.AddThenRemove | src/contexts/WishlistContext.tsx:36-56 | after adding, the product is in the list; after removing it, it is not |
| WishlistContext.RemovePreservesOrder | src/contexts/WishlistContext.tsx:52 | removal keeps the remaining products in their order |
| WishlistContext.DistinctIds | src/contexts/WishlistContext.tsx:67 | with unique ids, the list's length is the number of distinct products |
| WishlistContext.WishlistProvider.AddToWishlist | src/contexts/WishlistContext.tsx:36-48 | the list becomes the added-to list and stays duplicate-free |
| WishlistContext.WishlistProvider.RemoveFromWishlist | src/contexts/WishlistContext.tsx:50-56 | the list becomes the filtered list and stays duplicate-free |
| WishlistContext.WishlistProvider.IsIn | src/contexts/WishlistContext.tsx:58-60 | true iff some product has the id |
| WishlistContext.WishlistProvider.ClearWishlist | src/contexts/WishlistContext.tsx:62-65 | the list is empty |
| WishlistContext.WishlistProvider.TotalItems | src/contexts/WishlistContext.tsx:67 | the count is the length, which is also the number of distinct products |
| CompareContext.CompareAdded | src/contexts/CompareContext.tsx:29-42 | `addToCompare`: a tray of three is left alone, then a present product is left alone, otherwise the product is appended (proved in CompareAddCases and CompareAddBounded) |
| CompareContext.CompareRemoved | src/contexts/CompareContext.tsx:44-46 | `removeFromCompare`'s updater: the products with another id, in order (proved in CompareRemoveOrder and CompareRemoveBounded) |
| CompareContext.CompareAddCases | src/contexts/CompareContext.tsx:29-42 | a full tray or a present product leaves the tray alone; otherwise the product is appended |
| CompareContext.CompareAddBounded | src/contexts/CompareContext.tsx:29-42 | adding keeps at most three products and no duplicates |
| CompareContext.CompareRemoveBounded | src/contexts/CompareContext.tsx:44-47 | removing keeps at most three products and no duplicates |
| CompareContext.CompareRemoveOrder | src/contexts/CompareContext.tsx:44-47 | removal keeps the order of the rest and drops every product with the id |
| CompareContext.CompareProvider.AddToCompare | src/contexts/CompareContext.tsx:29-42 | the tray becomes the added-to tray and stays within three distinct products |
| CompareContext.CompareProvider.RemoveFromCompare | src/contexts/CompareContext.tsx:44-47 | the tray becomes the filtered tray and stays bounded |
| CompareContext.CompareProvider.ClearCompare | src/contexts/CompareContext.tsx:49-52 | the tray is empty |
| CompareContext.CompareProvider.IsIn | src/contexts/CompareContext.tsx:54-56 | true iff some product has the id |
| RecentlyViewedContext.RecentlyViewedAdded | src/contexts/RecentlyViewedContext.tsx:25-33 | `[product, ...prev.filter(id ≠ product.id)].slice(0, 12)` (proved in RecentlyViewedShape, RecentlyViewedIdempotent and RecentlyViewedUnique) |
| RecentlyViewedContext.RecentlyViewedCleared | src/contexts/RecentlyViewedContext.tsx:35-37 | `clearRecentlyViewed` sets the list to empty |
| RecentlyViewedContext.RecentlyViewedShape | src/contexts/RecentlyViewedContext.tsx:25-33 | the viewed product comes first, followed by the others in their previous order, cut to twelve, and it appears only once |
| RecentlyViewedContext.RecentlyViewedIdempotent | src/contexts/RecentlyViewedContext.tsx:25-33 | viewing the same product twice in a row is the same as viewing it once |
| RecentlyViewedContext.RecentlyViewedUnique | src/contexts/RecentlyViewedContext.tsx:25-33 | a duplicate-free list stays duplicate-free |
| ShopPage.IncludesIff | src/pages/Shop.tsx:55-58 | `includes` holds iff the substring occurs at some position |
| ShopPage.Matches | src/pages/Shop.tsx:37-60 | a product passes iff each of the category, gender and brand choices is empty or holds its value, its price is in the inclusive range, and the search is empty or a substring of its lower-cased name, brand or description (characterised in Filtered and IncludesIff) |
| ShopPage.Filtered | src/pages/Shop.tsx:36-62 | the shown products are exactly those passing all five filters |
| ShopPage.FilteredAppend | src/pages/Shop.tsx:36-62 | filtering keeps the catalogue order |
| ShopPage.NoFilterKeepsAll | src/pages/Shop.tsx:36-62 | no category, gender or brand choice, an empty search and a price range covering every product show the whole catalogue |
| ShopPage.Insert | src/pages/Shop.tsx:65-80 | inserting adds exactly one product |
| ShopPage.InsertionSort | src/pages/Shop.tsx:65-80 | sorting is a permutation of its input |
| ShopPage.InsertSorted | src/pages/Shop.tsx:68-76 | inserting into a sorted list keeps it sorted |
| ShopPage.InsertionSortSorted | src/pages/Shop.tsx:68-76 | the result is sorted by any total preorder |
| ShopPage.SortedProducts | src/pages/Shop.tsx:65-80 | "featured" keeps the filtered order; the other options sort a copy by their comparator (proved in SortIsPermutation and SortOrders) |
| ShopPage.SortIsPermutation | src/pages/Shop.tsx:65-80 | every sort option permutes the filtered products, and "featured" keeps them in order |
| ShopPage.PrecedesIsPreorder | src/pages/Shop.tsx:68-76 | each comparator is a total preorder (for names, given a consistent collation) |
| ShopPage.SortOrders | src/pages/Shop.tsx:68-76 | price sorts order by price; name sorts order by the collation, both ways |
| ShopPage.TotalPages | src/pages/Shop.tsx:83 | `Math.ceil(n / perPage)` is the least page count holding n items |
| ShopPage.PageItems | src/pages/Shop.tsx:84-88 | `slice((p−1)·P, (p−1)·P + P)` of the sorted products (proved in PageWindow, FirstPagesPrefix and PagesCoverList) |
| ShopPage.PageWindow | src/pages/Shop.tsx:84-88 | page p shows the items from (p-1)·P up to min(p·P, n), at most P of them |
| ShopPage.FirstPagesPrefix | src/pages/Shop.tsx:84-88 | the first k pages together are the first min(k·P, n) items |
| ShopPage.PagesCoverList | src/pages/Shop.tsx:83-88 | all `totalPages` pages together are exactly the sorted list |
| ShopPage.PrevPage | src/pages/Shop.tsx:237 | `Math.max(1, p − 1)` (proved in PrevNextInRange) |
| ShopPage.NextPage | src/pages/Shop.tsx:272 | `Math.min(totalPages, p + 1)` (proved in PrevNextInRange) |
| ShopPage.PrevNextInRange | src/pages/Shop.tsx:237-273 | Previous and Next move by one and stay within 1..totalPages |
| ShopPage.PageButtons | src/pages/Shop.tsx:246-265 | an ellipsis is shown exactly two pages from the current one, and never for the first or last page |
| ShopPage.BarIsNarrow | src/pages/Shop.tsx:244-266 | the page bar renders at most seven controls |
| ShopPage.ResetShowsFirstPage | src/pages/Shop.tsx:90-109 | after a filter, search or sort change or a cleared search, the first page of the new listing is shown |
| ReviewData.ProductReviews | src/data/reviews.ts:154-156 | exactly the reviews of that product |
| ReviewData.ProductReviewsAppend | src/data/reviews.ts:154-156 | the product's reviews keep the list's order |
| ReviewData.NoOthers | src/data/reviews.ts:154-156 | a list with none of the product's reviews yields none |
| ReviewData.OnlyOwn | src/data/reviews.ts:154-156 | a list of only the product's reviews yields itself |
| ReviewData.NearestTenth | src/data/reviews.ts:164 | rounding gives the tenth nearest to the mean, halves up |
| ReviewData.TenthsWithinStars | src/data/reviews.ts:164 | the rounded mean of ratings in 1..5 is in 1.0..5.0 |
| ReviewData.NoReviewsAveragesZero | src/data/reviews.ts:159-161 | a product without reviews averages 0 |
| ReviewData.AverageRatingTenths | src/data/reviews.ts:159-165 | `getAverageRating` in tenths: 0 without reviews, otherwise `Math.round(mean × 10)` (proved in NoReviewsAveragesZero, AverageIsNearestTenth, AverageWithinStars and AverageIsLocal) |
| ReviewData.AverageIsNearestTenth | src/data/reviews.ts:159-165 | the average is the tenth nearest to the exact mean |
| ReviewData.RatingSumBounds | src/data/reviews.ts:5 | ratings in 1..5 sum to between n and 5n |
| ReviewData.AverageWithinStars | src/data/reviews.ts:159-165 | a reviewed product averages between 1.0 and 5.0 |
| ReviewData.AverageIsLocal | src/data/reviews.ts:159-165 | other products' reviews, before or after, do not change a product's average |

## Left out

- Money on the back end is exact: `real` stands for DECIMAL(10,2) and JavaScript numbers, so rounding to cents and floating-point error are not modelled. Front-end prices are integers.
- ProductController.ToUpper: upper-cases ASCII letters only. Characters whose upper case is an ASCII letter, such as U+017F ("ſ" → "S"), are not modelled.
- ProductController.BuildProductQuery: query-string values are taken as already parsed. Non-numeric `page` or `limit`, the resulting NaN, and an array passed as `sortOrder` (which throws, giving 500) are not modelled.
- ProductController.UpdateProduct: stops at the statement it builds. How the store runs it is not modelled: an empty body (a syntax error) or an unknown column gives 500. The JSON encoding of values is taken as given.
- The order of `Object.keys` over the update body is taken as the order of the given field sequence.
- An update can change `stock_quantity` without `in_stock`; that is how the source behaves, and the model keeps it.
- `getProduct`, `deleteProduct` and `getProductStats` are not part of this model. Neither are `getOrders`, `getOrder`, `getWishlist` and `getCart`, which only read.
- The ORDER BY of the order, wishlist and cart listings is not modelled, because those reads are left out.
- UserController.UserTables.AddToCart: a `quantity` sent as JSON `null` is not modelled. It skips the default of 1 and binds NULL. An absent quantity is modelled.
- OrderController.CreateOrderSpec: column widths and numeric ranges are not modelled. The store refuses, with 500 and a rollback, a subtotal, tax or total of 10^8 or more (DECIMAL(10,2)), a `product_name` over 255 characters, a `payment_method` over 50, and a line quantity that is not an INTEGER in range; the model commits those orders with 201.
- OrderController.CreateOrderSpec: a JSON `null` is not told apart from an absent field. A `shippingAddress: null` is stored as the JSON text `null` and the source answers 201, where the model answers 500. An item without `price` or `quantity` makes the NOT NULL columns of `order_items` abort the order; `LineInput` always has both.
- OrderController.InsertLines: refuses only a nameless item or an unknown product. The VARCHAR(255), DECIMAL(10,2) and INTEGER failures of the line and stock writes are not modelled.
- OrderController.OrderTables.CreateOrder: proved equal to CreateOrderSpec, so it leaves out the same column-width, range and JSON `null` cases.
- ProductController.CreateProduct: VARCHAR widths (name 255, brand 100), the DECIMAL(10,2) price range and the INTEGER range of `discount` and `stockQuantity` are not modelled; the store answers 500 where the model creates the row. A JSON `null` `stockQuantity` skips the default and stores NULL, where the model stores 0.
- ProductController.CreateProduct: the `frame_shape`, `material`, `color`, `images` and `features` columns are copied from the body to the row unchanged and are not part of the model's row.
- UserController.UserTables.AddToCart: the INTEGER range of `quantity`, including `cart.quantity + $3` overflowing on conflict, is not modelled; the store answers 500 where the model answers 201.
- UserController.UserTables.UpdateCartItem: a JSON `null` quantity gives 400 in the source (`null <= 0` is true); the model's `None` is an absent quantity, which is written as NULL. The INTEGER range of the quantity is not modelled.
- ReviewController.ReviewTable.CreateReview: a title over 255 characters (VARCHAR(255)) makes the store answer 500; the model appends the review with 201.
- ReviewController.ReviewTable.UpdateReview: a title over 255 characters, or a non-integer rating, makes the store answer 500; the model applies the patch with 200.
- Authentication and the JWT middleware are left out: the caller's user id is a parameter.
- Foreign keys to the users table are left out: every user id is taken to exist.
- OrderController.OrderTables.CreateOrder: the order number (`Date.now()` plus `Math.random()`) is a parameter, because clocks and randomness are outside the model. A number already taken gives 500, as the UNIQUE constraint does.
- Order, review and cart-row ids are UUIDs in the store but positions or counters here. A malformed id makes the store raise an error (500) where the model answers 404.
- ProductController.UpdateProduct, UserController.UserTables.RemoveFromWishlist, ReviewController.GetProductReviews: product ids are UUIDs in the store but any string here. A malformed product id makes the store raise an error, which the handlers answer with 500; the model answers 404 (`UpdateProduct`), 200 (`RemoveFromWishlist`) or a listing (`GetProductReviews`).
- ReviewController.ReviewTable.CreateReview: ratings are integers, so a non-integer rating is not modelled.
- `payment_status` and `notes` on orders are not stored by the model, because no modelled operation writes them.
- ReviewController.AverageFacts: SQL `AVG` is an exact `real`; the store's numeric precision is not modelled.
- ShopPage: `toLowerCase` and `localeCompare` are parameters, because the model has no Unicode case mapping or collation. Name sorts are proved sorted only for a consistent collation.
- ShopPage: `Array.prototype.sort` is modelled as a stable insertion sort. Only its permutation and ordering promises are stated, not the engine's algorithm.
- CartContext.CartProvider: only the guest (offline) branches are modelled. The signed-in branches call the cart API, show toasts and reload state from the server; they are left out.
- localStorage persistence, toasts and console output in the contexts are left out.
- Concurrency is left out: React state batching, interleaved requests and simultaneous transactions. The compare tray's guard reads the items of the last render, so two quick additions in one batch can exceed three; the model applies updates one at a time.
