# shop-matrix storefront core, modelled in Dafny

This project models the rules of the shop-matrix storefront. It is an
Express/MongoDB server with a React/Redux client. The model covers:

- **Server controllers** for carts, addresses, reviews, orders, payments,
  products and categories. Each collection is one field of the `Store.Database`
  class: a `map` from document id to document, except the review collection,
  which is a `seq` in creation order. Each HTTP handler is a method that
  changes only the collections it names. Its result is `Ok(value)` or
  `Err(status, message)`, with the status codes and messages of the source.
- **Client state and page rules**: the cart and address Redux slices (as
  classes whose methods are the reducer cases), the checkout pricing and order
  payload, shipping-address preselection, the product page's quantity stepper,
  the star widgets and the administrators' order filter.

Money is integer cents. A product's review mean is a `real`. Ids are natural
numbers. A fresh id, the clock and the database's sort order are parameters.

The main invariants proved:

- the cart totals equal the sums over the lines (`Carts.Consistent`);
- at most one default address per user (`Addresses.AtMostOneDefault`);
- each product's `numReviews`/`rating` agree with the review collection
  (`Reviews.AggregatesAgree`);
- order flags only go from false to true and always carry their timestamps
  (`Orders.FlagsKept`, `Orders.AllStamped`);
- slugs are unique (`Categories.UniqueSlugs`, `Products.UniqueSlugs`).

Each handler states that it keeps its invariant. The lemmas prove the
arithmetic behind them: how each sum changes when a line or review is added,
updated or removed, and the order-independent stock decrement.

Two further observations, stated as lemmas:

- Crossing the free-shipping threshold lowers the checkout total
  (`PlaceOrder.FreeShippingCliff`).
- The order filter's values are lower case, and so is the stored status after
  lower-casing. A filter value with a capital letter therefore matches nothing
  (`OrderList.CapitalFilterMatchesNothing`).

## Model

| member | source | states |
|---|---|---|
| Common.Lower | server/controllers/productController.js:100 | each character is lower-cased in place (ASCII letters A-Z become a-z, every other character is kept), so the length is kept and no upper-case letter remains |
| Common.Slugify | server/controllers/productController.js:100 | character i of the slug is a dash where the name has a space and otherwise the name's character lower-cased; so the slug has the name's length, no spaces and no capitals, and a dash exactly where the name had a space or a dash |
| Common.SlugifyIdempotent | server/controllers/categoryController.js:33 | a slug is its own slug |
| Common.SlugCollision | server/controllers/categoryController.js:33 | "Red Shirt" and "red-shirt" get the same slug, so the duplicate check treats them as one name |
| Common.PageNumber | server/controllers/productController.js:11 | a missing or zero page number means page 1; a given non-zero page number is used as is |
| Common.PageCountIsCeiling | server/controllers/productController.js:58 | pages is the ceiling of count/10: enough pages for every item, and no empty last page |
| Common.GetPage | server/controllers/productController.js:52-53 | page p holds at most 10 items, item j being listing item 10·(p−1)+j; no page for a negative number |
| Common.PageNonEmptyIff | server/controllers/productController.js:52-58 | page p ≥ 1 has items iff p ≤ pages |
| Common.ElementOnPage | server/controllers/productController.js:52-53 | listing item k is item k mod 10 of page ⌊k/10⌋+1 |
| Carts.WithTotals | server/controllers/cartController.js:79-86 | the totals recomputed from the lines satisfy the cart invariant |
| Carts.SumsAppend | server/controllers/cartController.js:79-86 | appending a line adds its quantity and its price×quantity to the totals |
| Carts.SumsConcat | server/controllers/cartController.js:186-193 | the totals of two runs of lines add up |
| Carts.SumsUpdate | server/controllers/cartController.js:147-154 | changing one line changes each total by exactly that line's difference |
| Carts.AddLineMerges | server/controllers/cartController.js:61-68 | adding a product already in the cart raises that line's quantity, keeps its price snapshot and adds no line |
| Carts.AddLineAppends | server/controllers/cartController.js:69-76 | adding a new product appends exactly one line, at the end, at the current price |
| Carts.AddLineTotals | server/controllers/cartController.js:61-86 | after an add, totalItems rises by q and totalPrice by q times the line's unit price |
| Carts.AddLineKeepsIdsUnique | server/controllers/cartController.js:69-76 | line ids stay distinct when the new line gets a fresh id |
| Carts.UpdateLine | server/controllers/cartController.js:138-144 | the quantity changes only when the new one is truthy, the attributes only when given; other lines are unchanged |
| Carts.UpdateLineTotals | server/controllers/cartController.js:138-154 | the totals after an update differ from before by that one line's change |
| Carts.RemoveAbsentItem | server/controllers/cartController.js:183 | removing an id no line has leaves the lines unchanged |
| Carts.RemovePresentItem | server/controllers/cartController.js:183 | with distinct ids, removing line k's id deletes exactly that line and keeps the others in order |
| Carts.RemovePresentItemTotals | server/controllers/cartController.js:183-193 | removing line k takes exactly its share off both totals |
| Carts.GetCart | server/controllers/cartController.js:14-25 | a user without a cart gets a new empty cart with zero totals; an existing cart is returned unchanged |
| Carts.AddToCart | server/controllers/cartController.js:31-98 | 404 for an unknown product and 400 when the stock is below the requested quantity (not the merged total), both leaving the cart unchanged; quantity defaults to 1; otherwise the merged or appended lines with recomputed totals |
| Carts.UpdateCartItem | server/controllers/cartController.js:103-166 | 404 without a cart or without the line; otherwise the merged line with recomputed totals, other lines unchanged |
| Carts.RemoveCartItem | server/controllers/cartController.js:171-205 | 404 without a cart; otherwise exactly the lines with a different id, in order, with recomputed totals |
| Carts.ClearCart | server/controllers/cartController.js:210-228 | 404 without a cart; otherwise no lines and zero totals |
| Addresses.ClearDefaults | server/controllers/addressController.js:172-175 | clearing keeps every address and field except isDefault, and leaves the given user with no default and other users untouched |
| Addresses.Merge | server/controllers/addressController.js:112-121 | name, addressLine1, city, state, postal code, country and phone each take a given non-empty value and otherwise keep the old one; addressLine2 and isDefault are replaced whenever given, even by "" or false; the owner is unchanged |
| Addresses.MergeNothing | server/controllers/addressController.js:112-121 | an empty update changes nothing |
| Addresses.ClearThenSetIsOnlyDefault | server/controllers/addressController.js:172-179 | clear-then-set by the owner makes the target the owner's only default |
| Addresses.DeleteDefaultLeavesNone | server/controllers/addressController.js:147 | deleting the default leaves its owner with no default |
| Addresses.GetAddressById | server/controllers/addressController.js:17-34 | 404 for an unknown id, 401 unless owner or administrator, else the address |
| Addresses.CreateAddress | server/controllers/addressController.js:39-74 | a truthy isDefault first clears the caller's defaults, otherwise the others are untouched; at most one default per user is kept |
| Addresses.UpdateAddress | server/controllers/addressController.js:79-129 | 404/401 change nothing; other defaults are cleared only when the address goes from non-default to default; the merge is applied; the owner keeps at most one default |
| Addresses.DeleteAddress | server/controllers/addressController.js:134-153 | 404/401 change nothing; otherwise only the target is removed |
| Addresses.SetDefaultAddress | server/controllers/addressController.js:158-185 | 404/401 change nothing; the caller's defaults are cleared and the target set; for the owner the target becomes the only default |
| Addresses.AdminSetDefaultKeepsOldDefault | server/controllers/addressController.js:172-179 | an administrator setting another user's address as default leaves that user with two defaults |
| Addresses.SetOwnersDefault | server/controllers/addressController.js:172-179 | clearing the owner's defaults instead makes the target the owner's only default, changes no other user, and keeps at most one default for every user |
| AddressSlice.ReplaceById | client/src/redux/slices/addressSlice.ts:175-177 | the list keeps its length and order; exactly the entries with the payload's id are replaced |
| AddressSlice.MarkDefault | client/src/redux/slices/addressSlice.ts:212-215 | isDefault becomes true exactly for the payload's id; every other field and the length are unchanged |
| AddressSlice.ReplaceByIdKeepsIds | client/src/redux/slices/addressSlice.ts:175-177 | distinct ids stay distinct; the payload is in the new list iff its id was in the old one |
| AddressSlice.RemoveByIdExact | client/src/redux/slices/addressSlice.ts:194-196 | the filter keeps exactly the entries with another id; an absent id changes nothing |
| AddressSlice.RemoveByIdPresent | client/src/redux/slices/addressSlice.ts:194-196 | with distinct ids, removing entry k's id deletes exactly entry k and keeps the order |
| AddressSlice.MarkDefaultSingle | client/src/redux/slices/addressSlice.ts:212-215 | after marking, no two entries are default, and an entry is default iff it has the payload's id |
| AddressSlice.AddressState.constructor | client/src/redux/slices/addressSlice.ts:26-32 | the initial state is empty, idle, without error or success |
| AddressSlice.AddressState.ClearAddressDetails | client/src/redux/slices/addressSlice.ts:110-112 | only the viewed address is reset |
| AddressSlice.AddressState.ClearError | client/src/redux/slices/addressSlice.ts:113-115 | only the error is reset |
| AddressSlice.AddressState.ResetSuccess | client/src/redux/slices/addressSlice.ts:116-118 | only the success flag is reset |
| AddressSlice.AddressState.Pending | client/src/redux/slices/addressSlice.ts:123-126 | loading set, error cleared, success cleared for create/update/delete, list untouched |
| AddressSlice.AddressState.Rejected | client/src/redux/slices/addressSlice.ts:131-134 | loading cleared, error recorded, success cleared for create/update/delete, list untouched |
| AddressSlice.AddressState.FetchAllFulfilled | client/src/redux/slices/addressSlice.ts:127-130 | the list becomes the payload |
| AddressSlice.AddressState.FetchOneFulfilled | client/src/redux/slices/addressSlice.ts:141-144 | the viewed address becomes the payload |
| AddressSlice.AddressState.CreateFulfilled | client/src/redux/slices/addressSlice.ts:156-160 | the payload is appended last and success set |
| AddressSlice.AddressState.UpdateFulfilled | client/src/redux/slices/addressSlice.ts:173-179 | the list is replaced by id and success set; distinct ids stay distinct |
| AddressSlice.AddressState.DeleteFulfilled | client/src/redux/slices/addressSlice.ts:192-198 | exactly the entries with the request's id are removed and success set |
| AddressSlice.AddressState.SetDefaultFulfilled | client/src/redux/slices/addressSlice.ts:210-216 | exactly the payload's id is marked default; success untouched |
| Reviews.Reaggregate | server/controllers/reviewController.js:80-85 | the product's count and rating become those of its reviews; no other field changes |
| Reviews.RatingSumConcat | server/controllers/reviewController.js:83-84 | the rating sum of two runs of reviews adds up |
| Reviews.RatingSumBounds | server/models/reviewModel.js:29-32 | with ratings in 1..5, the sum lies between n and 5n |
| Reviews.MeanInRange | server/controllers/reviewController.js:151-158 | a product's rating is 0 without reviews and otherwise lies in [1, 5] |
| Reviews.ProductReviewsOfOne | server/controllers/reviewController.js:80-85 | a single review belongs to its own product's list only |
| Reviews.ProductReviewsAppend | server/controllers/reviewController.js:71-85 | appending a review extends its own product's list by that review and no other list |
| Reviews.ProductReviewsSplit | server/controllers/reviewController.js:151-158 | a product's list splits around review i |
| Reviews.ReplaceReviewAggregate | server/controllers/reviewController.js:115-120 | replacing review i by one of the same product keeps the count and changes the sum by the rating difference |
| Reviews.RemoveReviewAggregate | server/controllers/reviewController.js:151-158 | removing review i lowers its product's count by one and its sum by its rating, and leaves other products alone |
| Reviews.AppendReviewAggregate | server/controllers/reviewController.js:80-85 | appending a review raises its product's count by one and its sum by its rating |
| Reviews.ReaggregateKeepsAgreement | server/controllers/reviewController.js:80-85 | re-aggregating the one product whose reviews changed restores agreement for every product |
| Reviews.AppendKeepsInvariants | server/controllers/reviewController.js:70-85 | appending a fresh review for an existing, not yet reviewed product keeps ratings in 1..5, one review per user and product, distinct ids and aggregate agreement, and leaves the product with at least one review |
| Reviews.ReplaceKeepsInvariants | server/controllers/reviewController.js:108-120 | replacing a review by one with the same id, user and product keeps those invariants, with the product's rating recomputed and its count untouched |
| Reviews.RemoveKeepsInvariants | server/controllers/reviewController.js:151-158 | removing a review keeps those invariants once its product is re-aggregated, and needs no re-aggregation when the product is gone |
| Reviews.GetReviews | server/controllers/reviewController.js:8-28 | the result holds exactly the reviews matching each supplied filter, newest first |
| Reviews.CreateReview | server/controllers/reviewController.js:49-88 | 404 for an unknown product, then 400 "Product already reviewed", both adding nothing; otherwise the review is appended approved and the product re-aggregated; one review per user and product, and aggregate agreement, are kept |
| Reviews.MergeReview | server/controllers/reviewController.js:108-110 | a rating of 0 or absent keeps the old rating; a falsy title or comment keeps the old value |
| Reviews.UpdateReview | server/controllers/reviewController.js:93-127 | 404/401 change nothing; the merged review is saved, the product's rating becomes the mean of its reviews and numReviews is unchanged |
| Reviews.DeleteReview | server/controllers/reviewController.js:132-167 | 404/401 change nothing; the review is removed and the product's count and mean recomputed, 0/0 when none remain |
| Reviews.ApproveReview | server/controllers/reviewController.js:172-183 | 404 for an unknown id; otherwise isApproved is true, approving twice is the same as once, and aggregates still agree |
| Orders.NewOrder | server/controllers/orderController.js:27-36 | a new order is unpaid, undelivered, in the initial status, and bills the shipping address when no billing address is given |
| Orders.StockAfterSpec | server/controllers/orderController.js:39-45 | after the stock loop every product's stock has dropped by exactly the quantity ordered of it; missing products are skipped and no product is added |
| Orders.StockInSchema | server/models/productModel.js:40-46 | the stock bounds 0..255 that a product save enforces |
| Orders.StockStaysInSchema | server/controllers/orderController.js:39-45 | while every save of the stock loop is accepted, every product's stock stays within 0..255, so it never goes negative |
| Orders.DecrementStock | server/controllers/orderController.js:39-45 | None when every line's save is accepted, and then the stock is that of the whole loop; otherwise the first rejected line k, with only the lines before k applied; stocks in bounds stay in bounds |
| Orders.CreateOrder | server/controllers/orderController.js:10-54 | missing or empty items give 400 "No order items" with nothing changed; a stock save the schema rejects gives a 500 with the order stored, the earlier lines decremented and the cart kept; otherwise the order is stored, every stock drops by exactly its ordered quantity, and an existing cart is emptied |
| Orders.GetOrderById | server/controllers/orderController.js:59-80 | 404 for an unknown id; the order iff the caller is its owner or an administrator, else 401 |
| Orders.UpdateOrderToPaid | server/controllers/orderController.js:85-115 | 404 for an unknown order; a body without a payer is a server error that writes nothing; otherwise the order is marked paid with its payment result, with no already-paid guard, and one Completed payment in USD for the order's total is recorded |
| Orders.UpdateOrderToDelivered | server/controllers/orderController.js:120-135 | delivered, status "Delivered", the old tracking number kept when none is given |
| Orders.Restatus | server/controllers/orderController.js:145-159 | the status, tracking number and notes keep their old values when not given; delivered is set, with the time, only for exactly "Delivered" and never cleared; no other field changes; a stamped order stays stamped |
| Orders.UpdateOrderStatus | server/controllers/orderController.js:140-166 | 404 for an unknown id, changing nothing; otherwise the order is replaced by the result of `Restatus`, every order stays stamped and no paid or delivered flag is cleared |
| Orders.GetOrders | server/controllers/orderController.js:182-194 | page p of the orders, newest first, ten per page, pages = ⌈count/10⌉ |
| Payments.NewPayment | server/controllers/paymentController.js:68-77 | currency defaults to "USD" and status to "Pending" |
| Payments.GetPaymentById | server/controllers/paymentController.js:18-38 | 404 for an unknown id; the payment iff owner or administrator, else 401 |
| Payments.CreatePayment | server/controllers/paymentController.js:43-93 | 404/401 create nothing; otherwise the payment is stored and the order marked paid iff the status is exactly "Completed", with no already-paid guard |
| Payments.MergeStatus | server/controllers/paymentController.js:103-107 | an absent or empty status or transaction id keeps the old one; nothing else changes |
| Payments.UpdatePaymentStatus | server/controllers/paymentController.js:98-132 | 404 changes nothing; "Completed" marks the order paid only if it exists and is unpaid, with the id falling back to "manual"; a paid order is never restamped |
| Payments.GetAllPayments | server/controllers/paymentController.js:137-150 | page p of all payments, ten per page, pages = ⌈count/10⌉ |
| Products.OneBoundIgnored | server/controllers/productController.js:24-27 | with only one price bound given, the price filter does not apply |
| Products.SortFor | server/controllers/productController.js:29-36 | a given field sorts descending iff sortOrder is "desc"; no field means createdAt descending |
| Products.GetProducts | server/controllers/productController.js:9-61 | page p of the matching products, in the order of the given listing, ten per page, with the count of all matches; every product returned matches the filters |
| Products.NewProduct | server/controllers/productController.js:116-130 | a new product has the name's slug, no reviews and a rating of 0 |
| Products.CreateProduct | server/controllers/productController.js:83-138 | 400 "Invalid category" before 400 "Product with this name already exists", both creating nothing; slugs stay unique |
| Products.MergeProduct | server/controllers/productController.js:163-192 | the slug follows a given name; name, price, description, richDescription and brand take a given truthy value and otherwise keep the old one (so a price of 0 cannot be set); a given category, images or attributes replace the old ones, even an empty array or object (these are never falsy), and absent ones keep the old value; stock, featured and discounts are replaced whenever given; rating and review count are untouched |
| Products.MergeNothing | server/controllers/productController.js:174-192 | an empty update changes nothing |
| Products.UpdateProduct | server/controllers/productController.js:143-200 | 404 for an unknown id, 400 for an unknown category, both changing nothing; otherwise the merge is stored |
| Products.CreateProductReview | server/controllers/productController.js:220-258 | 404 for an unknown product, 400 for a second review by the same user; otherwise the review is added and the product's count and mean recomputed |
| Products.LeftOutRankLower | server/controllers/productController.js:263-266 | in a rating-descending list of every product, any product outside the first n is rated no higher than each of the first n |
| Products.GetTopProducts | server/controllers/productController.js:263-266 | at most five products, highest rated first, none left out rated above one returned |
| Products.FeaturedCount | server/controllers/productController.js:272 | a missing or zero count means 8; a given non-zero count is used as is |
| Products.GetFeaturedProducts | server/controllers/productController.js:271-275 | the first count featured products, eight by default |
| Categories.MergeCategory | server/controllers/categoryController.js:77-93 | the slug follows a given name; falsy name, description and image, and an absent parent, keep the old value; isActive is replaced whenever given |
| Categories.MergeNothing | server/controllers/categoryController.js:88-93 | an empty update changes nothing |
| Categories.GetCategoryById | server/controllers/categoryController.js:15-24 | the category, or 404 |
| Categories.CreateCategory | server/controllers/categoryController.js:29-65 | a duplicate slug is refused before an unknown parent, both creating nothing; a new category is active; slugs stay unique |
| Categories.UpdateCategory | server/controllers/categoryController.js:70-101 | 404 for an unknown id, 400 for an unknown parent, both changing nothing; otherwise the merge is stored |
| Categories.DeleteCategory | server/controllers/categoryController.js:106-116 | 404 changes nothing; otherwise only that category is removed and slugs stay unique |
| CartSlice.CartState.constructor | client/src/redux/slices/cartSlice.ts:26-32 | no lines, zero totals, idle, no error |
| CartSlice.CartState.ClearError | client/src/redux/slices/cartSlice.ts:147-149 | only the error is reset |
| CartSlice.CartState.Pending | client/src/redux/slices/cartSlice.ts:154-157 | loading set, error cleared, lines and totals untouched |
| CartSlice.CartState.Rejected | client/src/redux/slices/cartSlice.ts:164-167 | loading cleared, error recorded, lines and totals untouched |
| CartSlice.CartState.Fulfilled | client/src/redux/slices/cartSlice.ts:158-163 | lines and both totals copied from the server's cart, so a consistent server cart gives consistent client totals |
| CartSlice.CartState.ClearFulfilled | client/src/redux/slices/cartSlice.ts:222-227 | no lines and zero totals |
| PlaceOrder.TaxIsRoundedFifteenPercent | client/src/pages/PlaceOrderPage.tsx:27 | the tax is 15% of the items price rounded to the nearest cent |
| PlaceOrder.TaxMonotone | client/src/pages/PlaceOrderPage.tsx:27 | a larger basket never pays less tax |
| PlaceOrder.ShippingThreshold | client/src/pages/PlaceOrderPage.tsx:28 | shipping is 0 iff the items price is above 100.00, otherwise 10.00; exactly 100.00 pays 10.00 |
| PlaceOrder.WorkedExample | client/src/pages/PlaceOrderPage.tsx:26-29 | 25.00 of items gives 10.00 shipping, 3.75 tax, 38.75 total |
| PlaceOrder.FreeShippingCliff | client/src/pages/PlaceOrderPage.tsx:26-29 | a basket of 100.01 costs less in total than one of 100.00 |
| PlaceOrder.ToOrderItem | client/src/pages/PlaceOrderPage.tsx:77-84 | an order item copies the line's product, name, first image, price, quantity and attributes |
| PlaceOrder.OrderItems | client/src/pages/PlaceOrderPage.tsx:77-84 | one order item per cart line, in the same order |
| PlaceOrder.PlaceOrderRequest | client/src/pages/PlaceOrderPage.tsx:69-96 | a request is sent iff there is a token and a loaded address; billing equals shipping; the payment method defaults to "Credit Card"; the prices are the page's |
| PlaceOrder.PlacedOrderMatchesPage | client/src/pages/PlaceOrderPage.tsx:85-90 | the server's new order from this request bills the shipping address, has the page's total and the cart's lines, and is refused as empty iff the cart was |
| Shipping.Preselect | client/src/pages/ShippingPage.tsx:70-78 | an existing selection is kept; with nothing selected, some listed address is chosen iff the list is non-empty |
| Shipping.PreselectChoice | client/src/pages/ShippingPage.tsx:73-76 | the first default address is preselected, or the first address when none is default |
| Shipping.PreselectFindsTheDefault | client/src/pages/ShippingPage.tsx:73-76 | with a single default in the book, that default is preselected |
| Shipping.PreselectEnablesContinue | client/src/pages/ShippingPage.tsx:306 | after preselection the Continue button is never disabled |
| Shipping.NewAddressIsDefault | client/src/pages/ShippingPage.tsx:120 | a new address is made default iff the user has no address yet |
| Shipping.ShippingPage.constructor | client/src/pages/ShippingPage.tsx:24 | nothing is selected at first |
| Shipping.ShippingPage.AddressesChanged | client/src/pages/ShippingPage.tsx:70-78 | the selection becomes the preselection and Continue is enabled |
| Shipping.ShippingPage.Choose | client/src/pages/ShippingPage.tsx:148 | the chosen address becomes the selection |
| Shipping.ShippingPage.Submit | client/src/pages/ShippingPage.tsx:95-103 | the selection is stored and the page moves on only when something is selected |
| ProductPage.DisabledIffNoEffect | client/src/pages/ProductPage.tsx:221-231 | each stepper button is disabled exactly when clicking it would change nothing |
| ProductPage.StepInRange | client/src/pages/ProductPage.tsx:121-131 | one click keeps the quantity between 1 and max(1, stock) |
| ProductPage.RunInRange | client/src/pages/ProductPage.tsx:36 | any sequence of clicks from the initial 1 keeps 1 ≤ quantity ≤ max(1, stock) |
| ProductPage.IncreasesReach | client/src/pages/ProductPage.tsx:127-131 | every quantity up to the stock is reached by enough increases |
| ProductPage.AddToCartNeverOutOfStock | client/src/pages/ProductPage.tsx:94-105 | for a stock of at least 0, Add to Cart is enabled exactly when the server's stock check accepts the quantity 1, and then every quantity the stepper reaches lies within the stock, so the request never takes the 400 "Product is out of stock" path |
| ProductPage.ProductPageState.constructor | client/src/pages/ProductPage.tsx:36-39 | quantity 1 and an empty review form |
| ProductPage.ProductPageState.DecreaseQuantity | client/src/pages/ProductPage.tsx:121-125 | the quantity drops by one only above 1; the range is kept |
| ProductPage.ProductPageState.IncreaseQuantity | client/src/pages/ProductPage.tsx:127-131 | the quantity rises by one only below the stock of a loaded product; the range is kept |
| ProductPage.ProductPageState.ReviewAccepted | client/src/pages/ProductPage.tsx:86-90 | the rating resets to 0 and title and comment to empty |
| Rating.Stars | client/src/components/product/Rating.tsx:16-64 | exactly five star slots |
| Rating.StarsFollowRule | client/src/components/product/Rating.tsx:17-62 | star k is full iff value ≥ k, half iff k − 0.5 ≤ value < k, else empty |
| Rating.StarsMonotone | client/src/components/product/Rating.tsx:17-63 | raising the value never lowers any star |
| Rating.StarsOrdered | client/src/components/product/Rating.tsx:17-63 | full stars come first, then at most one half star, then empty ones |
| Rating.Label | client/src/components/product/Rating.tsx:66 | the label appears iff a non-empty text is given |
| ProductCard.Symbols | client/src/components/product/ProductCard.tsx:39 | exactly five symbols |
| ProductCard.FilledCount | client/src/components/product/ProductCard.tsx:39-43 | symbol i is filled iff i < ⌊rating⌋, so clamp(⌊rating⌋, 0, 5) symbols are filled |
| ProductCard.AgreesWithStars | client/src/components/product/ProductCard.tsx:41 | symbol i is filled iff star i+1 of the rating widget is full |
| ProductCard.ReviewsNoun | client/src/components/product/ProductCard.tsx:46-47 | "review" iff exactly one review, else "reviews" |
| ProductCard.CardImage | client/src/components/product/ProductCard.tsx:23 | the first image, or the placeholder when it is missing or empty |
| OrderList.FilterOrders | client/src/pages/admin/OrderListPage.tsx:37-40 | "all" keeps the list; any other value keeps exactly the orders whose lower-cased status equals it |
| OrderList.FilterKeepsOrder | client/src/pages/admin/OrderListPage.tsx:40 | the filter keeps relative order |
| OrderList.CapitalisedStatusMatches | client/src/pages/admin/OrderListPage.tsx:40 | the stored "Pending" and "Delivered" show under "pending" and "delivered" |
| OrderList.CapitalFilterMatchesNothing | client/src/pages/admin/OrderListPage.tsx:40 | a filter value with a capital letter matches no order |

## Left out

- HTTP routing, `res.status`/`res.json`, middleware and `populate`. A handler's response is its `Result`. The administrator-only routes appear as callers of the handlers. The route guards themselves are not modelled.
- The `$regex` keyword search of getProducts. It is not modelled; the keyword filter is absent from `Products.ProductQuery`.
- The database's sort order is a parameter. `GetOrders`, `GetAllPayments`, `GetProducts`, `GetTopProducts` and `GetFeaturedProducts` take the sorted id list and require that it lists every document once. Only `GetTopProducts` also requires the order itself (rating, descending).
- Schema validation and unique indexes are not modelled:
  - review ratings are 1..5: a precondition of `Reviews.CreateReview` and `Products.CreateProductReview`, and `Reviews.UpdateReview` requires a given rating to lie in 0..5 (0 keeps the old rating), which leaves out the ratings whose save the schema rejects; and the payment status is one of four values (a precondition);
  - of the product schema's bounds only the 0..255 stock bound is modelled, and only in `Orders.CreateOrder`, where a rejected save is a server error; the other handlers that write a stock (`UpdateProduct`, `CreateProduct`) do not check it;
  - the unique slug index does not back up `UpdateProduct` and `UpdateCategory`, so a rename may duplicate a slug, and only creation is proved to keep slugs unique.
- The order schema is not part of this model. The initial status "Pending" is taken as its default.
- Mongoose's `save` writes only modified paths. The model writes the whole document. In setDefaultAddress, setting a default on the address that is already the default therefore differs: in the source the cleared flag is not re-saved and no default remains; in the model it stays default. The profile page never offers that button for the current default.
- Concurrency: each handler is one atomic step. Races between the clear step and the set step, between the stock writes, and between payment and order writes are not modelled.
- Floating point and display strings. Money is integer cents and the review mean is `real`. The checkout tax rounds halves upwards, and binary `toFixed` rounding of exact halves is not modelled.
- Time, `Date.now()` and fresh ids are parameters.
- Browser storage and navigation. The stored payment method and the loaded address reach `PlaceOrder.PlaceOrderRequest` as parameters. The shipping page's storage write is the `saved` field.
- `Common.Lower` lower-cases ASCII letters only. JavaScript's full Unicode case mapping is not modelled.
- getAddresses, getCategories, getMyOrders, getPayments, getProductById, getReviewById and deleteProduct are not modelled. Each is a plain list, read or delete, with no rule beyond those already modelled.
- The thin slices (auth, order, product, category) and the UI-only pages are not modelled.
- The client cart slice keeps each line's product as an id. The populated product details that the checkout copies are the separate `PlaceOrder.ClientLine`.
- A cart line whose product has no image sends `undefined` as its image. The model sends the empty string.
- A missing document after a successful lookup (a review whose product was deleted) makes the source crash with a server error. The model returns `Err(500, …)` and states only the status, not the runtime's message. The same holds for a product save the schema rejects in `Orders.CreateOrder`, whose message is abbreviated.
- `ProductPage.ProductPageState.IncreaseQuantity` and `DecreaseQuantity` take the stock as fixed. A stock that changes under a chosen quantity (a product reload) is not modelled.

## Findings

| source | as written | input that shows it | evidently intended | confidence | as-written member | corrected member |
|---|---|---|---|---|---|---|
| server/controllers/addressController.js:172-179 | the clear step clears the defaults of the requesting user, then sets the target | user 7 has default address 1 and address 2; administrator 9 sets address 2 as default; user 7 now has two defaults | clear the defaults of the address's owner, so the owner keeps exactly one default | not executed; high, the same `req.user._id` also targets updateAddress's clear step (addressController.js:105-110) | Addresses.AdminSetDefaultKeepsOldDefault | Addresses.SetOwnersDefault |
