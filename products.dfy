/**
 * The product controller: the listing query (filters, sort and page), the
 * category and duplicate-slug checks of creation, the merge-style update,
 * reviews posted through the product route, and the top and featured lists.
 */
module Products {
  import opened Common
  import opened Models
  import opened Store
  import Reviews
  import Categories

  // ---------------------------------------------------------------------
  // GET /api/products: filter object, sort object, page
  // ---------------------------------------------------------------------

  /**
   * The query parameters of the listing; a parameter that is absent or the
   * empty string is None. The keyword search is not modelled.
   */
  datatype ProductQuery = ProductQuery(
    category: Option<Id>, brand: Option<string>, priceMin: Option<int>, priceMax: Option<int>)

  /** The filter object: category and brand when given, the inclusive price range only when both bounds are given. */
  predicate MatchesQuery(q: ProductQuery, p: Product) {
    (q.category.None? || p.category == q.category.value) &&
    (q.brand.None? || p.brand == q.brand.value) &&
    (q.priceMin.Some? && q.priceMax.Some? ==> q.priceMin.value <= p.price <= q.priceMax.value)
  }

  function Matching(q: ProductQuery): Product -> bool {
    (p: Product) => MatchesQuery(q, p)
  }

  /** A single price bound filters nothing. */
  lemma OneBoundIgnored(q: ProductQuery, p: Product)
    requires q.priceMin.None? || q.priceMax.None?
    ensures MatchesQuery(q, p) <==> MatchesQuery(q.(priceMin := None, priceMax := None), p)
  {
  }

  /** The sort object: one field and its direction. */
  datatype SortOption = SortOption(field: string, descending: bool)

  /** `sortBy` sorts descending iff `sortOrder` is exactly "desc"; without `sortBy`, newest first. */
  function SortFor(sortBy: Option<string>, sortOrder: Option<string>): (s: SortOption)
    ensures sortBy.Some? && sortBy.value != "" ==> s.field == sortBy.value && (s.descending <==> sortOrder == Some("desc"))
    ensures sortBy.None? || sortBy == Some("") ==> s == SortOption("createdAt", true)
  {
    if sortBy.Some? && sortBy.value != "" then SortOption(sortBy.value, sortOrder == Some("desc"))
    else SortOption("createdAt", true)
  }

  datatype ProductListing = ProductListing(products: seq<Product>, page: int, pages: nat, count: nat)

  /**
   * `r` is page `requested` of `matching`, ten per page, with the count of
   * all matches, and every product on it satisfies the query.
   */
  predicate IsMatchingPage(r: Option<ProductListing>, matching: seq<Product>, q: ProductQuery, requested: Option<int>) {
    (r.Some? <==> PageNumber(requested) >= 1) &&
    (r.Some? ==>
       r.value.page == PageNumber(requested) && r.value.count == |matching| &&
       r.value.pages == PageCount(|matching|) && |r.value.products| <= PageSize) &&
    (r.Some? ==> forall j :: 0 <= j < |r.value.products| ==> MatchesQuery(q, r.value.products[j])) &&
    (r.Some? ==> forall j :: 0 <= j < |r.value.products| ==>
       PageSize * (r.value.page - 1) + j < |matching| &&
       r.value.products[j] == matching[PageSize * (r.value.page - 1) + j])
  }

  /** The listing built from a page of the matches. */
  function Listing(page: Option<Page<Product>>, count: nat): Option<ProductListing> {
    if page.None? then None else Some(ProductListing(page.value.items, page.value.page, page.value.pages, count))
  }

  lemma MatchingPage(matching: seq<Product>, q: ProductQuery, requested: Option<int>)
    requires forall x :: x in matching ==> MatchesQuery(q, x)
    ensures IsMatchingPage(Listing(GetPage(matching, requested), |matching|), matching, q, requested)
  {
    var page := GetPage(matching, requested);
    if page.Some? {
      forall j | 0 <= j < |page.value.items| ensures MatchesQuery(q, page.value.items[j]) {
        assert page.value.items[j] in matching;
      }
    }
  }

  /**
   * The listing handler. `sorted` is every product id once, in the order of
   * the sort object; the handler filters it, counts the matches and returns
   * one page of ten.
   */
  method GetProducts(db: Database, q: ProductQuery, sorted: seq<Id>, pageNumber: Option<int>) returns (r: Option<ProductListing>)
    requires ListsAll(db.products, sorted)
    ensures IsMatchingPage(r, Filter(Lookup(db.products, sorted), Matching(q)), q, pageNumber)
  {
    var matching := Filter(Lookup(db.products, sorted), Matching(q));
    MatchingPage(matching, q, pageNumber);
    r := Listing(GetPage(matching, pageNumber), |matching|);
  }

  // ---------------------------------------------------------------------
  // POST /api/products
  // ---------------------------------------------------------------------

  predicate SlugTaken(products: map<Id, Product>, slug: string) {
    exists id :: id in products && products[id].slug == slug
  }

  predicate UniqueSlugs(products: map<Id, Product>) {
    forall a, b :: a in products && b in products && products[a].slug == products[b].slug ==> a == b
  }

  /** The body of a create request, with the schema defaults already filled in for absent fields. */
  datatype ProductForm = ProductForm(
    name: string, price: int, description: string, richDescription: string, images: seq<string>,
    brand: string, category: Id, countInStock: int, isFeatured: bool, attributes: Attrs,
    discountPrice: int, discountPercentage: int)

  function NewProduct(f: ProductForm): (p: Product)
    ensures p.slug == Slugify(f.name) && p.rating == 0.0 && p.numReviews == 0 && p.isActive
  {
    Product(f.name, Slugify(f.name), f.price, f.description, f.richDescription, f.images, f.brand, f.category,
            f.countInStock, 0.0, 0, f.isFeatured, true, f.attributes, f.discountPrice, f.discountPercentage)
  }

  /** POST /api/products: the category is checked before the slug. */
  method CreateProduct(db: Database, form: ProductForm, newId: Id) returns (r: Result<Product>)
    requires newId !in db.products
    modifies db`products
    ensures form.category !in db.categories ==> r == Err(400, "Invalid category")
    ensures form.category in db.categories && SlugTaken(old(db.products), Slugify(form.name)) ==>
              r == Err(400, "Product with this name already exists")
    ensures r.Err? ==> db.products == old(db.products)
    ensures r.Ok? <==> form.category in db.categories && !SlugTaken(old(db.products), Slugify(form.name))
    ensures r.Ok? ==> r.value == NewProduct(form) && db.products == old(db.products)[newId := r.value]
    ensures UniqueSlugs(old(db.products)) ==> UniqueSlugs(db.products)
  {
    var slug := Slugify(form.name);
    if form.category !in db.categories {
      return Err(400, "Invalid category");
    }
    if exists id :: id in db.products && db.products[id].slug == slug {
      return Err(400, "Product with this name already exists");
    }
    var product := NewProduct(form);
    db.products := db.products[newId := product];
    r := Ok(product);
  }

  // ---------------------------------------------------------------------
  // PUT /api/products/:id
  // ---------------------------------------------------------------------

  /** The body of an update request; every field may be absent. */
  datatype ProductPatch = ProductPatch(
    name: Option<string>, price: Option<int>, description: Option<string>, richDescription: Option<string>,
    images: Option<seq<string>>, brand: Option<string>, category: Option<Id>, countInStock: Option<int>,
    isFeatured: Option<bool>, attributes: Option<Attrs>, discountPrice: Option<int>, discountPercentage: Option<int>)

  /**
   * The field merge of updateProduct. Text fields and the price keep their
   * value when the new one is falsy, so a price of 0 cannot be set; arrays
   * and objects are never falsy; countInStock, isFeatured, discountPrice and
   * discountPercentage are replaced whenever given. The slug follows a given name.
   */
  function MergeProduct(p: Product, u: ProductPatch): (r: Product)
    ensures r.slug == (if u.name.Some? && u.name.value != "" then Slugify(u.name.value) else p.slug)
    ensures r.name == (if u.name.Some? && u.name.value != "" then u.name.value else p.name)
    ensures r.price == (if u.price.Some? && u.price.value != 0 then u.price.value else p.price)
    ensures u.price == Some(0) ==> r.price == p.price
    ensures r.description == (if u.description.Some? && u.description.value != "" then u.description.value else p.description)
    ensures r.richDescription ==
              (if u.richDescription.Some? && u.richDescription.value != "" then u.richDescription.value else p.richDescription)
    ensures r.images == (if u.images.Some? then u.images.value else p.images)
    ensures r.brand == (if u.brand.Some? && u.brand.value != "" then u.brand.value else p.brand)
    ensures r.attributes == (if u.attributes.Some? then u.attributes.value else p.attributes)
    ensures r.category == (if u.category.Some? then u.category.value else p.category)
    ensures r.countInStock == (if u.countInStock.Some? then u.countInStock.value else p.countInStock)
    ensures r.isFeatured == (if u.isFeatured.Some? then u.isFeatured.value else p.isFeatured)
    ensures r.discountPrice == (if u.discountPrice.Some? then u.discountPrice.value else p.discountPrice)
    ensures r.discountPercentage == (if u.discountPercentage.Some? then u.discountPercentage.value else p.discountPercentage)
    ensures r.rating == p.rating && r.numReviews == p.numReviews && r.isActive == p.isActive
  {
    var slug := if u.name.Some? && u.name.value != "" then Slugify(u.name.value) else p.slug;
    p.(name := OrStr(u.name, p.name),
       slug := slug,
       price := OrInt(u.price, p.price),
       description := OrStr(u.description, p.description),
       richDescription := OrStr(u.richDescription, p.richDescription),
       images := u.images.Or(p.images),
       brand := OrStr(u.brand, p.brand),
       category := u.category.Or(p.category),
       countInStock := u.countInStock.Or(p.countInStock),
       isFeatured := u.isFeatured.Or(p.isFeatured),
       attributes := u.attributes.Or(p.attributes),
       discountPrice := u.discountPrice.Or(p.discountPrice),
       discountPercentage := u.discountPercentage.Or(p.discountPercentage))
  }

  /** An empty update leaves the product as it was. */
  lemma MergeNothing(p: Product)
    ensures MergeProduct(p, ProductPatch(None, None, None, None, None, None, None, None, None, None, None, None)) == p
  {
  }

  method UpdateProduct(db: Database, id: Id, patch: ProductPatch) returns (r: Result<Product>)
    modifies db`products
    ensures id !in old(db.products) ==> r == Err(404, "Product not found")
    ensures id in old(db.products) && patch.category.Some? && patch.category.value !in db.categories ==>
              r == Err(400, "Invalid category")
    ensures r.Err? ==> db.products == old(db.products)
    ensures r.Ok? <==> id in old(db.products) && Categories.ParentKnown(db.categories, patch.category)
    ensures r.Ok? ==> r.value == MergeProduct(old(db.products)[id], patch) && db.products == old(db.products)[id := r.value]
  {
    if id !in db.products {
      return Err(404, "Product not found");
    }
    if patch.category.Some? && patch.category.value !in db.categories {
      return Err(400, "Invalid category");
    }
    var product := MergeProduct(db.products[id], patch);
    db.products := db.products[id := product];
    r := Ok(product);
  }

  // ---------------------------------------------------------------------
  // POST /api/products/:id/reviews
  // ---------------------------------------------------------------------

  /** The same rules as POST /api/reviews, with the product taken from the route. */
  method CreateProductReview(db: Database, caller: Caller, productId: Id, rating: int, title: string, comment: string, newId: Id)
    returns (r: Result<string>)
    requires 1 <= rating <= 5
    requires forall i :: 0 <= i < |db.reviews| ==> db.reviews[i].id != newId
    modifies db`reviews, db`products
    ensures productId !in old(db.products) ==> r == Err(404, "Product not found")
    ensures productId in old(db.products) && Reviews.Reviewed(old(db.reviews), caller.id, productId) ==>
              r == Err(400, "Product already reviewed")
    ensures r.Err? ==> db.reviews == old(db.reviews) && db.products == old(db.products)
    ensures r.Ok? <==> productId in old(db.products) && !Reviews.Reviewed(old(db.reviews), caller.id, productId)
    ensures r.Ok? ==>
              r.value == "Review added" &&
              db.reviews == old(db.reviews) + [Review(newId, caller.id, productId, rating, title, comment, true)] &&
              db.products == old(db.products)[productId := Reviews.Reaggregate(old(db.products)[productId], db.reviews, productId)]
    ensures Reviews.OneReviewPerUserProduct(old(db.reviews)) ==> Reviews.OneReviewPerUserProduct(db.reviews)
    ensures Reviews.AggregatesAgree(old(db.products), old(db.reviews)) ==> Reviews.AggregatesAgree(db.products, db.reviews)
  {
    if productId !in db.products {
      return Err(404, "Product not found");
    }
    if exists i :: 0 <= i < |db.reviews| && db.reviews[i].user == caller.id && db.reviews[i].product == productId {
      return Err(400, "Product already reviewed");
    }
    var review := Review(newId, caller.id, productId, rating, title, comment, true);
    var products := db.products;
    Reviews.AppendKeepsInvariants(products, db.reviews, review);
    db.reviews := db.reviews + [review];
    db.products := products[productId := Reviews.Reaggregate(products[productId], db.reviews, productId)];
    r := Ok("Review added");
  }

  // ---------------------------------------------------------------------
  // GET /api/products/top and /api/products/featured
  // ---------------------------------------------------------------------

  /** `ids` is in non-increasing order of rating. */
  predicate ByRatingDesc(products: map<Id, Product>, ids: seq<Id>)
    requires forall i :: 0 <= i < |ids| ==> ids[i] in products
  {
    forall i, j :: 0 <= i < j < |ids| ==> products[ids[i]].rating >= products[ids[j]].rating
  }

  /**
   * GET /api/products/top: the first five of all products sorted by rating.
   * Every product left out is rated no higher than every product returned.
   */
  method GetTopProducts(db: Database, byRating: seq<Id>) returns (r: seq<Product>)
    requires ListsAll(db.products, byRating)
    requires ByRatingDesc(db.products, byRating)
    ensures |r| == Min(5, |byRating|) == Min(5, |db.products|)
    ensures forall i :: 0 <= i < |r| ==> r[i] == db.products[byRating[i]]
    ensures forall i, j :: 0 <= i < j < |r| ==> r[i].rating >= r[j].rating
    ensures forall id, i :: id in db.products && id !in byRating[..|r|] && 0 <= i < |r| ==> db.products[id].rating <= r[i].rating
  {
    var products := db.products;
    CountListed(products, byRating);
    var n := Min(5, |byRating|);
    LeftOutRankLower(products, byRating, n);
    r := Lookup(products, byRating[..n]);
  }

  /** In a ranking of every product, each product outside the first n is rated no higher than each of them. */
  lemma LeftOutRankLower(products: map<Id, Product>, byRating: seq<Id>, n: nat)
    requires ListsAll(products, byRating) && ByRatingDesc(products, byRating) && n <= |byRating|
    ensures forall id, i :: id in products && id !in byRating[..n] && 0 <= i < n ==> products[id].rating <= products[byRating[i]].rating
  {
    forall k | 0 <= k < n ensures byRating[k] in byRating[..n] {
      assert byRating[..n][k] == byRating[k];
    }
    forall id, i | id in products && id !in byRating[..n] && 0 <= i < n
      ensures products[id].rating <= products[byRating[i]].rating
    {
      var k :| 0 <= k < |byRating| && byRating[k] == id;
    }
  }

  /** `Number(req.query.count) || 8` */
  function FeaturedCount(count: Option<int>): (n: int)
    ensures n != 0
    ensures count.None? || count == Some(0) ==> n == 8
    ensures count.Some? && count.value != 0 ==> n == count.value
  {
    OrInt(count, 8)
  }

  function Abs(n: int): nat {
    if n < 0 then -n else n
  }

  /**
   * GET /api/products/featured: at most `count` featured products (a
   * negative limit acts as its absolute value in the database).
   */
  method GetFeaturedProducts(db: Database, featured: seq<Id>, count: Option<int>) returns (r: seq<Product>)
    requires forall i :: 0 <= i < |featured| ==> featured[i] in db.products && db.products[featured[i]].isFeatured
    requires forall id :: id in db.products && db.products[id].isFeatured ==> id in featured
    requires forall i, j :: 0 <= i < j < |featured| ==> featured[i] != featured[j]
    ensures |r| == Min(Abs(FeaturedCount(count)), |featured|)
    ensures count.None? || count == Some(0) ==> |r| == Min(8, |featured|)
    ensures forall i :: 0 <= i < |r| ==> r[i].isFeatured && r[i] == db.products[featured[i]]
  {
    var n := Min(Abs(FeaturedCount(count)), |featured|);
    r := Lookup(db.products, featured[..n]);
  }
}
