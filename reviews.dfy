/**
 * The review controller: one review per (user, product), and the product's
 * `numReviews` and `rating` recomputed from all of the product's reviews
 * after every create, update and delete.
 */
module Reviews {
  import opened Common
  import opened Models
  import opened Store

  // ---------------------------------------------------------------------
  // Aggregation: Review.find({ product }) and the reduce over its ratings
  // ---------------------------------------------------------------------

  function ForProduct(product: Id): Review -> bool {
    (rv: Review) => rv.product == product
  }

  function HasId(id: Id): Review -> bool {
    (rv: Review) => rv.id == id
  }

  /** The reviews of one product, in collection order. */
  function ProductReviews(rs: seq<Review>, product: Id): seq<Review> {
    Filter(rs, ForProduct(product))
  }

  function RatingSum(rs: seq<Review>): int {
    if rs == [] then 0 else rs[0].rating + RatingSum(rs[1..])
  }

  /** The mean rating, and 0 when there is no review (the reset of deleteReview). */
  function Mean(rs: seq<Review>): real {
    if |rs| == 0 then 0.0 else RatingSum(rs) as real / |rs| as real
  }

  predicate RatingsInRange(rs: seq<Review>) {
    forall i :: 0 <= i < |rs| ==> 1 <= rs[i].rating <= 5
  }

  /** The unique index on (product, user). */
  predicate OneReviewPerUserProduct(rs: seq<Review>) {
    forall i, j :: 0 <= i < j < |rs| ==> rs[i].user != rs[j].user || rs[i].product != rs[j].product
  }

  predicate UniqueReviewIds(rs: seq<Review>) {
    forall i, j :: 0 <= i < j < |rs| ==> rs[i].id != rs[j].id
  }

  predicate Reviewed(rs: seq<Review>, user: Id, product: Id) {
    exists i :: 0 <= i < |rs| && rs[i].user == user && rs[i].product == product
  }

  /** `product.numReviews` and `product.rating` agree with the review collection. */
  predicate Aggregated(p: Product, rs: seq<Review>, id: Id) {
    p.numReviews == |ProductReviews(rs, id)| && p.rating == Mean(ProductReviews(rs, id))
  }

  /** The invariant the review handlers keep for every product. */
  predicate AggregatesAgree(products: map<Id, Product>, rs: seq<Review>) {
    forall id :: id in products ==> Aggregated(products[id], rs, id)
  }

  /** The assignment of numReviews and rating the handlers perform. */
  function Reaggregate(p: Product, rs: seq<Review>, id: Id): (r: Product)
    ensures Aggregated(r, rs, id)
    ensures r.(numReviews := p.numReviews, rating := p.rating) == p
  {
    p.(numReviews := |ProductReviews(rs, id)|, rating := Mean(ProductReviews(rs, id)))
  }

  lemma {:induction false} RatingSumConcat(s: seq<Review>, t: seq<Review>)
    ensures RatingSum(s + t) == RatingSum(s) + RatingSum(t)
  {
    if s == [] {
      assert s + t == t;
    } else {
      assert (s + t)[1..] == s[1..] + t;
      RatingSumConcat(s[1..], t);
    }
  }

  lemma {:induction false} RatingSumBounds(rs: seq<Review>)
    requires RatingsInRange(rs)
    ensures |rs| <= RatingSum(rs) <= 5 * |rs|
  {
    if rs != [] {
      RatingSumBounds(rs[1..]);
    }
  }

  /** With ratings in 1..5, a product's rating is 0 without reviews and otherwise within [1, 5]. */
  lemma MeanInRange(rs: seq<Review>)
    requires RatingsInRange(rs)
    ensures |rs| == 0 ==> Mean(rs) == 0.0
    ensures |rs| > 0 ==> 1.0 <= Mean(rs) <= 5.0
  {
    if |rs| > 0 {
      RatingSumBounds(rs);
      QuotientBounds(RatingSum(rs) as real, |rs| as real);
    }
  }

  lemma QuotientBounds(s: real, n: real)
    requires 0.0 < n <= s <= 5.0 * n
    ensures 1.0 <= s / n <= 5.0
  {
    var m := s / n;
    assert m * n == s;
    if m < 1.0 {
      MulStrict(1.0, m, n);
    }
    if m > 5.0 {
      MulStrict(m, 5.0, n);
    }
  }

  lemma MulStrict(a: real, b: real, c: real)
    requires a > b && c > 0.0
    ensures a * c > b * c
  {
  }

  lemma ProductReviewsOfOne(rv: Review, product: Id)
    ensures ProductReviews([rv], product) == if rv.product == product then [rv] else []
  {
    assert [rv][1..] == [];
  }

  /** Appending a review extends exactly its own product's list, by that review. */
  lemma ProductReviewsAppend(rs: seq<Review>, rv: Review, product: Id)
    ensures ProductReviews(rs + [rv], product) ==
            ProductReviews(rs, product) + (if rv.product == product then [rv] else [])
  {
    FilterAppend(rs, [rv], ForProduct(product));
    ProductReviewsOfOne(rv, product);
  }

  lemma ProductReviewsSplit(rs: seq<Review>, i: nat, product: Id)
    requires i < |rs|
    ensures ProductReviews(rs, product) ==
            ProductReviews(rs[..i], product) + ProductReviews([rs[i]], product) + ProductReviews(rs[i+1..], product)
  {
    assert rs == rs[..i] + [rs[i]] + rs[i+1..];
    FilterAppend(rs[..i] + [rs[i]], rs[i+1..], ForProduct(product));
    FilterAppend(rs[..i], [rs[i]], ForProduct(product));
  }

  /**
   * Replacing review i by one for the same product changes that product's
   * count by nothing and its rating sum by the change of rating; every other
   * product's list is unchanged.
   */
  lemma ReplaceReviewAggregate(rs: seq<Review>, i: nat, x: Review, product: Id)
    requires i < |rs| && x.product == rs[i].product
    ensures |ProductReviews(rs[i := x], product)| == |ProductReviews(rs, product)|
    ensures product == x.product ==>
              RatingSum(ProductReviews(rs[i := x], product)) == RatingSum(ProductReviews(rs, product)) - rs[i].rating + x.rating
    ensures product != x.product ==> ProductReviews(rs[i := x], product) == ProductReviews(rs, product)
  {
    var t := rs[i := x];
    assert t[..i] == rs[..i] && t[i+1..] == rs[i+1..] && t[i] == x;
    ProductReviewsSplit(rs, i, product);
    ProductReviewsSplit(t, i, product);
    ProductReviewsOfOne(x, product);
    ProductReviewsOfOne(rs[i], product);
    var a, b := ProductReviews(rs[..i], product), ProductReviews(rs[i+1..], product);
    RatingSumConcat(a + ProductReviews([x], product), b);
    RatingSumConcat(a, ProductReviews([x], product));
    RatingSumConcat(a + ProductReviews([rs[i]], product), b);
    RatingSumConcat(a, ProductReviews([rs[i]], product));
  }

  lemma RatingSumAround(a: seq<Review>, m: seq<Review>, b: seq<Review>)
    ensures RatingSum(a + m + b) == RatingSum(a + b) + RatingSum(m)
  {
    RatingSumConcat(a + m, b);
    RatingSumConcat(a, m);
    RatingSumConcat(a, b);
  }

  lemma ProductReviewsWithout(rs: seq<Review>, i: nat, product: Id)
    requires i < |rs|
    ensures ProductReviews(rs[..i] + rs[i+1..], product) == ProductReviews(rs[..i], product) + ProductReviews(rs[i+1..], product)
  {
    FilterAppend(rs[..i], rs[i+1..], ForProduct(product));
  }

  /** Removing review i takes exactly that review out of its product's count and sum. */
  lemma RemoveReviewAggregate(rs: seq<Review>, i: nat, product: Id)
    requires i < |rs|
    ensures product == rs[i].product ==>
              |ProductReviews(rs[..i] + rs[i+1..], product)| == |ProductReviews(rs, product)| - 1 &&
              RatingSum(ProductReviews(rs[..i] + rs[i+1..], product)) == RatingSum(ProductReviews(rs, product)) - rs[i].rating
    ensures product != rs[i].product ==> ProductReviews(rs[..i] + rs[i+1..], product) == ProductReviews(rs, product)
  {
    var x := rs[i];
    ProductReviewsSplit(rs, i, product);
    ProductReviewsWithout(rs, i, product);
    ProductReviewsOfOne(x, product);
    DropMiddle(ProductReviews(rs[..i], product), ProductReviews([x], product), ProductReviews(rs[i+1..], product), x, product);
  }

  lemma DropMiddle(a: seq<Review>, m: seq<Review>, b: seq<Review>, x: Review, product: Id)
    requires m == if product == x.product then [x] else []
    ensures product == x.product ==> |a + b| == |a + m + b| - 1 && RatingSum(a + b) == RatingSum(a + m + b) - x.rating
    ensures product != x.product ==> a + b == a + m + b
  {
    if product == x.product {
      assert RatingSum(m) == x.rating by { assert m[1..] == []; }
      RatingSumAround(a, m, b);
    } else {
      assert a + m + b == a + b;
    }
  }

  /** Appending a review adds one to its product's count and its rating to the sum. */
  lemma AppendReviewAggregate(rs: seq<Review>, rv: Review)
    ensures |ProductReviews(rs + [rv], rv.product)| == |ProductReviews(rs, rv.product)| + 1
    ensures RatingSum(ProductReviews(rs + [rv], rv.product)) == RatingSum(ProductReviews(rs, rv.product)) + rv.rating
  {
    ProductReviewsAppend(rs, rv, rv.product);
    RatingSumConcat(ProductReviews(rs, rv.product), [rv]);
  }

  /** Re-aggregating one product keeps every product's aggregates when only that product's reviews changed. */
  lemma ReaggregateKeepsAgreement(products: map<Id, Product>, rs: seq<Review>, rs': seq<Review>, product: Id)
    requires AggregatesAgree(products, rs)
    requires forall q :: q != product ==> ProductReviews(rs', q) == ProductReviews(rs, q)
    ensures product in products ==> AggregatesAgree(products[product := Reaggregate(products[product], rs', product)], rs')
    ensures product !in products ==> AggregatesAgree(products, rs')
  {
  }

  /**
   * What createReview keeps: appending a fresh review for an existing product
   * that the user has not reviewed, then re-aggregating that product.
   */
  lemma AppendKeepsInvariants(products: map<Id, Product>, rs: seq<Review>, rv: Review)
    requires rv.product in products && !Reviewed(rs, rv.user, rv.product)
    requires 1 <= rv.rating <= 5 && forall i :: 0 <= i < |rs| ==> rs[i].id != rv.id
    ensures |ProductReviews(rs + [rv], rv.product)| >= 1
    ensures RatingsInRange(rs) ==> RatingsInRange(rs + [rv])
    ensures OneReviewPerUserProduct(rs) ==> OneReviewPerUserProduct(rs + [rv])
    ensures UniqueReviewIds(rs) ==> UniqueReviewIds(rs + [rv])
    ensures AggregatesAgree(products, rs) ==>
              AggregatesAgree(products[rv.product := Reaggregate(products[rv.product], rs + [rv], rv.product)], rs + [rv])
  {
    var after := rs + [rv];
    AppendReviewAggregate(rs, rv);
    forall q | q != rv.product ensures ProductReviews(after, q) == ProductReviews(rs, q) {
      ProductReviewsAppend(rs, rv, q);
    }
    if AggregatesAgree(products, rs) {
      ReaggregateKeepsAgreement(products, rs, after, rv.product);
    }
  }

  /**
   * What updateReview keeps: review i replaced by one with the same id, user
   * and product, and that product's rating (not its count) recomputed.
   */
  lemma ReplaceKeepsInvariants(products: map<Id, Product>, rs: seq<Review>, i: nat, x: Review)
    requires i < |rs| && x.id == rs[i].id && x.user == rs[i].user && x.product == rs[i].product
    ensures RatingsInRange(rs) && 1 <= x.rating <= 5 ==> RatingsInRange(rs[i := x])
    ensures OneReviewPerUserProduct(rs) ==> OneReviewPerUserProduct(rs[i := x])
    ensures UniqueReviewIds(rs) ==> UniqueReviewIds(rs[i := x])
    ensures AggregatesAgree(products, rs) && x.product !in products ==> AggregatesAgree(products, rs[i := x])
    ensures AggregatesAgree(products, rs) && x.product in products ==>
              AggregatesAgree(products[x.product := products[x.product].(rating := Mean(ProductReviews(rs[i := x], x.product)))], rs[i := x])
  {
    var after := rs[i := x];
    forall q ensures |ProductReviews(after, q)| == |ProductReviews(rs, q)|
      && (q != x.product ==> ProductReviews(after, q) == ProductReviews(rs, q)) {
      ReplaceReviewAggregate(rs, i, x, q);
    }
    if AggregatesAgree(products, rs) {
      if x.product in products {
        var p := products[x.product];
        assert p.(rating := Mean(ProductReviews(after, x.product))) == Reaggregate(p, after, x.product);
      }
      ReaggregateKeepsAgreement(products, rs, after, x.product);
    }
  }

  /**
   * What deleteReview keeps: review i removed and its product re-aggregated.
   * With no review left the product's count and rating are both 0.
   */
  lemma RemoveKeepsInvariants(products: map<Id, Product>, rs: seq<Review>, i: nat)
    requires i < |rs|
    ensures RatingsInRange(rs) ==> RatingsInRange(rs[..i] + rs[i+1..])
    ensures OneReviewPerUserProduct(rs) ==> OneReviewPerUserProduct(rs[..i] + rs[i+1..])
    ensures UniqueReviewIds(rs) ==> UniqueReviewIds(rs[..i] + rs[i+1..])
    ensures AggregatesAgree(products, rs) && rs[i].product !in products ==>
              AggregatesAgree(products, rs[..i] + rs[i+1..])
    ensures AggregatesAgree(products, rs) && rs[i].product in products ==>
              AggregatesAgree(products[rs[i].product := Reaggregate(products[rs[i].product], rs[..i] + rs[i+1..], rs[i].product)],
                              rs[..i] + rs[i+1..])
  {
    var after := rs[..i] + rs[i+1..];
    var p := rs[i].product;
    forall q | q != p ensures ProductReviews(after, q) == ProductReviews(rs, q) {
      RemoveReviewAggregate(rs, i, q);
    }
    assert forall k :: 0 <= k < |after| ==> after[k] == rs[if k < i then k else k + 1];
    if AggregatesAgree(products, rs) {
      ReaggregateKeepsAgreement(products, rs, after, p);
    }
  }

  // ---------------------------------------------------------------------
  // Handlers
  // ---------------------------------------------------------------------

  /** Index of the review with document id `id`, or -1 (`Review.findById`). */
  function IndexOf(rs: seq<Review>, id: Id): (i: int)
    ensures -1 <= i < |rs|
    ensures 0 <= i ==> rs[i].id == id
    ensures i < 0 <==> forall j :: 0 <= j < |rs| ==> rs[j].id != id
  {
    FindIndex(rs, HasId(id))
  }

  /** The query of GET /api/reviews: each filter applies only when its parameter is given. */
  function Matches(product: Option<Id>, user: Option<Id>): Review -> bool {
    (rv: Review) => (product.None? || rv.product == product.value) && (user.None? || rv.user == user.value)
  }

  /** Newest first: the collection is in creation order. */
  function Reversed<T>(s: seq<T>): (r: seq<T>)
    ensures |r| == |s| && forall i :: 0 <= i < |s| ==> r[i] == s[|s| - 1 - i]
  {
    seq(|s|, i requires 0 <= i < |s| => s[|s| - 1 - i])
  }

  lemma ReversedSameElements<T>(s: seq<T>)
    ensures forall x :: x in Reversed(s) <==> x in s
  {
    var r := Reversed(s);
    forall x ensures x in r <==> x in s {
      if x in s {
        var k :| 0 <= k < |s| && s[k] == x;
        assert r[|s| - 1 - k] == x;
      }
      if x in r {
        var k :| 0 <= k < |r| && r[k] == x;
        assert s[|s| - 1 - k] == x;
      }
    }
  }

  /** GET /api/reviews */
  method GetReviews(db: Database, product: Option<Id>, user: Option<Id>) returns (r: seq<Review>)
    ensures forall rv :: rv in r <==> rv in db.reviews && (product.None? || rv.product == product.value) && (user.None? || rv.user == user.value)
    ensures product.None? && user.None? ==> r == Reversed(db.reviews)
    ensures r == Reversed(Filter(db.reviews, Matches(product, user)))
  {
    var matching := Filter(db.reviews, Matches(product, user));
    if product.None? && user.None? {
      FilterKeepsAll(db.reviews, Matches(product, user));
    }
    r := Reversed(matching);
    ReversedSameElements(matching);
  }

  /** POST /api/reviews */
  method CreateReview(db: Database, caller: Caller, product: Id, rating: int, title: string, comment: string, newId: Id)
    returns (r: Result<Review>)
    requires 1 <= rating <= 5
    requires forall i :: 0 <= i < |db.reviews| ==> db.reviews[i].id != newId
    modifies db`reviews, db`products
    ensures product !in old(db.products) ==> r == Err(404, "Product not found")
    ensures product in old(db.products) && Reviewed(old(db.reviews), caller.id, product) ==>
              r == Err(400, "Product already reviewed")
    ensures r.Err? ==> db.reviews == old(db.reviews) && db.products == old(db.products)
    ensures r.Ok? <==> product in old(db.products) && !Reviewed(old(db.reviews), caller.id, product)
    ensures r.Ok? ==>
              r.value == Review(newId, caller.id, product, rating, title, comment, true) &&
              db.reviews == old(db.reviews) + [r.value] &&
              db.products == old(db.products)[product := Reaggregate(old(db.products)[product], db.reviews, product)] &&
              db.products[product].numReviews >= 1
    ensures RatingsInRange(old(db.reviews)) ==> RatingsInRange(db.reviews)
    ensures OneReviewPerUserProduct(old(db.reviews)) ==> OneReviewPerUserProduct(db.reviews)
    ensures UniqueReviewIds(old(db.reviews)) ==> UniqueReviewIds(db.reviews)
    ensures AggregatesAgree(old(db.products), old(db.reviews)) ==> AggregatesAgree(db.products, db.reviews)
  {
    if product !in db.products {
      return Err(404, "Product not found");
    }
    if exists i :: 0 <= i < |db.reviews| && db.reviews[i].user == caller.id && db.reviews[i].product == product {
      return Err(400, "Product already reviewed");
    }
    var review := Review(newId, caller.id, product, rating, title, comment, true);
    var products := db.products;
    AppendKeepsInvariants(products, db.reviews, review);
    db.reviews := db.reviews + [review];
    db.products := products[product := Reaggregate(products[product], db.reviews, product)];
    r := Ok(review);
  }

  /** The field merge of updateReview: a rating of 0 or absent, or an empty title or comment, keeps the old value. */
  function MergeReview(rv: Review, rating: Option<int>, title: Option<string>, comment: Option<string>): (r: Review)
    ensures r.id == rv.id && r.user == rv.user && r.product == rv.product && r.isApproved == rv.isApproved
    ensures r.rating == (if rating.Some? && rating.value != 0 then rating.value else rv.rating)
    ensures r.title == (if title.Some? && title.value != "" then title.value else rv.title)
    ensures r.comment == (if comment.Some? && comment.value != "" then comment.value else rv.comment)
  {
    rv.(rating := OrInt(rating, rv.rating), title := OrStr(title, rv.title), comment := OrStr(comment, rv.comment))
  }

  /**
   * PUT /api/reviews/:id. The product's rating is recomputed and its
   * numReviews left alone. When the review's product no longer exists the
   * review is saved and the handler then fails with a server error.
   */
  method UpdateReview(db: Database, caller: Caller, id: Id, rating: Option<int>, title: Option<string>, comment: Option<string>)
    returns (r: Result<Review>)
    requires rating.None? || 0 <= rating.value <= 5
    modifies db`reviews, db`products
    ensures IndexOf(old(db.reviews), id) < 0 ==> r == Err(404, "Review not found")
    ensures var i := IndexOf(old(db.reviews), id);
            i >= 0 && !OwnerOrAdmin(old(db.reviews)[i].user, caller) ==> r == Err(401, "Not authorized")
    ensures var i := IndexOf(old(db.reviews), id);
            i < 0 || !OwnerOrAdmin(old(db.reviews)[i].user, caller) ==>
              db.reviews == old(db.reviews) && db.products == old(db.products)
    ensures var i := IndexOf(old(db.reviews), id);
            i >= 0 && OwnerOrAdmin(old(db.reviews)[i].user, caller) ==>
              var rv := MergeReview(old(db.reviews)[i], rating, title, comment);
              db.reviews == old(db.reviews)[i := rv] &&
              (rv.product in old(db.products) ==>
                 r == Ok(rv) &&
                 db.products == old(db.products)[rv.product := old(db.products)[rv.product].(rating := Mean(ProductReviews(db.reviews, rv.product)))] &&
                 db.products[rv.product].numReviews == old(db.products)[rv.product].numReviews) &&
              (rv.product !in old(db.products) ==> r.Err? && r.status == 500 && db.products == old(db.products))
    ensures RatingsInRange(old(db.reviews)) ==> RatingsInRange(db.reviews)
    ensures OneReviewPerUserProduct(old(db.reviews)) ==> OneReviewPerUserProduct(db.reviews)
    ensures UniqueReviewIds(old(db.reviews)) ==> UniqueReviewIds(db.reviews)
    ensures AggregatesAgree(old(db.products), old(db.reviews)) ==> AggregatesAgree(db.products, db.reviews)
  {
    var i := IndexOf(db.reviews, id);
    if i < 0 {
      return Err(404, "Review not found");
    }
    var review := db.reviews[i];
    if review.user != caller.id && !caller.isAdmin {
      return Err(401, "Not authorized");
    }
    assert RatingsInRange(db.reviews) ==> 1 <= review.rating <= 5;
    review := MergeReview(review, rating, title, comment);
    var products := db.products;
    ReplaceKeepsInvariants(products, db.reviews, i, review);
    db.reviews := db.reviews[i := review];
    if review.product !in products {
      return Err(500, "Cannot set properties of null");
    }
    var p := products[review.product];
    db.products := products[review.product := p.(rating := Mean(ProductReviews(db.reviews, review.product)))];
    r := Ok(review);
  }

  /**
   * DELETE /api/reviews/:id. The product's count and mean are recomputed
   * over the remaining reviews, 0 and 0 when none remain.
   */
  method DeleteReview(db: Database, caller: Caller, id: Id) returns (r: Result<string>)
    modifies db`reviews, db`products
    ensures IndexOf(old(db.reviews), id) < 0 ==> r == Err(404, "Review not found")
    ensures var i := IndexOf(old(db.reviews), id);
            i >= 0 && !OwnerOrAdmin(old(db.reviews)[i].user, caller) ==> r == Err(401, "Not authorized")
    ensures var i := IndexOf(old(db.reviews), id);
            i < 0 || !OwnerOrAdmin(old(db.reviews)[i].user, caller) ==>
              db.reviews == old(db.reviews) && db.products == old(db.products)
    ensures var i := IndexOf(old(db.reviews), id);
            i >= 0 && OwnerOrAdmin(old(db.reviews)[i].user, caller) ==>
              var p := old(db.reviews)[i].product;
              db.reviews == old(db.reviews)[..i] + old(db.reviews)[i+1..] &&
              (p in old(db.products) ==>
                 r == Ok("Review removed") &&
                 db.products == old(db.products)[p := Reaggregate(old(db.products)[p], db.reviews, p)] &&
                 (ProductReviews(db.reviews, p) == [] ==> db.products[p].numReviews == 0 && db.products[p].rating == 0.0)) &&
              (p !in old(db.products) ==> r.Err? && r.status == 500 && db.products == old(db.products))
    ensures RatingsInRange(old(db.reviews)) ==> RatingsInRange(db.reviews)
    ensures OneReviewPerUserProduct(old(db.reviews)) ==> OneReviewPerUserProduct(db.reviews)
    ensures UniqueReviewIds(old(db.reviews)) ==> UniqueReviewIds(db.reviews)
    ensures AggregatesAgree(old(db.products), old(db.reviews)) ==> AggregatesAgree(db.products, db.reviews)
  {
    var i := IndexOf(db.reviews, id);
    if i < 0 {
      return Err(404, "Review not found");
    }
    var review := db.reviews[i];
    if review.user != caller.id && !caller.isAdmin {
      return Err(401, "Not authorized");
    }
    var products := db.products;
    RemoveKeepsInvariants(products, db.reviews, i);
    db.reviews := db.reviews[..i] + db.reviews[i+1..];
    if review.product !in products {
      return Err(500, "Cannot set properties of null");
    }
    db.products := products[review.product := Reaggregate(products[review.product], db.reviews, review.product)];
    r := Ok("Review removed");
  }

  /** PUT /api/reviews/:id/approve: approving an approved review changes nothing. */
  method ApproveReview(db: Database, id: Id) returns (r: Result<Review>)
    modifies db`reviews
    ensures IndexOf(old(db.reviews), id) < 0 ==> r == Err(404, "Review not found") && db.reviews == old(db.reviews)
    ensures var i := IndexOf(old(db.reviews), id);
            i >= 0 ==> r == Ok(old(db.reviews)[i].(isApproved := true)) && db.reviews == old(db.reviews)[i := r.value]
    ensures var i := IndexOf(old(db.reviews), id);
            i >= 0 && old(db.reviews)[i].isApproved ==> db.reviews == old(db.reviews)
    ensures AggregatesAgree(db.products, old(db.reviews)) ==> AggregatesAgree(db.products, db.reviews)
  {
    var i := IndexOf(db.reviews, id);
    if i < 0 {
      return Err(404, "Review not found");
    }
    var review := db.reviews[i].(isApproved := true);
    var before := db.reviews;
    db.reviews := db.reviews[i := review];
    forall q ensures ProductReviews(db.reviews, q) == ProductReviews(before, q) ||
        (q == review.product && |ProductReviews(db.reviews, q)| == |ProductReviews(before, q)| &&
         RatingSum(ProductReviews(db.reviews, q)) == RatingSum(ProductReviews(before, q))) {
      ReplaceReviewAggregate(before, i, review, q);
    }
    r := Ok(review);
  }
}
