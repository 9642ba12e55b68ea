/**
 * The cart controller: a per-user list of line items whose totals are
 * recomputed from the lines after every change.
 */
module Carts {
  import opened Common
  import opened Models
  import opened Store

  // ---------------------------------------------------------------------
  // Totals: the two `reduce` folds over the lines
  // ---------------------------------------------------------------------

  function SumQuantity(items: seq<CartItem>): int {
    if items == [] then 0 else items[0].quantity + SumQuantity(items[1..])
  }

  function SumPrice(items: seq<CartItem>): int {
    if items == [] then 0 else items[0].price * items[0].quantity + SumPrice(items[1..])
  }

  /** The cart invariant: stored totals are the sums over the stored lines. */
  predicate Consistent(c: Cart) {
    c.totalItems == SumQuantity(c.items) && c.totalPrice == SumPrice(c.items)
  }

  /** The lines with their totals recomputed, as every handler does before saving. */
  function WithTotals(items: seq<CartItem>): (c: Cart)
    ensures Consistent(c) && c.items == items
  {
    Cart(items, SumQuantity(items), SumPrice(items))
  }

  const EmptyCart: Cart := Cart([], 0, 0)

  /** The lines of the user's cart; a user without a cart has none. */
  function LinesOf(carts: map<Id, Cart>, user: Id): seq<CartItem> {
    if user in carts then carts[user].items else []
  }

  /** Line ids are distinct (the database allocates a fresh id for each pushed line). */
  predicate UniqueItemIds(items: seq<CartItem>) {
    forall i, j :: 0 <= i < j < |items| ==> items[i].id != items[j].id
  }

  predicate FreshItemId(items: seq<CartItem>, id: Id) {
    forall i :: 0 <= i < |items| ==> items[i].id != id
  }

  function ProductIs(productId: Id): CartItem -> bool {
    (it: CartItem) => it.product == productId
  }

  function ItemIs(itemId: Id): CartItem -> bool {
    (it: CartItem) => it.id == itemId
  }

  function ItemIsNot(itemId: Id): CartItem -> bool {
    (it: CartItem) => it.id != itemId
  }

  lemma {:induction false} SumsAppend(items: seq<CartItem>, x: CartItem)
    ensures SumQuantity(items + [x]) == SumQuantity(items) + x.quantity
    ensures SumPrice(items + [x]) == SumPrice(items) + x.price * x.quantity
  {
    if items == [] {
      assert items + [x] == [x];
    } else {
      assert (items + [x])[1..] == items[1..] + [x];
      SumsAppend(items[1..], x);
    }
  }

  lemma {:induction false} SumsConcat(a: seq<CartItem>, b: seq<CartItem>)
    ensures SumQuantity(a + b) == SumQuantity(a) + SumQuantity(b)
    ensures SumPrice(a + b) == SumPrice(a) + SumPrice(b)
  {
    if a == [] {
      assert a + b == b;
    } else {
      assert (a + b)[1..] == a[1..] + b;
      SumsConcat(a[1..], b);
    }
  }

  /** Changing one line changes each total by exactly that line's difference. */
  lemma SumsUpdate(items: seq<CartItem>, i: nat, x: CartItem)
    requires i < |items|
    ensures SumQuantity(items[i := x]) == SumQuantity(items) - items[i].quantity + x.quantity
    ensures SumPrice(items[i := x]) == SumPrice(items) - items[i].price * items[i].quantity + x.price * x.quantity
  {
    assert items == items[..i] + [items[i]] + items[i + 1..];
    assert items[i := x] == items[..i] + [x] + items[i + 1..];
    SumsConcat(items[..i] + [items[i]], items[i + 1..]);
    SumsConcat(items[..i] + [x], items[i + 1..]);
    SumsAppend(items[..i], items[i]);
    SumsAppend(items[..i], x);
  }

  // ---------------------------------------------------------------------
  // The line-list transitions of the handlers
  // ---------------------------------------------------------------------

  /**
   * addToCart on the lines: the first line of the product gets the requested
   * quantity added (its price snapshot is kept); otherwise a new line with
   * the current product price is pushed at the end.
   */
  function AddLine(items: seq<CartItem>, productId: Id, quantity: int, price: int, attributes: Attrs, newId: Id): seq<CartItem> {
    var i := FindIndex(items, ProductIs(productId));
    if i >= 0 then items[i := items[i].(quantity := items[i].quantity + quantity)]
    else items + [CartItem(newId, productId, quantity, price, attributes)]
  }

  /** Merging into an existing line adds no line and changes nothing but that line's quantity. */
  lemma AddLineMerges(items: seq<CartItem>, productId: Id, quantity: int, price: int, attributes: Attrs, newId: Id, k: nat)
    requires k < |items| && items[k].product == productId
    ensures var i := FindIndex(items, ProductIs(productId));
            var r := AddLine(items, productId, quantity, price, attributes, newId);
            0 <= i <= k && |r| == |items| &&
            r[i] == items[i].(quantity := items[i].quantity + quantity) &&
            forall j :: 0 <= j < |items| && j != i ==> r[j] == items[j]
  {
    assert ProductIs(productId)(items[k]);
  }

  /** A product not yet in the cart gets exactly one new line, at the end. */
  lemma AddLineAppends(items: seq<CartItem>, productId: Id, quantity: int, price: int, attributes: Attrs, newId: Id)
    requires forall j :: 0 <= j < |items| ==> items[j].product != productId
    ensures AddLine(items, productId, quantity, price, attributes, newId)
            == items + [CartItem(newId, productId, quantity, price, attributes)]
  {
  }

  /** Adding q units raises totalItems by q, and totalPrice by q times the line's unit price. */
  lemma AddLineTotals(items: seq<CartItem>, productId: Id, quantity: int, price: int, attributes: Attrs, newId: Id)
    ensures var i := FindIndex(items, ProductIs(productId));
            var unit := if i >= 0 then items[i].price else price;
            var r := AddLine(items, productId, quantity, price, attributes, newId);
            SumQuantity(r) == SumQuantity(items) + quantity &&
            SumPrice(r) == SumPrice(items) + unit * quantity
  {
    var i := FindIndex(items, ProductIs(productId));
    if i >= 0 {
      SumsUpdate(items, i, items[i].(quantity := items[i].quantity + quantity));
      assert items[i].price * (items[i].quantity + quantity) == items[i].price * items[i].quantity + items[i].price * quantity;
    } else {
      SumsAppend(items, CartItem(newId, productId, quantity, price, attributes));
    }
  }

  lemma AddLineKeepsIdsUnique(items: seq<CartItem>, productId: Id, quantity: int, price: int, attributes: Attrs, newId: Id)
    requires UniqueItemIds(items) && FreshItemId(items, newId)
    ensures UniqueItemIds(AddLine(items, productId, quantity, price, attributes, newId))
  {
  }

  /**
   * updateCartItem on the lines: a truthy quantity replaces the line's
   * quantity, supplied attributes replace its attributes.
   */
  function UpdateLine(items: seq<CartItem>, i: nat, quantity: Option<int>, attributes: Option<Attrs>): (r: seq<CartItem>)
    requires i < |items|
    ensures |r| == |items| && r[i].id == items[i].id && r[i].product == items[i].product && r[i].price == items[i].price
    ensures quantity == None || quantity == Some(0) ==> r[i].quantity == items[i].quantity
    ensures quantity.Some? && quantity.value != 0 ==> r[i].quantity == quantity.value
    ensures r[i].attributes == if attributes.Some? then attributes.value else items[i].attributes
    ensures forall j :: 0 <= j < |items| && j != i ==> r[j] == items[j]
  {
    items[i := items[i].(quantity := OrInt(quantity, items[i].quantity), attributes := attributes.Or(items[i].attributes))]
  }

  lemma UpdateLineTotals(items: seq<CartItem>, i: nat, quantity: Option<int>, attributes: Option<Attrs>)
    requires i < |items|
    ensures var q := OrInt(quantity, items[i].quantity);
            var r := UpdateLine(items, i, quantity, attributes);
            SumQuantity(r) == SumQuantity(items) + (q - items[i].quantity) &&
            SumPrice(r) == SumPrice(items) + items[i].price * (q - items[i].quantity)
  {
    var q := OrInt(quantity, items[i].quantity);
    var x := items[i].(quantity := q, attributes := attributes.Or(items[i].attributes));
    assert UpdateLine(items, i, quantity, attributes) == items[i := x];
    SumsUpdate(items, i, x);
    Distributes(x.price, q, items[i].quantity);
  }

  lemma Distributes(p: int, a: int, b: int)
    ensures p * a - p * b == p * (a - b)
  {
  }

  /** removeCartItem on the lines: keep exactly the lines with a different id, in order. */
  function WithoutItem(items: seq<CartItem>, itemId: Id): seq<CartItem> {
    Filter(items, ItemIsNot(itemId))
  }

  /** Removing an id that no line has leaves the lines as they were. */
  lemma RemoveAbsentItem(items: seq<CartItem>, itemId: Id)
    requires FreshItemId(items, itemId)
    ensures WithoutItem(items, itemId) == items
  {
    FilterKeepsAll(items, ItemIsNot(itemId));
  }

  /** Removing the id of line k deletes exactly that line. */
  lemma {:induction false} RemovePresentItem(items: seq<CartItem>, k: nat)
    requires UniqueItemIds(items) && k < |items|
    ensures WithoutItem(items, items[k].id) == items[..k] + items[k + 1..]
  {
    var p := ItemIsNot(items[k].id);
    if k == 0 {
      assert !p(items[0]);
      FilterKeepsAll(items[1..], p);
    } else {
      assert p(items[0]);
      var rest := items[1..];
      assert rest[k - 1] == items[k];
      RemovePresentItem(rest, k - 1);
      assert items[..k] == [items[0]] + rest[..k - 1];
      assert items[k + 1..] == rest[k..];
    }
  }

  /** ... and takes exactly that line's share off both totals. */
  lemma RemovePresentItemTotals(items: seq<CartItem>, k: nat)
    requires UniqueItemIds(items) && k < |items|
    ensures SumQuantity(WithoutItem(items, items[k].id)) == SumQuantity(items) - items[k].quantity
    ensures SumPrice(WithoutItem(items, items[k].id)) == SumPrice(items) - items[k].price * items[k].quantity
  {
    RemovePresentItem(items, k);
    var pre, x, post := items[..k], items[k], items[k + 1..];
    assert items == (pre + [x]) + post;
    SumsConcat(pre + [x], post);
    SumsAppend(pre, x);
    SumsConcat(pre, post);
    assert WithoutItem(items, x.id) == pre + post;
  }

  // ---------------------------------------------------------------------
  // Handlers
  // ---------------------------------------------------------------------

  /** GET /api/cart: the user's cart, created empty when the user has none. */
  method GetCart(db: Database, user: Id) returns (cart: Cart)
    modifies db`carts
    ensures cart == if user in old(db.carts) then old(db.carts)[user] else EmptyCart
    ensures db.carts == old(db.carts)[user := cart]
    ensures user !in old(db.carts) ==> Consistent(cart) && cart.items == []
  {
    if user in db.carts {
      cart := db.carts[user];
    } else {
      cart := EmptyCart;
      db.carts := db.carts[user := cart];
    }
  }

  /** POST /api/cart: add `quantity` (default 1) units of a product. */
  method AddToCart(db: Database, user: Id, productId: Id, quantity: Option<int>, attributes: Option<Attrs>, newItemId: Id)
    returns (r: Result<Cart>)
    requires FreshItemId(LinesOf(db.carts, user), newItemId)
    modifies db`carts
    ensures productId !in db.products ==> r == Err(404, "Product not found")
    ensures productId in db.products && db.products[productId].countInStock < quantity.Or(1) ==>
              r == Err(400, "Product is out of stock")
    ensures productId in db.products && db.products[productId].countInStock >= quantity.Or(1) ==>
              r == Ok(WithTotals(AddLine(LinesOf(old(db.carts), user), productId, quantity.Or(1),
                                         db.products[productId].price, attributes.Or(map[]), newItemId)))
    ensures r.Ok? ==> db.carts == old(db.carts)[user := r.value]
    ensures r.Err? ==> db.carts == old(db.carts)
    // the totals move by exactly what was added
    ensures r.Ok? && (user in old(db.carts) ==> Consistent(old(db.carts)[user])) ==>
              r.value.totalItems == (if user in old(db.carts) then old(db.carts)[user].totalItems else 0) + quantity.Or(1)
  {
    var q := quantity.Or(1);
    var attrs := attributes.Or(map[]);
    if productId !in db.products {
      return Err(404, "Product not found");
    }
    var product := db.products[productId];
    if product.countInStock < q {
      return Err(400, "Product is out of stock");
    }
    var cart: Cart;
    if user in db.carts {
      cart := db.carts[user];
    } else {
      cart := EmptyCart;
    }
    var items := cart.items;
    var itemIndex := FindIndex(items, ProductIs(productId));
    if itemIndex > -1 {
      items := items[itemIndex := items[itemIndex].(quantity := items[itemIndex].quantity + q)];
    } else {
      items := items + [CartItem(newItemId, productId, q, product.price, attrs)];
    }
    assert items == AddLine(cart.items, productId, q, product.price, attrs, newItemId);
    AddLineTotals(cart.items, productId, q, product.price, attrs, newItemId);
    cart := Cart(items, SumQuantity(items), SumPrice(items));
    db.carts := db.carts[user := cart];
    r := Ok(cart);
  }

  /** PUT /api/cart/:itemId: change the quantity and/or attributes of one line. */
  method UpdateCartItem(db: Database, user: Id, itemId: Id, quantity: Option<int>, attributes: Option<Attrs>)
    returns (r: Result<Cart>)
    modifies db`carts
    ensures user !in old(db.carts) ==> r == Err(404, "Cart not found")
    ensures user in old(db.carts) ==>
              var items := old(db.carts)[user].items;
              var i := FindIndex(items, ItemIs(itemId));
              if i < 0 then r == Err(404, "Item not found in cart")
              else if items[i].product !in db.products then r == Err(404, "Product not found")
              else if quantity.Some? && db.products[items[i].product].countInStock < quantity.value then
                r == Err(400, "Product is out of stock")
              else r == Ok(WithTotals(UpdateLine(items, i, quantity, attributes)))
    ensures r.Ok? ==> db.carts == old(db.carts)[user := r.value]
    ensures r.Err? ==> db.carts == old(db.carts)
  {
    if user !in db.carts {
      return Err(404, "Cart not found");
    }
    var cart := db.carts[user];
    var itemIndex := FindIndex(cart.items, ItemIs(itemId));
    if itemIndex == -1 {
      return Err(404, "Item not found in cart");
    }
    var productId := cart.items[itemIndex].product;
    if productId !in db.products {
      return Err(404, "Product not found");
    }
    if quantity.Some? && db.products[productId].countInStock < quantity.value {
      return Err(400, "Product is out of stock");
    }
    var line := cart.items[itemIndex];
    if quantity.Some? && quantity.value != 0 {
      line := line.(quantity := quantity.value);
    }
    if attributes.Some? {
      line := line.(attributes := attributes.value);
    }
    var items := cart.items[itemIndex := line];
    assert items == UpdateLine(cart.items, itemIndex, quantity, attributes);
    cart := Cart(items, SumQuantity(items), SumPrice(items));
    db.carts := db.carts[user := cart];
    r := Ok(cart);
  }

  /** DELETE /api/cart/:itemId: drop every line with that id; an unknown id is not an error. */
  method RemoveCartItem(db: Database, user: Id, itemId: Id) returns (r: Result<Cart>)
    modifies db`carts
    ensures user !in old(db.carts) ==> r == Err(404, "Cart not found") && db.carts == old(db.carts)
    ensures user in old(db.carts) ==>
              r == Ok(WithTotals(WithoutItem(old(db.carts)[user].items, itemId))) &&
              db.carts == old(db.carts)[user := r.value]
  {
    if user !in db.carts {
      return Err(404, "Cart not found");
    }
    var cart := db.carts[user];
    var items := Filter(cart.items, ItemIsNot(itemId));
    cart := Cart(items, SumQuantity(items), SumPrice(items));
    db.carts := db.carts[user := cart];
    r := Ok(cart);
  }

  /** DELETE /api/cart: empty an existing cart. */
  method ClearCart(db: Database, user: Id) returns (r: Result<string>)
    modifies db`carts
    ensures user !in old(db.carts) ==> r == Err(404, "Cart not found") && db.carts == old(db.carts)
    ensures user in old(db.carts) ==> r == Ok("Cart cleared") && db.carts == old(db.carts)[user := EmptyCart]
    ensures r.Ok? ==> Consistent(db.carts[user]) && db.carts[user].items == []
  {
    if user !in db.carts {
      return Err(404, "Cart not found");
    }
    db.carts := db.carts[user := Cart([], 0, 0)];
    r := Ok("Cart cleared");
  }
}
