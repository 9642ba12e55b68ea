/**
 * The order controller: order creation (which decrements stock item by item
 * and empties the buyer's cart), the paid and delivered flags, and the
 * access rule for reading an order.
 */
module Orders {
  import opened Common
  import opened Models
  import opened Store
  import Carts

  /** The status a new order starts in (the default of the order schema). */
  const InitialStatus: string := "Pending"

  /** The body of POST /api/orders; `orderItems` may be missing altogether. */
  datatype OrderRequest = OrderRequest(
    orderItems: Option<seq<OrderItem>>,
    shippingAddress: Id,
    billingAddress: Option<Id>,
    paymentMethod: string,
    taxPrice: int,
    shippingPrice: int,
    totalPrice: int)

  /** The body of PUT /api/orders/:id/pay; `payer` may be missing. */
  datatype PayBody = PayBody(id: string, status: string, updateTime: string, payerEmail: Option<string>)

  /** Every flag carries its stamp: a paid order has a payment time and result, a delivered one a delivery time. */
  predicate Stamped(o: Order) {
    (o.isPaid ==> o.paidAt.Some? && o.paymentResult.Some?) && (o.isDelivered ==> o.deliveredAt.Some?)
  }

  predicate AllStamped(orders: map<Id, Order>) {
    forall id :: id in orders ==> Stamped(orders[id])
  }

  /** The flags only ever go from false to true. */
  predicate FlagsKept(before: map<Id, Order>, after: map<Id, Order>) {
    forall id :: id in before ==>
      id in after && (before[id].isPaid ==> after[id].isPaid) && (before[id].isDelivered ==> after[id].isDelivered)
  }

  function NewOrder(user: Id, items: seq<OrderItem>, req: OrderRequest): (o: Order)
    ensures Stamped(o) && !o.isPaid && !o.isDelivered && o.status == InitialStatus
    ensures o.billingAddress == if req.billingAddress.Some? then req.billingAddress.value else req.shippingAddress
  {
    Order(user, items, req.shippingAddress, req.billingAddress.Or(req.shippingAddress), req.paymentMethod,
          req.taxPrice, req.shippingPrice, req.totalPrice, false, None, None, false, None, InitialStatus, "", "")
  }

  // ---------------------------------------------------------------------
  // Stock: `product.countInStock -= item.quantity` for each item in turn
  // ---------------------------------------------------------------------

  /** One step of the stock loop: an item whose product no longer exists is skipped. */
  function Decrement(products: map<Id, Product>, item: OrderItem): map<Id, Product> {
    if item.product in products then
      products[item.product := products[item.product].(countInStock := products[item.product].countInStock - item.quantity)]
    else products
  }

  /** The stock after the loop has processed `items`, in order. */
  function StockAfter(products: map<Id, Product>, items: seq<OrderItem>): map<Id, Product>
    decreases |items|
  {
    if items == [] then products
    else Decrement(StockAfter(products, items[..|items| - 1]), items[|items| - 1])
  }

  /** Total quantity ordered of one product, over all lines that name it. */
  function QuantityOf(items: seq<OrderItem>, product: Id): int
    decreases |items|
  {
    if items == [] then 0
    else QuantityOf(items[..|items| - 1], product) + (if items[|items| - 1].product == product then items[|items| - 1].quantity else 0)
  }

  /**
   * The loop's net effect: no product appears or disappears, and each
   * existing product loses exactly the quantity ordered of it, whatever the
   * order of the lines; every other field is kept.
   */
  lemma {:induction false} StockAfterSpec(products: map<Id, Product>, items: seq<OrderItem>)
    ensures StockAfter(products, items).Keys == products.Keys
    ensures forall q :: q in products ==>
              StockAfter(products, items)[q] == products[q].(countInStock := products[q].countInStock - QuantityOf(items, q))
    decreases |items|
  {
    if items != [] {
      var init, last := items[..|items| - 1], items[|items| - 1];
      StockAfterSpec(products, init);
      assert StockAfter(products, items) == Decrement(StockAfter(products, init), last);
      forall q | q in products
        ensures StockAfter(products, items)[q] == products[q].(countInStock := products[q].countInStock - QuantityOf(items, q))
      {
        assert QuantityOf(items, q) == QuantityOf(init, q) + (if last.product == q then last.quantity else 0);
      }
    }
  }

  /** The product schema's bounds on `countInStock`, which `product.save()` enforces. */
  predicate StockInSchema(n: int) {
    0 <= n <= 255
  }

  predicate AllStockInSchema(products: map<Id, Product>) {
    forall q :: q in products ==> StockInSchema(products[q].countInStock)
  }

  /** The save of line k is rejected: its product exists and the decremented stock leaves the schema's bounds. */
  predicate SaveFails(products: map<Id, Product>, items: seq<OrderItem>, k: nat)
    requires k < |items|
  {
    var before := StockAfter(products, items[..k]);
    items[k].product in before && !StockInSchema(before[items[k].product].countInStock - items[k].quantity)
  }

  /** Every save of the loop's first n lines is accepted. */
  predicate SavesAccepted(products: map<Id, Product>, items: seq<OrderItem>, n: nat)
    requires n <= |items|
  {
    forall k :: 0 <= k < n ==> !SaveFails(products, items, k)
  }

  /** While every save is accepted, every stock stays within the schema's bounds; in particular it never goes negative. */
  lemma {:induction false} StockStaysInSchema(products: map<Id, Product>, items: seq<OrderItem>, n: nat)
    requires n <= |items| && AllStockInSchema(products) && SavesAccepted(products, items, n)
    ensures AllStockInSchema(StockAfter(products, items[..n]))
    decreases n
  {
    if n > 0 {
      StockStaysInSchema(products, items, n - 1);
      assert items[..n][..n - 1] == items[..n - 1];
      assert !SaveFails(products, items, n - 1);
      assert StockAfter(products, items[..n]) == Decrement(StockAfter(products, items[..n - 1]), items[n - 1]);
    }
  }

  // ---------------------------------------------------------------------
  // Handlers
  // ---------------------------------------------------------------------

  /**
   * The stock loop of createOrder: each line's product, when it exists, is
   * decremented and saved. The result is the first line whose save the
   * schema rejects, or None when every save is accepted.
   */
  method DecrementStock(db: Database, items: seq<OrderItem>) returns (failed: Option<nat>)
    modifies db`products
    ensures failed.None? ==>
              SavesAccepted(old(db.products), items, |items|) && db.products == StockAfter(old(db.products), items)
    ensures failed.Some? ==>
              failed.value < |items| && SaveFails(old(db.products), items, failed.value) &&
              SavesAccepted(old(db.products), items, failed.value) &&
              db.products == StockAfter(old(db.products), items[..failed.value])
    ensures AllStockInSchema(old(db.products)) ==> AllStockInSchema(db.products)
  {
    var k := 0;
    while k < |items|
      invariant 0 <= k <= |items|
      invariant db.products == StockAfter(old(db.products), items[..k])
      invariant SavesAccepted(old(db.products), items, k)
      invariant AllStockInSchema(old(db.products)) ==> AllStockInSchema(db.products)
    {
      var item := items[k];
      assert StockAfter(old(db.products), items[..k + 1]) == Decrement(db.products, item) by {
        assert items[..k + 1][..k] == items[..k];
      }
      if item.product in db.products {
        var product := db.products[item.product];
        var stock := product.countInStock - item.quantity;
        if !StockInSchema(stock) {
          return Some(k);
        }
        db.products := db.products[item.product := product.(countInStock := stock)];
      }
      assert !SaveFails(old(db.products), items, k);
      if AllStockInSchema(old(db.products)) {
        StockStaysInSchema(old(db.products), items, k + 1);
      }
      k := k + 1;
    }
    assert items[..k] == items;
    failed := None;
  }

  /**
   * POST /api/orders. The order is stored first; then each line's product
   * is decremented and saved in turn. A save the product schema rejects
   * ends the handler with a server error: the order stays stored, the
   * earlier lines stay decremented and the cart is not cleared.
   */
  method CreateOrder(db: Database, caller: Caller, req: OrderRequest, newId: Id) returns (r: Result<Order>)
    requires newId !in db.orders
    modifies db`orders, db`products, db`carts
    ensures req.orderItems.None? || req.orderItems.value == [] <==> r == Err(400, "No order items")
    ensures r == Err(400, "No order items") ==>
              db.orders == old(db.orders) && db.products == old(db.products) && db.carts == old(db.carts)
    ensures r.Ok? <==>
              req.orderItems.Some? && req.orderItems.value != [] &&
              SavesAccepted(old(db.products), req.orderItems.value, |req.orderItems.value|)
    ensures r.Err? && r != Err(400, "No order items") ==>
              var items := req.orderItems.value;
              r.status == 500 &&
              db.orders == old(db.orders)[newId := NewOrder(caller.id, items, req)] &&
              db.carts == old(db.carts) &&
              exists k :: 0 <= k < |items| && SaveFails(old(db.products), items, k) &&
                          SavesAccepted(old(db.products), items, k) &&
                          db.products == StockAfter(old(db.products), items[..k])
    ensures r.Ok? ==>
              var items := req.orderItems.value;
              r.value == NewOrder(caller.id, items, req) &&
              db.orders == old(db.orders)[newId := r.value] &&
              db.products == StockAfter(old(db.products), items) &&
              db.products.Keys == old(db.products).Keys &&
              (forall q :: q in old(db.products) ==>
                 db.products[q].countInStock == old(db.products)[q].countInStock - QuantityOf(items, q)) &&
              db.carts == (if caller.id in old(db.carts) then old(db.carts)[caller.id := Carts.EmptyCart] else old(db.carts))
    ensures AllStockInSchema(old(db.products)) ==> AllStockInSchema(db.products)
    ensures AllStamped(old(db.orders)) ==> AllStamped(db.orders)
    ensures FlagsKept(old(db.orders), db.orders)
  {
    if req.orderItems.None? || |req.orderItems.value| == 0 {
      return Err(400, "No order items");
    }
    var items := req.orderItems.value;
    var order := NewOrder(caller.id, items, req);
    db.orders := db.orders[newId := order];

    var failed := DecrementStock(db, items);
    if failed.Some? {
      return Err(500, "Product validation failed: countInStock");
    }
    StockAfterSpec(old(db.products), items);

    if caller.id in db.carts {
      db.carts := db.carts[caller.id := Carts.EmptyCart];
    }
    r := Ok(order);
  }


  /** GET /api/orders/:id: the owner or an administrator may read an order. */
  method GetOrderById(db: Database, caller: Caller, id: Id) returns (r: Result<Order>)
    ensures id !in db.orders ==> r == Err(404, "Order not found")
    ensures id in db.orders && !OwnerOrAdmin(db.orders[id].user, caller) ==> r == Err(401, "Not authorized")
    ensures r.Ok? <==> id in db.orders && OwnerOrAdmin(db.orders[id].user, caller)
    ensures r.Ok? ==> r.value == db.orders[id]
  {
    if id !in db.orders {
      return Err(404, "Order not found");
    }
    var order := db.orders[id];
    if order.user == caller.id || caller.isAdmin {
      return Ok(order);
    }
    r := Err(401, "Not authorized");
  }

  /**
   * PUT /api/orders/:id/pay. There is no "already paid" guard: paying again
   * restamps the order and records another payment. A body without `payer`
   * fails with a server error before anything is written.
   */
  method UpdateOrderToPaid(db: Database, caller: Caller, id: Id, body: PayBody, now: int, newPaymentId: Id)
    returns (r: Result<Order>)
    requires newPaymentId !in db.payments
    modifies db`orders, db`payments
    ensures id !in old(db.orders) ==> r == Err(404, "Order not found")
    ensures id in old(db.orders) && body.payerEmail.None? ==> r.Err? && r.status == 500
    ensures r.Err? ==> db.orders == old(db.orders) && db.payments == old(db.payments)
    ensures r.Ok? <==> id in old(db.orders) && body.payerEmail.Some?
    ensures r.Ok? ==>
              var o := old(db.orders)[id];
              r.value == o.(isPaid := true, paidAt := Some(now),
                            paymentResult := Some(PaymentResult(body.id, body.status, body.updateTime, body.payerEmail.value))) &&
              db.orders == old(db.orders)[id := r.value] &&
              db.payments == old(db.payments)[newPaymentId := Payment(caller.id, id, o.paymentMethod, o.totalPrice, "USD", "Completed", body.id)]
    ensures AllStamped(old(db.orders)) ==> AllStamped(db.orders)
    ensures FlagsKept(old(db.orders), db.orders)
  {
    if id !in db.orders {
      return Err(404, "Order not found");
    }
    var order := db.orders[id];
    if body.payerEmail.None? {
      return Err(500, "Cannot read properties of undefined");
    }
    order := order.(isPaid := true, paidAt := Some(now),
                    paymentResult := Some(PaymentResult(body.id, body.status, body.updateTime, body.payerEmail.value)));
    var payment := Payment(caller.id, id, order.paymentMethod, order.totalPrice, "USD", "Completed", body.id);
    db.payments := db.payments[newPaymentId := payment];
    db.orders := db.orders[id := order];
    r := Ok(order);
  }

  /** PUT /api/orders/:id/deliver */
  method UpdateOrderToDelivered(db: Database, id: Id, trackingNumber: Option<string>, now: int) returns (r: Result<Order>)
    modifies db`orders
    ensures id !in old(db.orders) ==> r == Err(404, "Order not found") && db.orders == old(db.orders)
    ensures id in old(db.orders) ==>
              var o := old(db.orders)[id];
              r == Ok(o.(isDelivered := true, deliveredAt := Some(now), status := "Delivered",
                         trackingNumber := OrStr(trackingNumber, o.trackingNumber))) &&
              db.orders == old(db.orders)[id := r.value]
    ensures id in old(db.orders) && (trackingNumber.None? || trackingNumber == Some("")) ==>
              r.value.trackingNumber == old(db.orders)[id].trackingNumber
    ensures AllStamped(old(db.orders)) ==> AllStamped(db.orders)
    ensures FlagsKept(old(db.orders), db.orders)
  {
    if id !in db.orders {
      return Err(404, "Order not found");
    }
    var order := db.orders[id];
    order := order.(isDelivered := true, deliveredAt := Some(now), status := "Delivered",
                    trackingNumber := OrStr(trackingNumber, order.trackingNumber));
    db.orders := db.orders[id := order];
    r := Ok(order);
  }

  /**
   * The field updates of updateOrderStatus: the status, tracking number and
   * notes are replaced when given (non-empty); only the exact status
   * "Delivered" sets the delivered flag and its date, and nothing clears it.
   */
  function Restatus(o: Order, status: Option<string>, trackingNumber: Option<string>, notes: Option<string>, now: int): (r: Order)
    ensures r.status == OrStr(status, o.status)
    ensures r.trackingNumber == OrStr(trackingNumber, o.trackingNumber)
    ensures r.notes == OrStr(notes, o.notes)
    ensures r.isDelivered <==> o.isDelivered || status == Some("Delivered")
    ensures r.deliveredAt == if status == Some("Delivered") then Some(now) else o.deliveredAt
    ensures r.(status := o.status, trackingNumber := o.trackingNumber, notes := o.notes,
               isDelivered := o.isDelivered, deliveredAt := o.deliveredAt) == o
    ensures Stamped(o) ==> Stamped(r)
  {
    var delivered := status == Some("Delivered");
    o.(status := OrStr(status, o.status),
       trackingNumber := OrStr(trackingNumber, o.trackingNumber),
       notes := OrStr(notes, o.notes),
       isDelivered := o.isDelivered || delivered,
       deliveredAt := if delivered then Some(now) else o.deliveredAt)
  }

  /** PUT /api/orders/:id/status */
  method UpdateOrderStatus(db: Database, id: Id, status: Option<string>, trackingNumber: Option<string>,
                           notes: Option<string>, now: int) returns (r: Result<Order>)
    modifies db`orders
    ensures id !in old(db.orders) ==> r == Err(404, "Order not found") && db.orders == old(db.orders)
    ensures r.Ok? <==> id in old(db.orders)
    ensures r.Ok? ==>
              r.value == Restatus(old(db.orders)[id], status, trackingNumber, notes, now) &&
              db.orders == old(db.orders)[id := r.value]
    ensures AllStamped(old(db.orders)) ==> AllStamped(db.orders)
    ensures FlagsKept(old(db.orders), db.orders)
  {
    if id !in db.orders {
      return Err(404, "Order not found");
    }
    var order := Restatus(db.orders[id], status, trackingNumber, notes, now);
    db.orders := db.orders[id := order];
    r := Ok(order);
  }

  /** GET /api/orders: page `pageNumber` of all orders, ten per page, newest first. */
  method GetOrders(db: Database, newestFirst: seq<Id>, pageNumber: Option<int>) returns (r: Option<Page<Order>>)
    requires ListsAll(db.orders, newestFirst)
    ensures IsListedPage(r, db.orders, newestFirst, pageNumber)
  {
    var table := db.orders;
    ListedPage(table, newestFirst, pageNumber);
    r := GetPage(Lookup(table, newestFirst), pageNumber);
  }
}
