/**
 * The payment controller: recording a payment against an order, and the
 * second path (besides PUT /api/orders/:id/pay) by which a completed
 * payment marks its order paid.
 */
module Payments {
  import opened Common
  import opened Models
  import opened Store
  import Orders

  /** The status enumeration of the payment schema. */
  predicate IsPaymentStatus(s: string) {
    s == "Pending" || s == "Completed" || s == "Failed" || s == "Refunded"
  }

  /** The body of POST /api/payments; absent strings are "" except the optional currency and status. */
  datatype PaymentRequest = PaymentRequest(
    order: Id,
    paymentMethod: string,
    amount: int,
    currency: Option<string>,
    status: Option<string>,
    transactionId: string)

  /** The payment document createPayment stores: currency "USD" and status "Pending" by default. */
  function NewPayment(user: Id, req: PaymentRequest): (p: Payment)
    ensures p.user == user && p.order == req.order && p.amount == req.amount
    ensures p.currency == (if req.currency.Some? && req.currency.value != "" then req.currency.value else "USD")
    ensures p.status == (if req.status.Some? then req.status.value else "Pending")
  {
    Payment(user, req.order, req.paymentMethod, req.amount, OrStr(req.currency, "USD"), req.status.Or("Pending"), req.transactionId)
  }

  /** GET /api/payments/:id: the owner or an administrator may read a payment. */
  method GetPaymentById(db: Database, caller: Caller, id: Id) returns (r: Result<Payment>)
    ensures id !in db.payments ==> r == Err(404, "Payment not found")
    ensures id in db.payments && !OwnerOrAdmin(db.payments[id].user, caller) ==> r == Err(401, "Not authorized")
    ensures r.Ok? <==> id in db.payments && OwnerOrAdmin(db.payments[id].user, caller)
    ensures r.Ok? ==> r.value == db.payments[id]
  {
    if id !in db.payments {
      return Err(404, "Payment not found");
    }
    var payment := db.payments[id];
    if payment.user == caller.id || caller.isAdmin {
      return Ok(payment);
    }
    r := Err(401, "Not authorized");
  }

  /**
   * POST /api/payments. The order is marked paid exactly when the status is
   * "Completed", with no check that it was already paid.
   */
  method CreatePayment(db: Database, caller: Caller, req: PaymentRequest, now: int, isoNow: string, newId: Id)
    returns (r: Result<Payment>)
    requires newId !in db.payments
    requires req.status.None? || IsPaymentStatus(req.status.value)
    modifies db`payments, db`orders
    ensures req.order !in old(db.orders) ==> r == Err(404, "Order not found")
    ensures req.order in old(db.orders) && !OwnerOrAdmin(old(db.orders)[req.order].user, caller) ==>
              r == Err(401, "Not authorized")
    ensures r.Err? ==> db.payments == old(db.payments) && db.orders == old(db.orders)
    ensures r.Ok? <==> req.order in old(db.orders) && OwnerOrAdmin(old(db.orders)[req.order].user, caller)
    ensures r.Ok? ==>
              r.value == NewPayment(caller.id, req) &&
              db.payments == old(db.payments)[newId := r.value] &&
              db.orders == if req.status == Some("Completed") then
                             old(db.orders)[req.order := old(db.orders)[req.order].(isPaid := true, paidAt := Some(now),
                               paymentResult := Some(PaymentResult(req.transactionId, "Completed", isoNow, caller.email)))]
                           else old(db.orders)
    ensures r.Ok? ==> (db.orders[req.order].isPaid <==> old(db.orders)[req.order].isPaid || req.status == Some("Completed"))
    ensures Orders.AllStamped(old(db.orders)) ==> Orders.AllStamped(db.orders)
    ensures Orders.FlagsKept(old(db.orders), db.orders)
  {
    if req.order !in db.orders {
      return Err(404, "Order not found");
    }
    var order := db.orders[req.order];
    if order.user != caller.id && !caller.isAdmin {
      return Err(401, "Not authorized");
    }
    var payment := NewPayment(caller.id, req);
    db.payments := db.payments[newId := payment];
    if req.status == Some("Completed") {
      order := order.(isPaid := true, paidAt := Some(now),
                      paymentResult := Some(PaymentResult(req.transactionId, "Completed", isoNow, caller.email)));
      db.orders := db.orders[req.order := order];
    }
    r := Ok(payment);
  }

  /** The payment-status merge: an absent or empty status, or transaction id, keeps the old one. */
  function MergeStatus(p: Payment, status: Option<string>, transactionId: Option<string>): (r: Payment)
    ensures r.status == (if status.Some? && status.value != "" then status.value else p.status)
    ensures r.transactionId == (if transactionId.Some? && transactionId.value != "" then transactionId.value else p.transactionId)
    ensures r.(status := p.status, transactionId := p.transactionId) == p
  {
    p.(status := OrStr(status, p.status), transactionId := OrStr(transactionId, p.transactionId))
  }

  /**
   * PUT /api/payments/:id. Setting the status "Completed" marks the order
   * paid only if it exists and is not paid yet; an already paid order keeps
   * its original payment stamp. The recorded id falls back to "manual".
   */
  method UpdatePaymentStatus(db: Database, id: Id, status: Option<string>, transactionId: Option<string>, now: int, isoNow: string)
    returns (r: Result<Payment>)
    requires status.None? || status.value == "" || IsPaymentStatus(status.value)
    modifies db`payments, db`orders
    ensures id !in old(db.payments) ==> r == Err(404, "Payment not found") && db.payments == old(db.payments) && db.orders == old(db.orders)
    ensures r.Ok? <==> id in old(db.payments)
    ensures r.Ok? ==>
              r.value == MergeStatus(old(db.payments)[id], status, transactionId) &&
              db.payments == old(db.payments)[id := r.value]
    ensures r.Ok? ==>
              var oid := r.value.order;
              var marks := status == Some("Completed") && oid in old(db.orders) && !old(db.orders)[oid].isPaid;
              db.orders == if marks then
                             old(db.orders)[oid := old(db.orders)[oid].(isPaid := true, paidAt := Some(now),
                               paymentResult := Some(PaymentResult(OrStr(Some(r.value.transactionId), "manual"), "Completed", isoNow, "")))]
                           else old(db.orders)
    // an order that was already paid is never restamped on this path
    ensures forall o :: o in old(db.orders) && old(db.orders)[o].isPaid ==> db.orders[o] == old(db.orders)[o]
    ensures Orders.AllStamped(old(db.orders)) ==> Orders.AllStamped(db.orders)
    ensures Orders.FlagsKept(old(db.orders), db.orders)
  {
    if id !in db.payments {
      return Err(404, "Payment not found");
    }
    var payment := MergeStatus(db.payments[id], status, transactionId);
    db.payments := db.payments[id := payment];
    if status == Some("Completed") {
      if payment.order in db.orders && !db.orders[payment.order].isPaid {
        var order := db.orders[payment.order];
        order := order.(isPaid := true, paidAt := Some(now),
                        paymentResult := Some(PaymentResult(OrStr(Some(payment.transactionId), "manual"), "Completed", isoNow, "")));
        db.orders := db.orders[payment.order := order];
      }
    }
    r := Ok(payment);
  }

  /** GET /api/payments/admin: page `pageNumber` of all payments, ten per page, newest first. */
  method GetAllPayments(db: Database, newestFirst: seq<Id>, pageNumber: Option<int>) returns (r: Option<Page<Payment>>)
    requires ListsAll(db.payments, newestFirst)
    ensures IsListedPage(r, db.payments, newestFirst, pageNumber)
  {
    var table := db.payments;
    ListedPage(table, newestFirst, pageNumber);
    r := GetPage(Lookup(table, newestFirst), pageNumber);
  }
}
