/**
 * The administrators' order list: the status drop-down filter. The
 * filter value is one of "all", "pending", "processing", "shipped",
 * "delivered" and "cancelled"; the order's status is lower-cased before
 * the comparison, the filter value is not.
 */
module OrderList {
  import opened Common
  import opened Models

  function StatusIs(filter: string): Order -> bool {
    (o: Order) => Lower(o.status) == filter
  }

  /** `filteredOrders` */
  function FilterOrders(orders: seq<Order>, filter: string): (r: seq<Order>)
    ensures filter == "all" ==> r == orders
    ensures |r| <= |orders|
    ensures filter != "all" ==> forall o :: o in r <==> o in orders && Lower(o.status) == filter
  {
    if filter == "all" then orders else Filter(orders, StatusIs(filter))
  }

  /** The filter keeps the list's order: filtering a concatenation concatenates the filtered parts. */
  lemma FilterKeepsOrder(a: seq<Order>, b: seq<Order>, filter: string)
    ensures FilterOrders(a + b, filter) == FilterOrders(a, filter) + FilterOrders(b, filter)
  {
    if filter != "all" {
      FilterAppend(a, b, StatusIs(filter));
    }
  }

  /** The status is compared lower-cased, so the stored "Pending" shows under "pending". */
  lemma CapitalisedStatusMatches(o: Order)
    requires o.status == "Pending" || o.status == "Delivered"
    ensures o.status == "Pending" ==> FilterOrders([o], "pending") == [o]
    ensures o.status == "Delivered" ==> FilterOrders([o], "delivered") == [o]
  {
    assert Lower("Pending") == "pending";
    assert Lower("Delivered") == "delivered";
  }

  /** A filter value holding a capital letter matches no order at all. */
  lemma CapitalFilterMatchesNothing(orders: seq<Order>, filter: string, k: nat)
    requires k < |filter| && IsUpper(filter[k])
    ensures FilterOrders(orders, filter) == []
  {
    assert filter != "all" by {
      assert !IsUpper("all"[0]) && !IsUpper("all"[1]) && !IsUpper("all"[2]);
    }
    forall i | 0 <= i < |orders|
      ensures !StatusIs(filter)(orders[i])
    {
      var s := Lower(orders[i].status);
      if |s| == |filter| {
        assert s[k] != filter[k];
      }
    }
    FilterKeepsNone(orders, StatusIs(filter));
  }
}
