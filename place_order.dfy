/**
 * The checkout summary page: the price lines shown to the buyer and the
 * order request it sends. Amounts are integer cents; the page's
 * `toFixed(2)` rounding of the tax becomes rounding to the nearest cent,
 * halves upwards.
 */
module PlaceOrder {
  import opened Common
  import opened Models
  import Orders

  /** 15% of the items price, to the nearest cent. */
  function TaxCents(itemsCents: nat): nat {
    (15 * itemsCents + 50) / 100
  }

  /** Free shipping strictly above 100.00; exactly 100.00 still pays 10.00. */
  function ShippingCents(itemsCents: nat): nat {
    if itemsCents > 10000 then 0 else 1000
  }

  function TotalCents(itemsCents: nat): nat {
    itemsCents + TaxCents(itemsCents) + ShippingCents(itemsCents)
  }

  /** The tax is within half a cent of 15% of the items price. */
  lemma TaxIsRoundedFifteenPercent(itemsCents: nat)
    ensures 100 * TaxCents(itemsCents) <= 15 * itemsCents + 50 < 100 * TaxCents(itemsCents) + 100
  {
  }

  /** A larger basket never pays less tax. */
  lemma {:induction false} TaxMonotone(a: nat, b: nat)
    requires a <= b
    ensures TaxCents(a) <= TaxCents(b)
  {
    TaxIsRoundedFifteenPercent(a);
    TaxIsRoundedFifteenPercent(b);
  }

  /** The shipping line is 0 or 10.00, and 0 exactly above 100.00. */
  lemma ShippingThreshold(itemsCents: nat)
    ensures ShippingCents(itemsCents) == 0 || ShippingCents(itemsCents) == 1000
    ensures ShippingCents(itemsCents) == 0 <==> itemsCents > 10000
    ensures ShippingCents(10000) == 1000 && ShippingCents(10001) == 0
  {
  }

  /** Items of 25.00 give shipping 10.00, tax 3.75 and a total of 38.75. */
  lemma WorkedExample()
    ensures ShippingCents(2500) == 1000 && TaxCents(2500) == 375 && TotalCents(2500) == 3875
  {
  }

  /** Crossing the free-shipping threshold lowers the total: 100.01 costs less than 100.00. */
  lemma FreeShippingCliff()
    ensures TotalCents(10001) < TotalCents(10000)
  {
    assert TaxCents(10000) == 1500 && TaxCents(10001) == 1500;
  }

  /** A cart line as the client holds it, with its product populated. */
  datatype ClientLine = ClientLine(
    product: Id, name: string, images: seq<string>, quantity: int, price: int, attributes: Attrs)

  /** One order item per line; a product without images contributes the empty image. */
  function ToOrderItem(line: ClientLine): (item: OrderItem)
    ensures item.product == line.product && item.name == line.name
    ensures item.price == line.price && item.quantity == line.quantity && item.attributes == line.attributes
    ensures item.image == if |line.images| > 0 then line.images[0] else ""
  {
    OrderItem(line.product, line.name, if |line.images| > 0 then line.images[0] else "", line.price, line.quantity, line.attributes)
  }

  /** `items.map(...)`: one order item per cart line, in the same order. */
  function OrderItems(lines: seq<ClientLine>): (items: seq<OrderItem>)
    ensures |items| == |lines|
    ensures forall i :: 0 <= i < |lines| ==> items[i] == ToOrderItem(lines[i])
  {
    seq(|lines|, i requires 0 <= i < |lines| => ToOrderItem(lines[i]))
  }

  /**
   * `placeOrderHandler`: nothing is sent unless the user has a token and
   * the shipping address has been loaded. The loaded address serves as
   * both shipping and billing address; the stored payment method, when
   * empty or missing, becomes "Credit Card".
   */
  function PlaceOrderRequest(token: Option<string>, address: Option<Id>, storedMethod: Option<string>,
                             lines: seq<ClientLine>, itemsCents: nat): (r: Option<Orders.OrderRequest>)
    ensures r.Some? <==> token.Some? && token.value != "" && address.Some?
    ensures r.Some? ==>
              r.value.orderItems == Some(OrderItems(lines)) &&
              r.value.shippingAddress == address.value &&
              r.value.billingAddress == Some(address.value) &&
              r.value.taxPrice == TaxCents(itemsCents) &&
              r.value.shippingPrice == ShippingCents(itemsCents) &&
              r.value.totalPrice == TotalCents(itemsCents)
    ensures r.Some? ==> r.value.paymentMethod != ""
    ensures r.Some? ==> r.value.paymentMethod == if storedMethod.Some? && storedMethod.value != "" then storedMethod.value else "Credit Card"
  {
    if token.Some? && token.value != "" && address.Some? then
      Some(Orders.OrderRequest(Some(OrderItems(lines)), address.value, Some(address.value),
                               OrStr(storedMethod, "Credit Card"), TaxCents(itemsCents),
                               ShippingCents(itemsCents), TotalCents(itemsCents)))
    else
      None
  }

  /**
   * The order the server builds from this request bills the shipping
   * address, charges the page's total and carries the cart lines; the
   * request is refused as empty exactly when the cart had no lines.
   */
  lemma PlacedOrderMatchesPage(user: Id, token: string, address: Id, storedMethod: Option<string>,
                               lines: seq<ClientLine>, itemsCents: nat)
    requires token != ""
    ensures var req := PlaceOrderRequest(Some(token), Some(address), storedMethod, lines, itemsCents).value;
            var o := Orders.NewOrder(user, req.orderItems.value, req);
            o.shippingAddress == address && o.billingAddress == address &&
            o.totalPrice == TotalCents(itemsCents) && o.orderItems == OrderItems(lines) &&
            (req.orderItems.value == [] <==> lines == [])
  {
  }
}
