/**
 * The browser's copy of the cart (the Redux cart slice). Every request that
 * returns a cart replaces the lines and both totals together; clearing
 * empties them; a failure only records the message.
 */
module CartSlice {
  import opened Common
  import opened Models
  import Carts

  class CartState {
    var items: seq<CartItem>
    var totalItems: int
    var totalPrice: int
    var loading: bool
    var error: Option<string>

    /** The totals shown agree with the lines held. */
    predicate Valid()
      reads this
    {
      Carts.Consistent(Cart(items, totalItems, totalPrice))
    }

    /** The initial state: no lines, zero totals, idle, no error. */
    constructor ()
      ensures items == [] && totalItems == 0 && totalPrice == 0 && !loading && error == None
      ensures Valid()
    {
      items, totalItems, totalPrice, loading, error := [], 0, 0, false, None;
    }

    /** `clearError` */
    method ClearError()
      modifies this`error
      ensures error == None
    {
      error := None;
    }

    /** The `.pending` case of all five requests: the cart shown is not touched. */
    method Pending()
      modifies this`loading, this`error
      ensures loading && error == None
    {
      loading := true;
      error := None;
    }

    /** The `.rejected` case of all five requests: the cart shown is not touched. */
    method Rejected(message: string)
      modifies this`loading, this`error
      ensures !loading && error == Some(message)
    {
      loading := false;
      error := Some(message);
    }

    /**
     * The `.fulfilled` case of getCart, addToCart, updateCartItem and
     * removeCartItem: lines and totals are taken from the server's cart, so
     * a consistent server cart gives a consistent client cart.
     */
    method Fulfilled(payload: Cart)
      modifies this`loading, this`items, this`totalItems, this`totalPrice
      ensures !loading
      ensures items == payload.items && totalItems == payload.totalItems && totalPrice == payload.totalPrice
      ensures Carts.Consistent(payload) ==> Valid()
    {
      loading := false;
      items := payload.items;
      totalItems := payload.totalItems;
      totalPrice := payload.totalPrice;
    }

    /** The `.fulfilled` case of clearCart: the server's reply is ignored and the cart emptied. */
    method ClearFulfilled()
      modifies this`loading, this`items, this`totalItems, this`totalPrice
      ensures !loading && items == [] && totalItems == 0 && totalPrice == 0
      ensures Valid()
    {
      loading := false;
      items := [];
      totalItems := 0;
      totalPrice := 0;
    }
  }
}
