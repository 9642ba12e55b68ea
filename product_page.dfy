/**
 * The product page's quantity stepper and its button enablement, and the
 * review form reset. The stepper is a small state machine: the quantity
 * starts at 1 and moves by one per click, within the stock on hand.
 */
module ProductPage {
  import opened Common

  datatype Click = Decrease | Increase

  /**
   * One click. Decrease only acts above 1; Increase only acts below the
   * stock, and not at all while no product is loaded (`stock` is None).
   */
  function Step(quantity: int, stock: Option<int>, click: Click): int {
    match click
    case Decrease => if quantity > 1 then quantity - 1 else quantity
    case Increase => if stock.Some? && quantity < stock.value then quantity + 1 else quantity
  }

  /** The quantity after a sequence of clicks, the first click first. */
  function Run(quantity: int, stock: Option<int>, clicks: seq<Click>): int
    decreases |clicks|
  {
    if clicks == [] then quantity else Run(Step(quantity, stock, clicks[0]), stock, clicks[1..])
  }

  /** The largest quantity the stepper can reach: the stock, but never below the starting 1. */
  function Cap(stock: Option<int>): int {
    if stock.Some? && stock.value > 1 then stock.value else 1
  }

  /** The minus button is disabled at 1 or below. */
  predicate DecreaseDisabled(quantity: int) {
    quantity <= 1
  }

  /** The plus button is disabled once the quantity reaches the stock. */
  predicate IncreaseDisabled(quantity: int, stock: int) {
    quantity >= stock
  }

  /** Each button is disabled exactly when clicking it would change nothing. */
  lemma DisabledIffNoEffect(quantity: int, stock: int)
    ensures DecreaseDisabled(quantity) <==> Step(quantity, Some(stock), Decrease) == quantity
    ensures IncreaseDisabled(quantity, stock) <==> Step(quantity, Some(stock), Increase) == quantity
  {
  }

  /** One click keeps the quantity between 1 and the cap. */
  lemma StepInRange(quantity: int, stock: Option<int>, click: Click)
    requires 1 <= quantity <= Cap(stock)
    ensures 1 <= Step(quantity, stock, click) <= Cap(stock)
  {
  }

  /** Any sequence of clicks from a quantity in range stays in range; in particular from the initial 1. */
  lemma {:induction false} RunInRange(quantity: int, stock: Option<int>, clicks: seq<Click>)
    requires 1 <= quantity <= Cap(stock)
    ensures 1 <= Run(quantity, stock, clicks) <= Cap(stock)
    decreases |clicks|
  {
    if clicks != [] {
      StepInRange(quantity, stock, clicks[0]);
      RunInRange(Step(quantity, stock, clicks[0]), stock, clicks[1..]);
    }
  }

  /** Enough increases reach any quantity up to the stock: every value in range is reachable from 1. */
  lemma {:induction false} IncreasesReach(stock: int, n: nat)
    requires 1 + n <= stock
    ensures Run(1, Some(stock), seq(n, _ => Increase)) == 1 + n
  {
    if n > 0 {
      var clicks := seq(n, _ => Increase);
      var rest := seq(n - 1, _ => Increase);
      assert clicks == rest + [Increase];
      RunAppend(1, Some(stock), rest, Increase);
      IncreasesReach(stock, n - 1);
    }
  }

  lemma {:induction false} RunAppend(quantity: int, stock: Option<int>, clicks: seq<Click>, last: Click)
    ensures Run(quantity, stock, clicks + [last]) == Step(Run(quantity, stock, clicks), stock, last)
    decreases |clicks|
  {
    if clicks == [] {
      assert clicks + [last] == [last];
    } else {
      assert (clicks + [last])[1..] == clicks[1..] + [last];
      RunAppend(Step(quantity, stock, clicks[0]), stock, clicks[1..], last);
    }
  }

  /** Add to Cart is disabled only for a stock of exactly zero. */
  predicate AddToCartDisabled(stock: int) {
    stock == 0
  }

  /**
   * For a stock within the schema's lower bound of 0, Add to Cart is enabled
   * exactly when the server's stock check (`countInStock < quantity` is a 400)
   * accepts the initial quantity 1, and then every quantity the stepper can
   * reach is accepted too: an enabled button never sends an out-of-stock request.
   */
  lemma AddToCartNeverOutOfStock(stock: int, clicks: seq<Click>)
    requires stock >= 0
    ensures !AddToCartDisabled(stock) <==> !(stock < 1)
    ensures !AddToCartDisabled(stock) ==> 1 <= Run(1, Some(stock), clicks) <= stock
  {
    if !AddToCartDisabled(stock) {
      RunInRange(1, Some(stock), clicks);
    }
  }

  class ProductPageState {
    var quantity: int
    /** The review form. */
    var rating: int
    var title: string
    var comment: string

    /** The quantity stays in range for the product's stock. */
    predicate Valid(stock: Option<int>)
      reads this
    {
      1 <= quantity <= Cap(stock)
    }

    constructor ()
      ensures quantity == 1 && rating == 0 && title == "" && comment == ""
      ensures forall stock :: Valid(stock)
    {
      quantity, rating, title, comment := 1, 0, "", "";
    }

    /** `decreaseQuantity` */
    method DecreaseQuantity(stock: Option<int>)
      modifies this`quantity
      ensures quantity == Step(old(quantity), stock, Decrease)
      ensures old(Valid(stock)) ==> Valid(stock)
    {
      if quantity > 1 {
        quantity := quantity - 1;
      }
    }

    /** `increaseQuantity` */
    method IncreaseQuantity(stock: Option<int>)
      modifies this`quantity
      ensures quantity == Step(old(quantity), stock, Increase)
      ensures old(Valid(stock)) ==> Valid(stock)
    {
      if stock.Some? && quantity < stock.value {
        quantity := quantity + 1;
      }
    }

    /** After a review is accepted the form is emptied; the quantity is kept. */
    method ReviewAccepted()
      modifies this`rating, this`title, this`comment
      ensures rating == 0 && title == "" && comment == ""
    {
      rating, title, comment := 0, "", "";
    }
  }
}
