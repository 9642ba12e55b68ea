/**
 * The documents the server keeps, one datatype per collection, as the
 * controllers read and write them (the Mongoose schemas reduced to their
 * fields; money is in integer cents, timestamps are opaque numbers).
 */
module Models {
  import opened Common

  /** Free-form attribute object (size, colour, ...). */
  type Attrs = map<string, string>

  datatype Product = Product(
    name: string,
    slug: string,
    price: int,
    description: string,
    richDescription: string,
    images: seq<string>,
    brand: string,
    category: Id,
    countInStock: int,
    rating: real,
    numReviews: nat,
    isFeatured: bool,
    isActive: bool,
    attributes: Attrs,
    discountPrice: int,
    discountPercentage: int)

  datatype Category = Category(
    name: string,
    description: string,
    slug: string,
    image: string,
    parent: Option<Id>,
    isActive: bool)

  /** One line of a cart: `price` is the unit price when the line was created. */
  datatype CartItem = CartItem(id: Id, product: Id, quantity: int, price: int, attributes: Attrs)

  datatype Cart = Cart(items: seq<CartItem>, totalItems: int, totalPrice: int)

  /** An order line: a snapshot of the product's name, image and price. */
  datatype OrderItem = OrderItem(product: Id, name: string, image: string, price: int, quantity: int, attributes: Attrs)

  datatype PaymentResult = PaymentResult(id: string, status: string, updateTime: string, email: string)

  datatype Order = Order(
    user: Id,
    orderItems: seq<OrderItem>,
    shippingAddress: Id,
    billingAddress: Id,
    paymentMethod: string,
    taxPrice: int,
    shippingPrice: int,
    totalPrice: int,
    isPaid: bool,
    paidAt: Option<int>,
    paymentResult: Option<PaymentResult>,
    isDelivered: bool,
    deliveredAt: Option<int>,
    status: string,
    trackingNumber: string,
    notes: string)

  datatype Payment = Payment(
    user: Id,
    order: Id,
    paymentMethod: string,
    amount: int,
    currency: string,
    status: string,
    transactionId: string)

  datatype Address = Address(
    user: Id,
    name: string,
    addressLine1: string,
    addressLine2: string,
    city: string,
    state: string,
    postalCode: string,
    country: string,
    phone: string,
    isDefault: bool)

  /** A review; `id` is its document id, the collection is kept in insertion order. */
  datatype Review = Review(
    id: Id,
    user: Id,
    product: Id,
    rating: int,
    title: string,
    comment: string,
    isApproved: bool)
}

/** The database: one mutable field per collection; each handler updates the fields it writes. */
module Store {
  import opened Common
  import opened Models

  class Database {
    var products: map<Id, Product>
    var categories: map<Id, Category>
    /** Carts are keyed by their user: there is at most one cart per user. */
    var carts: map<Id, Cart>
    var orders: map<Id, Order>
    var payments: map<Id, Payment>
    var addresses: map<Id, Address>
    var reviews: seq<Review>

    constructor ()
      ensures products == map[] && categories == map[] && carts == map[]
      ensures orders == map[] && payments == map[] && addresses == map[] && reviews == []
    {
      products, categories, carts := map[], map[], map[];
      orders, payments, addresses, reviews := map[], map[], map[], [];
    }
  }
}
