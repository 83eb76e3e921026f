/** The storefront's record shapes (src/types/index.ts).
    Prices and other amounts are integer cents; ratings are tenths of a star
    (4.8 is 48); dates are `YYYY-MM-DD` strings. */
module Types {
  import opened Wrappers

  datatype Review = Review(
    id: string,
    userId: string,
    userName: string,
    rating: nat,
    comment: string,
    date: string)

  datatype Product = Product(
    id: string,
    name: string,
    description: string,
    price: nat,
    images: seq<string>,
    category: string,
    tags: seq<string>,
    stock: nat,
    rating: nat,
    reviews: seq<Review>,
    specifications: map<string, string>,
    createdAt: string)

  /** One cart line: a product and how many of it. */
  datatype CartItem = CartItem(product: Product, quantity: int)

  /** The cart with its two derived totals. */
  datatype Cart = Cart(items: seq<CartItem>, totalItems: int, subtotal: int)

  datatype AddressType = Billing | Shipping

  datatype Address = Address(
    id: string,
    kind: AddressType,
    name: string,
    line1: string,
    line2: Option<string>,
    city: string,
    state: string,
    postalCode: string,
    country: string,
    phone: string,
    isDefault: bool)

  datatype CardType = Credit | Debit

  datatype PaymentMethod = PaymentMethod(
    id: string,
    kind: CardType,
    cardNumber: string,
    cardHolder: string,
    expiryMonth: string,
    expiryYear: string,
    isDefault: bool)

  datatype OrderStatus = Pending | Processing | Shipped | Delivered | Cancelled

  datatype OrderItem = OrderItem(product: Product, quantity: int, price: int)

  datatype Order = Order(
    id: string,
    userId: string,
    items: seq<OrderItem>,
    status: OrderStatus,
    shipping: Address,
    billing: Address,
    payment: PaymentMethod,
    subtotal: int,
    tax: int,
    shippingCost: int,
    total: int,
    createdAt: string,
    updatedAt: string)

  /** A signed-in user as the session holds it: no password. */
  datatype User = User(
    id: string,
    firstName: string,
    lastName: string,
    email: string,
    avatar: Option<string>,
    addresses: seq<Address>,
    paymentMethods: seq<PaymentMethod>,
    orders: seq<Order>)
}
