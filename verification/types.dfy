/** The records of the store (products, cart lines, orders, order items and
    the checkout form) and the shape of an answer from the hosted database.
    Money is a `real`; quantities and stock levels are integers. */
module Types {

  datatype Option<T> = None | Some(value: T)

  /** The five order states; an order has exactly one of them. */
  datatype OrderStatus = Pending | Processing | Shipped | Delivered | Cancelled

  /** The string the database stores for a status. */
  function StatusValue(s: OrderStatus): (v: string)
    ensures |v| > 0
  {
    match s
    case Pending => "pending"
    case Processing => "processing"
    case Shipped => "shipped"
    case Delivered => "delivered"
    case Cancelled => "cancelled"
  }

  /** Distinct statuses are stored as distinct strings. */
  lemma {:induction false} StatusValueInjective(a: OrderStatus, b: OrderStatus)
    ensures StatusValue(a) == StatusValue(b) ==> a == b
  {
  }

  datatype Product = Product(
    id: string,
    name: string,
    description: Option<string>,
    price: real,
    imageUrl: Option<string>,
    category: Option<string>,
    stockQuantity: int,
    isActive: bool,
    createdAt: string,
    updatedAt: string)

  /** One cart line: a snapshot of the product taken when it was added. */
  datatype CartItem = CartItem(product: Product, quantity: int)

  datatype Order = Order(
    id: string,
    customerName: string,
    customerPhone: string,
    customerAddress: string,
    totalAmount: real,
    status: OrderStatus,
    createdAt: string,
    updatedAt: string)

  /** An order line as read back, optionally joined with its product. */
  datatype OrderItem = OrderItem(
    id: string,
    orderId: string,
    productId: string,
    product: Option<Product>,
    quantity: int,
    price: real,
    createdAt: string)

  datatype CheckoutForm = CheckoutForm(
    customerName: string,
    customerPhone: string,
    customerAddress: string)

  datatype DbError = DbError(message: string)

  /** What a query returns: rows (possibly null) and an error (possibly null). */
  datatype Response<T> = Response(data: Option<T>, error: Option<DbError>)
}
