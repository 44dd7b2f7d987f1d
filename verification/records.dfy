/** The rows of the five database tables, as the application reads them,
    plus the joined order view the order pages receive. Timestamps and the
    creating user's id are filled in by the database and are not modelled. */
module Records {
  import opened Wrappers

  /** A row of `products`. */
  datatype Product = Product(
    id: string,
    name: string,
    price: real,
    category: string,
    stock: int,
    barcode: Option<string>,
    imageUrl: Option<string>)

  /** A row of `customers`. */
  datatype Customer = Customer(
    id: string,
    name: string,
    email: string,
    phone: string,
    totalOrders: int,
    totalSpent: real,
    status: string)

  /** The signed-in account as the authentication service reports it. */
  datatype AuthUser = AuthUser(id: string, email: Option<string>)

  /** A row of `user_profiles`; every descriptive column is nullable. */
  datatype UserProfile = UserProfile(
    id: string,
    fullName: Option<string>,
    role: Option<string>,
    avatarUrl: Option<string>)

  /** A row of `orders`. */
  datatype OrderRow = OrderRow(
    id: string,
    customerId: Option<string>,
    totalAmount: real,
    taxAmount: real,
    paymentMethod: string,
    paymentStatus: string)

  /** A row of `order_items`. */
  datatype ItemRow = ItemRow(
    orderId: string,
    productId: string,
    quantity: int,
    unitPrice: real,
    totalPrice: real)

  /** An order item as the order list returns it, joined with its product's name. */
  datatype ItemView = ItemView(
    quantity: int,
    unitPrice: real,
    totalPrice: real,
    productName: Option<string>)

  /** The joined customer fields of an order. */
  datatype CustomerRef = CustomerRef(name: string, email: string)

  /** An order as the order list returns it: the row joined with its customer,
      its creator's profile name and its items (each join may be missing). */
  datatype OrderView = OrderView(
    row: OrderRow,
    customer: Option<CustomerRef>,
    creatorName: Option<string>,
    items: Option<seq<ItemView>>)
}

/** The JSON responses of the API routes. */
module Http {
  import opened Wrappers

  /** Either the success body, or an error status with `{ error, details? }`. */
  datatype Response<+T> =
    | Ok(body: T)
    | Error(status: int, error: string, details: Option<string>)

  /** What a store call gives back: rows, no data (`null`), or an error message. */
  datatype Query<+T> =
    | Rows(rows: T)
    | NoData
    | Failed(message: string)
}
