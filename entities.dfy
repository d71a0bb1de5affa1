/** The persisted records (JPA entities) as values. Rows refer to each other by
    id, as the foreign-key columns do: a cart line names its product, an order
    names its owner's uid. */
module Entities {
  import opened Wrappers
  import opened JavaInt

  /** The `Role` enumeration stored on a user. */
  datatype Role = CUSTOMER | ADMIN

  /** A user keyed by the identity provider's uid. Phone number and shipping
      address are nullable columns the upsert never writes. */
  datatype User = User(
    uid: string,
    name: string,
    email: string,
    phoneNumber: Option<string>,
    shippingAddress: Option<string>,
    role: Role)

  datatype Category = Category(id: nat, name: string)

  /** A product; `price` is an exact decimal (`BigDecimal`), modelled as a real. */
  datatype Product = Product(
    id: nat,
    name: string,
    brand: string,
    inventory: int32,
    price: real,
    description: string,
    category: Category,
    images: seq<string>)

  /** A cart line: a live reference to a product (its price is read at checkout). */
  datatype CartItem = CartItem(id: nat, productId: nat, quantity: int32)

  datatype Cart = Cart(id: nat, owner: string, items: seq<CartItem>)

  /** An order line: product and quantity with the unit price frozen at checkout. */
  datatype OrderItem = OrderItem(id: nat, productId: nat, quantity: int32, price: real)

  /** An order; its `owner` column is nullable. */
  datatype Order = Order(id: nat, owner: Option<string>, totalAmount: real, items: seq<OrderItem>)

  /** `price × quantity` of one order line, exactly. */
  function LineAmount(item: OrderItem): real {
    item.price * item.quantity as real
  }

  /** Sum of the line amounts of an order's lines, accumulated front to back. */
  function OrderTotal(items: seq<OrderItem>): real
    decreases |items|
  {
    if items == [] then 0.0 else OrderTotal(items[..|items| - 1]) + LineAmount(items[|items| - 1])
  }
}
