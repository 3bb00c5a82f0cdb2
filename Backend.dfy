/**
 * The records the remote data service hands to the frontend. Every `bigint`
 * is an unbounded `int`; `Time` is an integer count of nanoseconds.
 * Photos and the created/updated times of a product play no part in the
 * logic modelled here and are left out.
 */
module Backend {
  import opened Wrappers

  /** "Buying exactly `quantity` units costs `totalPrice` in total." */
  datatype Tier = Tier(quantity: int, totalPrice: int)

  datatype Product = Product(
    id: int,
    sku: Option<string>,
    tiers: seq<Tier>,
    name: string,
    unit: string,
    stock: int,
    price: int)

  datatype CartItem = CartItem(lineTotal: int, productId: int, quantity: int, unitPrice: int)

  datatype Transaction = Transaction(
    id: int,
    cashReceived: int,
    paymentMethod: string,
    totalAmount: int,
    timestamp: int,
    change: int,
    items: seq<CartItem>)
}
