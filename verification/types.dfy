/** The storefront's records: catalogue entries read from the backend and the
    cart line that extends a product with a quantity. */
module Types {

  datatype Option<+T> = None | Some(value: T)

  /** A product as read from the `products` table. The price is held in
      integer cents so that every sum over the cart is exact. */
  datatype Product = Product(
    id: int,
    name: string,
    description: Option<string>,
    price: nat,
    categoryId: int,
    imageUrl: Option<string>)

  /** A cart line: every field of the product plus a quantity. The quantity is
      an unconstrained number in the source; the cart's invariant keeps it at
      least 1. */
  datatype CartItem = CartItem(product: Product, quantity: int)
}
