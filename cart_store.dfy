/** The interface of the in-memory cart store (the `useCart` hook). Its
    implementation is not part of this model: the pages are modelled by the
    calls they make on it, and by the values (`items`, `getTotalPrice()`) they
    read from it. */
module CartStore {

  /** The snapshot handed to `addToCart`: display fields copied when added. */
  datatype StoreItem = StoreItem(id: string, title: string, price: real, image: string, seller: string)

  /** A cart line as the cart page reads it from `items`. */
  datatype CartLine = CartLine(item: StoreItem, quantity: int)

  /** One call a page makes on the cart store. */
  datatype StoreCall =
    | AddToCart(item: StoreItem)
    | UpdateQuantity(id: string, quantity: int)
    | RemoveFromCart(id: string)
    | ClearCart
}
