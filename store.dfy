/** The records the storefront pages read from the global store, and the store actions they
    dispatch. What the store's reducer does with those actions is not part of this model. */
module Store {

  /** A catalogue product as the storefront lists it. */
  datatype Product = Product(id: string, name: string, slug: string, image: string, price: int, countInStock: int)

  /** A cart line: the product's fields plus the quantity. */
  datatype CartItem = CartItem(product: Product, quantity: int)

  /** The signed-in user. */
  datatype UserInfo = UserInfo(name: string, isAdmin: bool, token: string)

  /** The store actions the storefront dispatches. */
  datatype StoreAction =
    | CartAddItem(item: CartItem)
    | SavePaymentMethod(paymentMethod: string)
    | UserLogout
    | DarkModeOn
    | DarkModeOff
}
