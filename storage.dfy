/** The browser's `localStorage` as the client uses it: a map from key to
    stored text, where the texts the client itself writes are kept as the
    values they encode. */
module Storage {
  import opened Wrappers
  import Cart

  /** The signed-in user as the server describes it; `role` may be absent. */
  datatype Account = Account(id: int, username: string, fullName: string, role: Option<string>)

  /** The cart handed from the order page to the checkout page. */
  datatype PendingCart = PendingCart(items: seq<Cart.Line>, total: real)

  /** A stored text: `JSON.stringify` of an account or of a pending cart,
      or any other text (the token, or text that is not valid JSON). */
  datatype Entry = UserJson(account: Account) | CartJson(cart: PendingCart) | Raw(text: string)

  type Store = map<string, Entry>

  const UserKey := "user"
  const TokenKey := "token"
  const CartKey := "pending_cart"

  /** `if (!localStorage.getItem(key))`: a missing key and an empty text
      both read as nothing stored. */
  predicate Missing(store: Store, key: string)
  {
    key !in store || store[key] == Raw("")
  }

  lemma KeysDiffer()
    ensures UserKey != TokenKey && UserKey != CartKey && TokenKey != CartKey
  {
  }
}
