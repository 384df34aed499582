/** The catalogue page's add-to-cart handler. */
module Home {
  import opened Js
  import opened Effects
  import opened Store

  /** Position `i` holds the first cart item whose product id is `id`. */
  predicate IsFirst(items: seq<CartItem>, id: string, i: int) {
    0 <= i < |items| && items[i].product.id == id && forall j :: 0 <= j < i ==> items[j].product.id != id
  }

  /** The position of the first cart item whose product id is `id`, as `find` returns it. */
  function FindItem(items: seq<CartItem>, id: string): (r: Option<nat>)
    ensures r.Some? ==> IsFirst(items, id, r.value)
    ensures r.None? ==> forall j :: 0 <= j < |items| ==> items[j].product.id != id
  {
    if items == [] then None
    else if items[0].product.id == id then Some(0)
    else match FindItem(items[1..], id)
      case None => None
      case Some(k) => Some(k + 1)
  }

  /** The quantity to request: one more than the first cart line for the same product, or 1
      when the product is not yet in the cart. */
  function Quantity(cartItems: seq<CartItem>, product: Product): (q: int)
    ensures (forall j :: 0 <= j < |cartItems| ==> cartItems[j].product.id != product.id) ==> q == 1
    ensures forall i :: IsFirst(cartItems, product.id, i) ==> q == cartItems[i].quantity + 1
  {
    match FindItem(cartItems, product.id)
    case Some(i) => cartItems[i].quantity + 1
    case None => 1
  }

  /** The stock check: the request is refused exactly when the stock is below the quantity. */
  function InStock(countInStock: int, quantity: int): (ok: bool)
    ensures ok <==> quantity <= countInStock
  {
    !(countInStock < quantity)
  }

  const OutOfStock := "Sorry. Product is out of stock"

  /** The add-to-cart button. The awaited product request yields the current stock; if it
      throws, the rejection is unhandled and nothing further happens. Otherwise a shortage
      raises an alert and stops, and enough stock adds the line and opens the cart. */
  method AddToCartHandler(cartItems: seq<CartItem>, product: Product, stock: Response<int>)
    returns (effects: seq<Effect<StoreAction>>)
    ensures stock.Failed? ==> effects == []
    ensures stock.Ok? && stock.data < Quantity(cartItems, product) ==> effects == [Alerted(OutOfStock)]
    ensures stock.Ok? && Quantity(cartItems, product) <= stock.data ==>
      effects == [Dispatched(CartAddItem(CartItem(product, Quantity(cartItems, product)))), Navigated("/cart")]
  {
    var existing := FindItem(cartItems, product.id);
    var quantity := if existing.Some? then cartItems[existing.value].quantity + 1 else 1;
    effects := [];
    if stock.Failed? {
      return;
    }
    if !InStock(stock.data, quantity) {
      effects := effects + [Alerted(OutOfStock)];
      return;
    }
    effects := effects + [Dispatched(CartAddItem(CartItem(product, quantity)))];
    effects := effects + [Navigated("/cart")];
  }

  /** Adding a product that is not yet in the cart asks for one unit, and adding it again
      after that line is in the cart asks for two; a stock of exactly the quantity suffices. */
  lemma AddTwice(cartItems: seq<CartItem>, product: Product)
    requires forall j :: 0 <= j < |cartItems| ==> cartItems[j].product.id != product.id
    ensures Quantity(cartItems, product) == 1
    ensures Quantity(cartItems + [CartItem(product, 1)], product) == 2
    ensures InStock(2, Quantity(cartItems + [CartItem(product, 1)], product))
  {
    var after := cartItems + [CartItem(product, 1)];
    assert after[|cartItems|].product.id == product.id;
    assert forall j :: 0 <= j < |cartItems| ==> after[j].product.id != product.id;
  }
}
