/** The shopping cart: an ordered list of (product, requested quantity) lines. */
module Carts {
  import opened Wrappers
  import opened Products

  /** A cart line refers to its product by id, so two lines may share one product. */
  datatype CartItem = CartItem(id: ProductId, quantity: int)

  type Cart = seq<CartItem>

  datatype AddError = StockExceeded

  /** Every line of the cart refers to a product held in the store. */
  predicate InStore(store: Store, cart: Cart) {
    forall i :: 0 <= i < |cart| ==> cart[i].id in store
  }

  /**
    Appends one line when the requested quantity fits the product's stock at this
    moment; zero and negative quantities fit. On failure the caller keeps its cart.
   */
  function Add(store: Store, cart: Cart, id: ProductId, quantity: int): (r: Result<Cart, AddError>)
    requires id in store
    ensures r.Success? <==> quantity <= store[id].quantity
    ensures r.Success? ==>
      && |r.value| == |cart| + 1
      && r.value[..|cart|] == cart
      && r.value[|cart|] == CartItem(id, quantity)
    ensures r.Failure? ==> r.error == StockExceeded
  {
    if quantity <= store[id].quantity then Success(cart + [CartItem(id, quantity)])
    else Failure(StockExceeded)
  }

  function IsEmpty(cart: Cart): (b: bool)
    ensures b <==> cart == []
  {
    |cart| == 0
  }

  /** Adding to a cart whose lines all refer to the store keeps that true. */
  lemma AddKeepsInStore(store: Store, cart: Cart, id: ProductId, quantity: int)
    requires id in store && InStore(store, cart)
    ensures Add(store, cart, id, quantity).Success? ==> InStore(store, Add(store, cart, id, quantity).value)
  {
  }
}
