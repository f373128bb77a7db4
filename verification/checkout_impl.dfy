/**
  The checkout written as the program runs it: one pass over the lines that
  checks, prices and collects shipped units, the fee (handing the units to the
  manifest) and the funds check, then a second pass that settles. It computes
  exactly the two-phase definition.
 */
module CheckoutImpl {
  import opened Wrappers
  import opened Products
  import opened Carts
  import opened Customers
  import opened Checkouts
  import CheckoutProperties

  /** The per-unit loop: appends `quantity` copies of `id`, none when it is not positive. */
  method CollectUnits(shippables: seq<ProductId>, id: ProductId, quantity: int) returns (r: seq<ProductId>)
    ensures r == shippables + Units(id, quantity)
  {
    r := shippables;
    var k := 0;
    while k < quantity
      invariant 0 <= k <= (if quantity > 0 then quantity else 0)
      invariant r == shippables + Units(id, k)
    {
      r := r + [id];
      k := k + 1;
    }
    assert Units(id, k) == Units(id, quantity);
  }

  /**
    The validation pass: stops at the first line that is expired or short of
    stock, otherwise returns the subtotal and the shipped units.
   */
  method ScanLines(store: Store, cart: Cart) returns (r: Result<(int, seq<ProductId>), CheckoutError>)
    requires InStore(store, cart)
    ensures r.Failure? <==> FirstError(store, cart).Some?
    ensures r.Failure? ==> FirstError(store, cart) == Some(r.error)
    ensures r.Success? ==> r.value == (Subtotal(store, cart), Shippables(store, cart))
  {
    var subtotal := 0;
    var shippables: seq<ProductId> := [];
    var i := 0;
    while i < |cart|
      invariant 0 <= i <= |cart|
      invariant FirstError(store, cart[..i]).None?
      invariant subtotal == Subtotal(store, cart[..i])
      invariant shippables == Shippables(store, cart[..i])
    {
      var item := cart[i];
      var product := store[item.id];
      assert cart[..i + 1][..i] == cart[..i];
      if IsExpired(product) {
        CheckoutProperties.FirstErrorOfPrefix(store, cart, i + 1);
        return Failure(ExpiredProduct(item.id));
      }
      if item.quantity > product.quantity {
        CheckoutProperties.FirstErrorOfPrefix(store, cart, i + 1);
        return Failure(InsufficientStock(item.id));
      }
      subtotal := subtotal + product.price * item.quantity;
      if RequiresShipping(product) && Weight(product).Some? {
        shippables := CollectUnits(shippables, item.id, item.quantity);
      }
      i := i + 1;
    }
    assert cart[..i] == cart;
    r := Success((subtotal, shippables));
  }

  /** The settlement pass: lowers each line's product stock, line after line. */
  method SettleLines(store: Store, cart: Cart) returns (settled: Store)
    requires InStore(store, cart)
    ensures settled == Settle(store, cart)
  {
    settled := store;
    var j := 0;
    while j < |cart|
      invariant 0 <= j <= |cart|
      invariant settled == Settle(store, cart[..j])
    {
      assert cart[..j + 1][..j] == cart[..j];
      var item := cart[j];
      settled := settled[item.id := ReduceQuantity(settled[item.id], item.quantity)];
      j := j + 1;
    }
    assert cart[..j] == cart;
  }

  method RunCheckout(store: Store, customer: Customer, cart: Cart) returns (t: Transaction)
    requires InStore(store, cart)
    ensures t == Checkout(store, customer, cart)
  {
    if IsEmpty(cart) {
      return Transaction(Failure(EmptyCart), store, customer, []);
    }
    var scan := ScanLines(store, cart);
    if scan.Failure? {
      return Transaction(Failure(scan.error), store, customer, []);
    }
    var (subtotal, shippables) := scan.value;

    var shippingFee := 0;
    var shipped: seq<ProductId> := [];
    if |shippables| > 0 {
      shippingFee := FlatShippingFee;
      shipped := shippables;
    }
    var total := subtotal + shippingFee;
    if customer.balance < total {
      return Transaction(Failure(InsufficientFunds), store, customer, shipped);
    }

    var paid := Deduct(customer, total);
    var settled := SettleLines(store, cart);
    t := Transaction(Success(Receipt(subtotal, shippables, shippingFee, total)), settled, paid, shipped);
  }
}
