/**
  The checkout transaction as a two-phase, pure procedure: a read-only validation
  and pricing phase that either fails or yields a receipt, then a settlement phase
  that deducts the balance and lowers each line's product stock.
 */
module Checkouts {
  import opened Wrappers
  import opened Products
  import opened Carts
  import opened Customers

  datatype CheckoutError =
    | EmptyCart
    | ExpiredProduct(id: ProductId)
    | InsufficientStock(id: ProductId)
    | InsufficientFunds

  /** Charged once whenever at least one unit must be shipped, whatever the weight or count. */
  const FlatShippingFee: int := 30

  /**
    The priced sale: `shippables` holds one product id per physical unit to ship,
    in cart order, which is what the shipment manifest is given.
   */
  datatype Receipt = Receipt(subtotal: int, shippables: seq<ProductId>, shippingFee: int, total: int)

  /**
    The outcome together with the store and customer as they are afterwards, and
    the units handed to the shipment manifest (empty when no manifest is printed).
   */
  datatype Transaction =
    Transaction(outcome: Result<Receipt, CheckoutError>, store: Store, customer: Customer, shipped: seq<ProductId>)

  /** The check applied to one line: expiry first, then the live stock. */
  function LineError(store: Store, item: CartItem): (r: Option<CheckoutError>)
    requires item.id in store
    ensures IsExpired(store[item.id]) ==> r == Some(ExpiredProduct(item.id))
    ensures !IsExpired(store[item.id]) && item.quantity > store[item.id].quantity ==>
      r == Some(InsufficientStock(item.id))
    ensures r.None? <==> !IsExpired(store[item.id]) && item.quantity <= store[item.id].quantity
  {
    var p := store[item.id];
    if IsExpired(p) then Some(ExpiredProduct(item.id))
    else if item.quantity > p.quantity then Some(InsufficientStock(item.id))
    else None
  }

  predicate AllLinesPass(store: Store, lines: Cart)
    requires InStore(store, lines)
  {
    forall i :: 0 <= i < |lines| ==> LineError(store, lines[i]).None?
  }

  /** The error of the earliest failing line, scanning in insertion order. */
  function FirstError(store: Store, lines: Cart): Option<CheckoutError>
    requires InStore(store, lines)
    decreases |lines|
  {
    if |lines| == 0 then None
    else
      var earlier := FirstError(store, lines[..|lines| - 1]);
      if earlier.Some? then earlier else LineError(store, lines[|lines| - 1])
  }

  function LineTotal(store: Store, item: CartItem): int
    requires item.id in store
  {
    store[item.id].price * item.quantity
  }

  function Subtotal(store: Store, lines: Cart): int
    requires InStore(store, lines)
    decreases |lines|
  {
    if |lines| == 0 then 0
    else Subtotal(store, lines[..|lines| - 1]) + LineTotal(store, lines[|lines| - 1])
  }

  /** `n` copies of `id`; none when `n` is zero or negative, like a counting loop. */
  function Units(id: ProductId, n: int): seq<ProductId>
    decreases n
  {
    if n <= 0 then [] else Units(id, n - 1) + [id]
  }

  /** A line contributes one entry per unit when its product is shippable. */
  function LineShippables(store: Store, item: CartItem): seq<ProductId>
    requires item.id in store
  {
    var p := store[item.id];
    if RequiresShipping(p) && Weight(p).Some? then Units(item.id, item.quantity) else []
  }

  function Shippables(store: Store, lines: Cart): seq<ProductId>
    requires InStore(store, lines)
    decreases |lines|
  {
    if |lines| == 0 then []
    else Shippables(store, lines[..|lines| - 1]) + LineShippables(store, lines[|lines| - 1])
  }

  function ShippingFee(shippables: seq<ProductId>): int {
    if |shippables| > 0 then FlatShippingFee else 0
  }

  /** Prices a cart against the current store; reads nothing else and changes nothing. */
  function Price(store: Store, cart: Cart): Receipt
    requires InStore(store, cart)
  {
    var subtotal := Subtotal(store, cart);
    var shippables := Shippables(store, cart);
    var fee := ShippingFee(shippables);
    Receipt(subtotal, shippables, fee, subtotal + fee)
  }

  /** The read-only phase: the empty-cart check, the per-line checks, then the funds check. */
  function Validate(store: Store, customer: Customer, cart: Cart): Result<Receipt, CheckoutError>
    requires InStore(store, cart)
  {
    if IsEmpty(cart) then Failure(EmptyCart)
    else
      match FirstError(store, cart)
      case Some(e) => Failure(e)
      case None =>
        var receipt := Price(store, cart);
        if customer.balance < receipt.total then Failure(InsufficientFunds)
        else Success(receipt)
  }

  /** Lowers each line's product stock by the line's quantity, line after line. */
  function Settle(store: Store, lines: Cart): (r: Store)
    requires InStore(store, lines)
    ensures r.Keys == store.Keys
    decreases |lines|
  {
    if |lines| == 0 then store
    else
      var before := Settle(store, lines[..|lines| - 1]);
      var item := lines[|lines| - 1];
      before[item.id := ReduceQuantity(before[item.id], item.quantity)]
  }

  /**
    The units the manifest is printed for. The manifest is printed once every
    line has passed and before the funds are checked, so a checkout that then
    fails for lack of funds has still printed it.
   */
  function Manifest(store: Store, cart: Cart): seq<ProductId>
    requires InStore(store, cart)
  {
    if IsEmpty(cart) || FirstError(store, cart).Some? then [] else Shippables(store, cart)
  }

  /** The whole transaction: state changes only when every check has passed. */
  function Checkout(store: Store, customer: Customer, cart: Cart): (t: Transaction)
    requires InStore(store, cart)
    ensures t.outcome.Failure? ==> t.store == store && t.customer == customer
    ensures |cart| == 0 ==> t.outcome == Failure(EmptyCart)
    ensures t.outcome.Success? ==>
      && t.customer.balance == customer.balance - t.outcome.value.total
      && 0 <= t.customer.balance
      && t.customer.name == customer.name
      && t.store.Keys == store.Keys
      && t.shipped == t.outcome.value.shippables
  {
    var shipped := Manifest(store, cart);
    match Validate(store, customer, cart)
    case Failure(e) => Transaction(Failure(e), store, customer, shipped)
    case Success(receipt) =>
      Transaction(Success(receipt), Settle(store, cart), Deduct(customer, receipt.total), shipped)
  }
}
