/**
  What the checkout promises: error precedence, all-or-nothing settlement, the
  shipping fee rule and the exact balance and stock arithmetic on success.
 */
module CheckoutProperties {
  import opened Wrappers
  import opened Products
  import opened Carts
  import opened Customers
  import opened Checkouts

  /** Total quantity the lines request of product `id`. */
  function QuantityOrdered(id: ProductId, lines: Cart): int
    decreases |lines|
  {
    if |lines| == 0 then 0
    else
      var item := lines[|lines| - 1];
      QuantityOrdered(id, lines[..|lines| - 1]) + (if item.id == id then item.quantity else 0)
  }

  /** Sum of the quantities of the lines whose product needs shipping. */
  function ShippingQuantity(store: Store, lines: Cart): int
    requires InStore(store, lines)
    decreases |lines|
  {
    if |lines| == 0 then 0
    else
      var item := lines[|lines| - 1];
      ShippingQuantity(store, lines[..|lines| - 1])
        + (if RequiresShipping(store[item.id]) then item.quantity else 0)
  }

  /** A line that puts at least one physical unit into the shipment. */
  predicate ShipsUnits(store: Store, item: CartItem)
    requires item.id in store
  {
    RequiresShipping(store[item.id]) && item.quantity > 0
  }

  lemma {:induction false} UnitsLength(id: ProductId, n: int)
    ensures |Units(id, n)| == if n <= 0 then 0 else n
    ensures forall k :: 0 <= k < |Units(id, n)| ==> Units(id, n)[k] == id
    decreases n
  {
    if n > 0 {
      UnitsLength(id, n - 1);
    }
  }

  // ---------------------------------------------------------------------------
  // Error precedence
  // ---------------------------------------------------------------------------

  /** The scan finds nothing exactly when every line passes; otherwise it reports the first failing line. */
  lemma {:induction false} FirstErrorIsFirstFailingLine(store: Store, lines: Cart)
    requires InStore(store, lines)
    ensures FirstError(store, lines).None? <==> AllLinesPass(store, lines)
    ensures FirstError(store, lines).Some? ==>
      exists i :: 0 <= i < |lines| && FirstError(store, lines) == LineError(store, lines[i])
        && AllLinesPass(store, lines[..i])
    decreases |lines|
  {
    if |lines| > 0 {
      var n := |lines| - 1;
      var prefix := lines[..n];
      FirstErrorIsFirstFailingLine(store, prefix);
      if FirstError(store, prefix).Some? {
        var i :| 0 <= i < |prefix| && FirstError(store, prefix) == LineError(store, prefix[i])
          && AllLinesPass(store, prefix[..i]);
        assert prefix[..i] == lines[..i];
        assert lines[i] == prefix[i];
      } else {
        assert prefix == lines[..n];
        if LineError(store, lines[n]).None? {
          forall i | 0 <= i < |lines|
            ensures LineError(store, lines[i]).None?
          {
            if i < n {
              assert lines[i] == prefix[i];
            }
          }
        }
      }
    }
  }

  /** Once a prefix of the cart fails, lines after it cannot change the reported error. */
  lemma {:induction false} FirstErrorOfPrefix(store: Store, lines: Cart, n: nat)
    requires InStore(store, lines) && n <= |lines|
    requires FirstError(store, lines[..n]).Some?
    ensures FirstError(store, lines) == FirstError(store, lines[..n])
    decreases |lines| - n
  {
    if n < |lines| {
      assert lines[..n + 1][..n] == lines[..n];
      FirstErrorOfPrefix(store, lines, n + 1);
    } else {
      assert lines[..n] == lines;
    }
  }

  /** The line at index `i` is the first to fail, so its error is the one reported. */
  lemma FirstErrorAt(store: Store, lines: Cart, i: nat)
    requires InStore(store, lines) && i < |lines|
    requires AllLinesPass(store, lines[..i]) && LineError(store, lines[i]).Some?
    ensures FirstError(store, lines) == LineError(store, lines[i])
  {
    var prefix := lines[..i + 1];
    assert prefix[..i] == lines[..i];
    FirstErrorIsFirstFailingLine(store, lines[..i]);
    FirstErrorOfPrefix(store, lines, i + 1);
  }

  /**
    When line `i` is the first failing line the checkout reports that line's
    error, whatever the later lines and the balance are; an expired product is
    reported as expired even when its stock is also short.
   */
  lemma LineErrorPrecedence(store: Store, customer: Customer, cart: Cart, i: nat)
    requires InStore(store, cart) && i < |cart|
    requires AllLinesPass(store, cart[..i]) && LineError(store, cart[i]).Some?
    ensures Checkout(store, customer, cart).outcome == Failure(LineError(store, cart[i]).value)
    ensures IsExpired(store[cart[i].id]) ==>
      Checkout(store, customer, cart).outcome == Failure(ExpiredProduct(cart[i].id))
  {
    FirstErrorAt(store, cart, i);
  }

  /** Funds are the last check: they are reported only for a non-empty cart whose every line passes. */
  lemma FundsCheckedLast(store: Store, customer: Customer, cart: Cart)
    requires InStore(store, cart)
    ensures Checkout(store, customer, cart).outcome == Failure(InsufficientFunds) <==>
      |cart| > 0 && AllLinesPass(store, cart) && customer.balance < Price(store, cart).total
  {
    FirstErrorIsFirstFailingLine(store, cart);
  }

  /** The checkout succeeds exactly when the cart is non-empty, every line passes and the balance covers the total. */
  lemma CheckoutSucceedsIff(store: Store, customer: Customer, cart: Cart)
    requires InStore(store, cart)
    ensures Checkout(store, customer, cart).outcome.Success? <==>
      |cart| > 0 && AllLinesPass(store, cart) && Price(store, cart).total <= customer.balance
    ensures Checkout(store, customer, cart).outcome.Success? ==>
      Checkout(store, customer, cart).outcome.value == Price(store, cart)
  {
    FirstErrorIsFirstFailingLine(store, cart);
  }

  /** A balance exactly equal to the total is enough; one unit less is not. */
  lemma ExactBalanceBoundary(store: Store, customer: Customer, cart: Cart)
    requires InStore(store, cart) && |cart| > 0 && AllLinesPass(store, cart)
    ensures customer.balance == Price(store, cart).total ==>
      Checkout(store, customer, cart).outcome.Success? && Checkout(store, customer, cart).customer.balance == 0
    ensures customer.balance == Price(store, cart).total - 1 ==>
      Checkout(store, customer, cart).outcome == Failure(InsufficientFunds)
  {
    CheckoutSucceedsIff(store, customer, cart);
    FundsCheckedLast(store, customer, cart);
  }

  // ---------------------------------------------------------------------------
  // Shipping
  // ---------------------------------------------------------------------------

  /** Every shipment entry is a cart product that needs shipping and has a weight. */
  lemma {:induction false} ShippablesAreShippable(store: Store, lines: Cart)
    requires InStore(store, lines)
    ensures forall k :: 0 <= k < |Shippables(store, lines)| ==>
      var id := Shippables(store, lines)[k];
      id in store && RequiresShipping(store[id]) && Weight(store[id]).Some?
      && exists i :: 0 <= i < |lines| && lines[i].id == id
    decreases |lines|
  {
    if |lines| > 0 {
      var n := |lines| - 1;
      var prefix := lines[..n];
      ShippablesAreShippable(store, prefix);
      UnitsLength(lines[n].id, lines[n].quantity);
      var s := Shippables(store, lines);
      forall k | 0 <= k < |s|
        ensures s[k] in store && RequiresShipping(store[s[k]]) && Weight(store[s[k]]).Some?
        ensures exists i :: 0 <= i < |lines| && lines[i].id == s[k]
      {
        if k < |Shippables(store, prefix)| {
          var i :| 0 <= i < |prefix| && prefix[i].id == s[k];
          assert lines[i] == prefix[i];
        } else {
          assert s[k] == lines[n].id;
        }
      }
    }
  }

  /** Number of units the lines ship: a shipping line's quantity when positive, nothing otherwise. */
  function ShippedUnits(store: Store, lines: Cart): int
    requires InStore(store, lines)
    decreases |lines|
  {
    if |lines| == 0 then 0
    else
      var item := lines[|lines| - 1];
      ShippedUnits(store, lines[..|lines| - 1])
        + (if RequiresShipping(store[item.id]) && item.quantity > 0 then item.quantity else 0)
  }

  /** One entry per shipped unit, for every cart: zero and negative lines contribute nothing. */
  lemma {:induction false} ShippablesCount(store: Store, lines: Cart)
    requires InStore(store, lines)
    ensures |Shippables(store, lines)| == ShippedUnits(store, lines)
    decreases |lines|
  {
    if |lines| > 0 {
      var n := |lines| - 1;
      ShippablesCount(store, lines[..n]);
      UnitsLength(lines[n].id, lines[n].quantity);
    }
  }

  /** With no negative quantity, the length is the sum of the shipping lines' quantities. */
  lemma {:induction false} ShippablesCountNonNegative(store: Store, lines: Cart)
    requires InStore(store, lines)
    requires forall i :: 0 <= i < |lines| ==> lines[i].quantity >= 0
    ensures |Shippables(store, lines)| == ShippingQuantity(store, lines)
    decreases |lines|
  {
    if |lines| > 0 {
      var n := |lines| - 1;
      ShippablesCountNonNegative(store, lines[..n]);
      UnitsLength(lines[n].id, lines[n].quantity);
    }
  }

  /** The shipment is non-empty exactly when some line ships at least one unit. */
  lemma {:induction false} ShippablesNonEmptyIff(store: Store, lines: Cart)
    requires InStore(store, lines)
    ensures |Shippables(store, lines)| > 0 <==> exists i :: 0 <= i < |lines| && ShipsUnits(store, lines[i])
    decreases |lines|
  {
    if |lines| > 0 {
      var n := |lines| - 1;
      var prefix := lines[..n];
      ShippablesNonEmptyIff(store, prefix);
      UnitsLength(lines[n].id, lines[n].quantity);
      if exists i :: 0 <= i < |prefix| && ShipsUnits(store, prefix[i]) {
        var i :| 0 <= i < |prefix| && ShipsUnits(store, prefix[i]);
        assert lines[i] == prefix[i];
      }
      if exists i :: 0 <= i < |lines| && ShipsUnits(store, lines[i]) {
        var i :| 0 <= i < |lines| && ShipsUnits(store, lines[i]);
        if i < n {
          assert prefix[i] == lines[i];
        }
      }
    }
  }

  /** The fee is the flat 30 when some unit is shipped and 0 otherwise. */
  lemma {:induction false} FeeIffShippableUnit(store: Store, cart: Cart)
    requires InStore(store, cart)
    ensures Price(store, cart).shippingFee ==
      if exists i :: 0 <= i < |cart| && ShipsUnits(store, cart[i]) then 30 else 0
    ensures Price(store, cart).total == Subtotal(store, cart) + Price(store, cart).shippingFee
  {
    ShippablesNonEmptyIff(store, cart);
  }

  /**
    The manifest is printed exactly when the cart is non-empty, every line passes
    and some unit ships, whatever the balance; it then lists the cart's shipped units.
   */
  lemma ManifestPrintedIff(store: Store, customer: Customer, cart: Cart)
    requires InStore(store, cart)
    ensures |Checkout(store, customer, cart).shipped| > 0 <==>
      |cart| > 0 && AllLinesPass(store, cart) && |Shippables(store, cart)| > 0
    ensures |cart| > 0 && AllLinesPass(store, cart) ==>
      Checkout(store, customer, cart).shipped == Shippables(store, cart)
  {
    FirstErrorIsFirstFailingLine(store, cart);
  }

  // ---------------------------------------------------------------------------
  // Settlement
  // ---------------------------------------------------------------------------

  /** Settlement lowers each product by the total its lines request and touches nothing else. */
  lemma {:induction false} SettleQuantities(store: Store, lines: Cart, id: ProductId)
    requires InStore(store, lines) && id in store
    ensures Settle(store, lines)[id] == ReduceQuantity(store[id], QuantityOrdered(id, lines))
    ensures Settle(store, lines)[id].quantity == store[id].quantity - QuantityOrdered(id, lines)
    decreases |lines|
  {
    if |lines| > 0 {
      var n := |lines| - 1;
      SettleQuantities(store, lines[..n], id);
      if lines[n].id == id {
        ReduceQuantityTwice(store[id], QuantityOrdered(id, lines[..n]), lines[n].quantity);
      }
    }
  }

  lemma {:induction false} QuantityOrderedAbsent(id: ProductId, lines: Cart)
    requires forall i :: 0 <= i < |lines| ==> lines[i].id != id
    ensures QuantityOrdered(id, lines) == 0
    decreases |lines|
  {
    if |lines| > 0 {
      QuantityOrderedAbsent(id, lines[..|lines| - 1]);
    }
  }

  /** On success the balance drops by exactly subtotal plus fee. */
  lemma SuccessBalance(store: Store, customer: Customer, cart: Cart)
    requires InStore(store, cart) && Checkout(store, customer, cart).outcome.Success?
    ensures Checkout(store, customer, cart).customer.balance ==
      customer.balance - (Subtotal(store, cart) + Price(store, cart).shippingFee)
  {
    CheckoutSucceedsIff(store, customer, cart);
  }

  /**
    On success each product's stock drops by the total its lines request, and a
    product on no line is left exactly as it was.
   */
  lemma SuccessStock(store: Store, customer: Customer, cart: Cart, id: ProductId)
    requires InStore(store, cart) && id in store
    requires Checkout(store, customer, cart).outcome.Success?
    ensures Checkout(store, customer, cart).store[id].quantity == store[id].quantity - QuantityOrdered(id, cart)
    ensures (forall i :: 0 <= i < |cart| ==> cart[i].id != id) ==>
      Checkout(store, customer, cart).store[id] == store[id]
  {
    CheckoutSucceedsIff(store, customer, cart);
    SettleQuantities(store, cart, id);
    if forall i :: 0 <= i < |cart| ==> cart[i].id != id {
      QuantityOrderedAbsent(id, cart);
    }
  }

  // ---------------------------------------------------------------------------
  // Overselling
  // ---------------------------------------------------------------------------

  predicate DistinctProducts(cart: Cart) {
    forall i, j :: 0 <= i < j < |cart| ==> cart[i].id != cart[j].id
  }

  lemma {:induction false} QuantityOrderedDistinct(lines: Cart, i: nat)
    requires DistinctProducts(lines) && i < |lines|
    ensures QuantityOrdered(lines[i].id, lines) == lines[i].quantity
    decreases |lines|
  {
    var n := |lines| - 1;
    var prefix := lines[..n];
    if i < n {
      assert prefix[i] == lines[i];
      QuantityOrderedDistinct(prefix, i);
    } else {
      QuantityOrderedAbsent(lines[i].id, prefix);
    }
  }

  /**
    Each line is checked against the stock before any line is settled; the stock
    is guaranteed non-negative when no product appears on two lines.
   */
  lemma NoOversellWhenDistinct(store: Store, customer: Customer, cart: Cart)
    requires InStore(store, cart) && DistinctProducts(cart)
    requires Checkout(store, customer, cart).outcome.Success?
    ensures forall i :: 0 <= i < |cart| ==> Checkout(store, customer, cart).store[cart[i].id].quantity >= 0
    ensures forall id :: id in store && store[id].quantity >= 0 ==>
      Checkout(store, customer, cart).store[id].quantity >= 0
  {
    CheckoutSucceedsIff(store, customer, cart);
    var t := Checkout(store, customer, cart);
    forall id | id in store
      ensures t.store[id].quantity >= 0 || (store[id].quantity < 0 && forall i :: 0 <= i < |cart| ==> cart[i].id != id)
    {
      SettleQuantities(store, cart, id);
      if i :| 0 <= i < |cart| && cart[i].id == id {
        QuantityOrderedDistinct(cart, i);
        assert LineError(store, cart[i]).None?;
      } else {
        QuantityOrderedAbsent(id, cart);
      }
    }
  }

  /** Two lines of 2 against a stock of 3 each pass the check, and the stock ends at -1. */
  lemma OversellExample()
    ensures
      var store := map[0 := Product("Cheese", 100, 3, Expiring(0.2, false))];
      var cart := [CartItem(0, 2), CartItem(0, 2)];
      var t := Checkout(store, Customer("Buyer", 1000), cart);
      t.outcome.Success? && t.store[0].quantity == -1
  {
    var store := map[0 := Product("Cheese", 100, 3, Expiring(0.2, false))];
    var cart := [CartItem(0, 2), CartItem(0, 2)];
    assert cart[..1] == [CartItem(0, 2)];
    assert cart[..1][..0] == [];
    assert AllLinesPass(store, cart);
    assert Subtotal(store, cart[..1]) == 200;
    assert Subtotal(store, cart) == 400;
    UnitsLength(0, 2);
    assert |Shippables(store, cart[..1])| == 2;
    assert |Shippables(store, cart)| == 4;
    assert Price(store, cart).total == 430;
    CheckoutSucceedsIff(store, Customer("Buyer", 1000), cart);
    SettleQuantities(store, cart, 0);
  }
}
