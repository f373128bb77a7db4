/** The sample catalogue, customer and cart of the program's entry point, and its checkout. */
module Scenarios {
  import opened Wrappers
  import opened Products
  import opened Carts
  import opened Customers
  import opened Checkouts
  import CheckoutProperties

  const Cheese: ProductId := 0
  const Biscuits: ProductId := 1
  const ScratchCard: ProductId := 2

  function SampleStore(): Store {
    map[
      Cheese := Product("Cheese", 100, 5, Expiring(0.2, false)),
      Biscuits := Product("Biscuits", 150, 2, Expiring(0.7, false)),
      ScratchCard := Product("Scratch Card", 50, 10, NonExpiring)
    ]
  }

  /** The three adds of the sample all fit the stock and build the cart in order. */
  lemma SampleCartBuilds()
    ensures Add(SampleStore(), [], Cheese, 2) == Success([CartItem(Cheese, 2)])
    ensures Add(SampleStore(), [CartItem(Cheese, 2)], Biscuits, 1)
      == Success([CartItem(Cheese, 2), CartItem(Biscuits, 1)])
    ensures Add(SampleStore(), [CartItem(Cheese, 2), CartItem(Biscuits, 1)], ScratchCard, 1)
      == Success([CartItem(Cheese, 2), CartItem(Biscuits, 1), CartItem(ScratchCard, 1)])
    ensures Add(SampleStore(), [], Cheese, 6) == Failure(StockExceeded)
  {
    assert SampleStore()[Biscuits].quantity == 2;
    assert SampleStore()[ScratchCard].quantity == 10;
    assert [CartItem(Cheese, 2)] + [CartItem(Biscuits, 1)] == [CartItem(Cheese, 2), CartItem(Biscuits, 1)];
    assert [CartItem(Cheese, 2), CartItem(Biscuits, 1)] + [CartItem(ScratchCard, 1)]
      == [CartItem(Cheese, 2), CartItem(Biscuits, 1), CartItem(ScratchCard, 1)];
  }

  function SampleCart(): Cart {
    [CartItem(Cheese, 2), CartItem(Biscuits, 1), CartItem(ScratchCard, 1)]
  }

  /** Every sample line passes; subtotal 2*100 + 150 + 50 = 400 and three shipped units. */
  lemma SamplePrice()
    ensures AllLinesPass(SampleStore(), SampleCart())
    ensures Subtotal(SampleStore(), SampleCart()) == 400
    ensures Shippables(SampleStore(), SampleCart()) == [Cheese, Cheese, Biscuits]
  {
    var store := SampleStore();
    var cart := SampleCart();
    assert cart[..2] == [CartItem(Cheese, 2), CartItem(Biscuits, 1)];
    assert cart[..2][..1] == [CartItem(Cheese, 2)];
    assert cart[..2][..1][..0] == [];
    assert store[Biscuits] == Product("Biscuits", 150, 2, Expiring(0.7, false));
    assert store[ScratchCard] == Product("Scratch Card", 50, 10, NonExpiring);
    assert Subtotal(store, cart[..1]) == 200;
    assert Subtotal(store, cart[..2]) == 350;
    assert LineTotal(store, cart[2]) == 50;
    assert Subtotal(store, cart) == Subtotal(store, cart[..2]) + LineTotal(store, cart[2]);
    assert Units(Cheese, 2) == [Cheese, Cheese];
    assert Units(Biscuits, 1) == [Biscuits];
    assert Shippables(store, cart[..1]) == [Cheese, Cheese];
    assert Shippables(store, cart[..2]) == [Cheese, Cheese, Biscuits];
  }

  /** Each sample product is requested by exactly one line. */
  lemma SampleQuantities()
    ensures CheckoutProperties.QuantityOrdered(Cheese, SampleCart()) == 2
    ensures CheckoutProperties.QuantityOrdered(Biscuits, SampleCart()) == 1
    ensures CheckoutProperties.QuantityOrdered(ScratchCard, SampleCart()) == 1
  {
    var cart := SampleCart();
    assert cart[..2] == [CartItem(Cheese, 2), CartItem(Biscuits, 1)];
    assert cart[..2][..1] == [CartItem(Cheese, 2)];
    assert cart[..2][..1][..0] == [];
    assert CheckoutProperties.QuantityOrdered(Cheese, cart[..1]) == 2;
    assert CheckoutProperties.QuantityOrdered(Cheese, cart[..2]) == 2;
    assert CheckoutProperties.QuantityOrdered(Biscuits, cart[..1]) == 0;
    assert CheckoutProperties.QuantityOrdered(Biscuits, cart[..2]) == 1;
    assert CheckoutProperties.QuantityOrdered(ScratchCard, cart[..1]) == 0;
    assert CheckoutProperties.QuantityOrdered(ScratchCard, cart[..2]) == 0;
  }

  /**
    The sample checkout: fee 30 on a subtotal of 400, total 430, balance
    1000 -> 570, stocks 5->3, 2->1, 10->9.
   */
  lemma SampleCheckout()
    ensures
      var t := Checkout(SampleStore(), Customer("John Doe", 1000), SampleCart());
      && t.outcome == Success(Receipt(400, [Cheese, Cheese, Biscuits], 30, 430))
      && t.customer.balance == 570
      && t.store[Cheese].quantity == 3
      && t.store[Biscuits].quantity == 1
      && t.store[ScratchCard].quantity == 9
  {
    var store := SampleStore();
    var cart := SampleCart();
    SamplePrice();
    SampleQuantities();
    CheckoutProperties.CheckoutSucceedsIff(store, Customer("John Doe", 1000), cart);
    CheckoutProperties.SettleQuantities(store, cart, Cheese);
    CheckoutProperties.SettleQuantities(store, cart, Biscuits);
    CheckoutProperties.SettleQuantities(store, cart, ScratchCard);
  }

  /** With balance 0 the sample fails for lack of funds, yet its manifest has already been printed. */
  lemma ManifestBeforeFundsCheck()
    ensures
      var t := Checkout(SampleStore(), Customer("John Doe", 0), SampleCart());
      t.outcome == Failure(InsufficientFunds) && t.shipped == [Cheese, Cheese, Biscuits]
  {
    SamplePrice();
    CheckoutProperties.FundsCheckedLast(SampleStore(), Customer("John Doe", 0), SampleCart());
    CheckoutProperties.ManifestPrintedIff(SampleStore(), Customer("John Doe", 0), SampleCart());
  }

  /** An expired line is reported even when a later line lacks stock and the balance is short. */
  lemma ExpiredReportedFirst()
    ensures
      var store := SampleStore()[Cheese := Product("Cheese", 100, 5, Expiring(0.2, true))];
      var cart := [CartItem(ScratchCard, 1), CartItem(Cheese, 9), CartItem(Biscuits, 7)];
      Checkout(store, Customer("John Doe", 0), cart).outcome == Failure(ExpiredProduct(Cheese))
  {
    var store := SampleStore()[Cheese := Product("Cheese", 100, 5, Expiring(0.2, true))];
    var cart := [CartItem(ScratchCard, 1), CartItem(Cheese, 9), CartItem(Biscuits, 7)];
    assert cart[..1] == [CartItem(ScratchCard, 1)];
    CheckoutProperties.LineErrorPrecedence(store, Customer("John Doe", 0), cart, 1);
  }
}
