# Checkout transaction of a small e-commerce system

This project models the checkout of `ECommerceSystem.java`. The system has three
product kinds: non-expiring, expiring and shippable-only. Each kind gives a fixed
answer to "is it expired?" and "does it need shipping?", and the two shippable
kinds carry a weight. A cart is an ordered list of (product, quantity) lines.
`Cart.add` accepts a line only when the quantity fits the product's stock at
that moment. A customer holds a balance. Checkout runs in this order:

1. it rejects an empty cart;
2. it checks each line in insertion order, expiry before stock, against the
   live stock;
3. it adds up the subtotal;
4. it lists one shipment entry per shipped unit;
5. it charges a flat fee of 30 when that list is non-empty;
6. it checks the funds (a balance equal to the total is enough);
7. only then does it deduct the balance and lower each line's product stock.

The model is functional:

- Products are a sum type (`Products.Variant`) kept in one store,
  `map<ProductId, Product>`.
- Cart lines refer to products by id. Two lines for the same product are
  therefore explicit, which the Java program expresses by sharing a reference.
- `Checkouts.Checkout` is a pure function. It returns the outcome (a receipt or
  an error) together with the store and customer as they are afterwards and the
  units handed to the shipment manifest.
- `CheckoutImpl.RunCheckout` is the same procedure written as the Java loops.
  It is proved to compute exactly `Checkouts.Checkout`.

Modules: `Wrappers` (Option, Result), `Products`, `Carts`, `Customers`,
`Checkouts` (the two-phase definition), `CheckoutProperties` (the lemmas),
`CheckoutImpl` (the loop version) and `Scenarios` (the sample data of `main`).

Facts about the code worth knowing:

- **Sample figures.** The sample run of `main` computes the subtotal
  2·100 + 150 + 50 = 400, the fee 30, the total 430 and the final balance 570
  (`Scenarios.SampleCheckout`).
- **Quantities.** `Cart.add` (ECommerceSystem.java:120) accepts zero and
  negative quantities, and so does the model. The per-unit loop then adds
  nothing for such a line.
- **When the fee is charged.** The fee is charged only when at least one unit is
  listed, that is, when a shipping line has a positive quantity
  (ECommerceSystem.java:193-200, `CheckoutProperties.FeeIffShippableUnit`).
- **Manifest before funds.** `ShippingService.ship` is called before the funds
  check (ECommerceSystem.java:199-206). A checkout that fails for lack of funds
  has therefore already printed the manifest. `Transaction.shipped` records the
  units handed to it on every path (`CheckoutProperties.ManifestPrintedIff`,
  `Scenarios.ManifestBeforeFundsCheck`).
- **Overselling.** Each line is checked against the stock as it was before
  settlement. Two lines for one product can therefore both pass while together
  they exceed the stock, and the stock goes negative
  (`CheckoutProperties.OversellExample`). Stock is guaranteed non-negative when
  no product appears on two lines (`CheckoutProperties.NoOversellWhenDistinct`).

## Model

| member | source | states |
|---|---|---|
| `Products.Weight` | ECommerceSystem.java:56-104 | a weight exists exactly for the variants that require shipping (the Shippable capability) |
| `Products.VariantCapabilities` | ECommerceSystem.java:40-104 | non-expiring is never expired and never ships; expiring reports its creation flag and always ships; shippable-only is never expired and always ships |
| `Products.ReduceQuantity` | ECommerceSystem.java:31-33 | the stock drops by the amount with no bound check; name, price, variant and capabilities are untouched |
| `Products.ReduceQuantityTwice` | ECommerceSystem.java:31-33 | two successive reductions equal one reduction by their sum |
| `Carts.Add` | ECommerceSystem.java:119-125 | succeeds iff the quantity is at most the current stock; on success exactly one line (id, quantity) is appended and earlier lines are unchanged; otherwise the error is StockExceeded |
| `Carts.IsEmpty` | ECommerceSystem.java:131-133 | true exactly for the cart with no lines |
| `Carts.AddKeepsInStore` | ECommerceSystem.java:119-125 | a successful add to a cart whose lines all refer to stored products keeps that true |
| `Customers.Deduct` | ECommerceSystem.java:145-147 | the balance drops by the amount with no guard; the name is kept; an amount within the balance leaves it between 0 and the old balance |
| `Checkouts.LineError` | ECommerceSystem.java:182-190 | an expired product yields ExpiredProduct whatever its stock; otherwise a quantity above the live stock yields InsufficientStock; the line passes iff neither holds |
| `Checkouts.Settle` | ECommerceSystem.java:214-217 | settling the lines keeps exactly the same set of products in the store |
| `Checkouts.Checkout` | ECommerceSystem.java:171-223 | any failure leaves store and customer unchanged; an empty cart fails with EmptyCart; on success the balance drops by exactly the total and stays non-negative, the store keeps its products, and the manifest received the receipt's shipment |
| `CheckoutProperties.UnitsLength` | ECommerceSystem.java:193-195 | the per-unit loop adds as many entries as the quantity when positive and none otherwise, all equal to the product |
| `CheckoutProperties.FirstErrorIsFirstFailingLine` | ECommerceSystem.java:181-190 | the scan reports no error iff every line passes, and otherwise reports the error of a line all of whose predecessors pass |
| `CheckoutProperties.FirstErrorOfPrefix` | ECommerceSystem.java:181-190 | once a prefix of the cart fails, the lines after it cannot change the reported error |
| `CheckoutProperties.FirstErrorAt` | ECommerceSystem.java:181-190 | when line i is the first failing line, the scan reports line i's error |
| `CheckoutProperties.LineErrorPrecedence` | ECommerceSystem.java:181-190 | the checkout reports the first failing line's error regardless of later lines and of the balance; an expired product is reported as expired even when its stock is short |
| `CheckoutProperties.FundsCheckedLast` | ECommerceSystem.java:204-209 | InsufficientFunds is reported iff the cart is non-empty, every line passes and the balance is below the total |
| `CheckoutProperties.CheckoutSucceedsIff` | ECommerceSystem.java:171-211 | checkout succeeds iff the cart is non-empty, every line passes and the total is at most the balance; the receipt is the cart's price |
| `CheckoutProperties.ExactBalanceBoundary` | ECommerceSystem.java:206-209 | a balance equal to the total succeeds and leaves 0; a balance one unit short fails with InsufficientFunds |
| `CheckoutProperties.ShippablesAreShippable` | ECommerceSystem.java:192-196 | every shipment entry is a product of some cart line that requires shipping and has a weight |
| `CheckoutProperties.ShippablesCount` | ECommerceSystem.java:192-196 | for every cart the shipment has one entry per unit: its length is the sum, over shipping lines, of the quantity when positive and 0 otherwise |
| `CheckoutProperties.ShippablesCountNonNegative` | ECommerceSystem.java:192-196 | with no negative quantity the shipment's length is the sum of the shipping lines' quantities |
| `CheckoutProperties.ShippablesNonEmptyIff` | ECommerceSystem.java:192-199 | the shipment is non-empty iff some line needs shipping and has a positive quantity |
| `CheckoutProperties.FeeIffShippableUnit` | ECommerceSystem.java:199-204 | the fee is 30 iff some line ships at least one unit, and 0 otherwise; the total is subtotal plus fee |
| `CheckoutProperties.ManifestPrintedIff` | ECommerceSystem.java:181-206 | the manifest is printed iff the cart is non-empty, every line passes and some unit ships, whatever the balance; it then lists the cart's shipped units |
| `CheckoutProperties.SettleQuantities` | ECommerceSystem.java:214-217 | after settlement each product's stock is its old stock minus the total quantity its lines request, with everything else about it unchanged |
| `CheckoutProperties.QuantityOrderedAbsent` | ECommerceSystem.java:214-217 | a product on no line is requested in quantity 0 |
| `CheckoutProperties.QuantityOrderedDistinct` | ECommerceSystem.java:214-217 | when no product appears twice, the quantity requested of a line's product is that line's quantity |
| `CheckoutProperties.SuccessBalance` | ECommerceSystem.java:204-211 | on success the new balance is old − (subtotal + fee) |
| `CheckoutProperties.SuccessStock` | ECommerceSystem.java:214-217 | on success each product's stock drops by the total quantity its lines request; a product on no line is unchanged |
| `CheckoutProperties.NoOversellWhenDistinct` | ECommerceSystem.java:187-217 | when no product appears on two lines, a successful checkout leaves every cart product's stock non-negative and keeps every non-negative stock non-negative |
| `CheckoutProperties.OversellExample` | ECommerceSystem.java:187-216 | two lines of 2 against a stock of 3 both pass the check and the stock ends at −1 |
| `CheckoutImpl.CollectUnits` | ECommerceSystem.java:193-195 | the per-unit loop appends exactly the line's units (none for a quantity that is not positive) |
| `CheckoutImpl.ScanLines` | ECommerceSystem.java:181-197 | the validation loop fails iff some line fails, with the first failing line's error (expired tested before stock), and otherwise yields the subtotal and the shipment |
| `CheckoutImpl.SettleLines` | ECommerceSystem.java:214-217 | the settlement loop computes exactly `Settle` |
| `CheckoutImpl.RunCheckout` | ECommerceSystem.java:171-217 | the loop-based procedure (early exits, fee and manifest, funds check, deduction, settlement loop) computes exactly the two-phase `Checkout`, manifest included |
| `Scenarios.SampleCartBuilds` | ECommerceSystem.java:226-235 | the sample's three adds fit the stock and build the cart in order; adding 6 Cheese against a stock of 5 fails |
| `Scenarios.SamplePrice` | ECommerceSystem.java:181-197 | every sample line passes; the subtotal is 400 and the shipment is [Cheese, Cheese, Biscuits] |
| `Scenarios.SampleQuantities` | ECommerceSystem.java:232-235 | the sample cart requests 2 Cheese, 1 Biscuits and 1 Scratch Card |
| `Scenarios.SampleCheckout` | ECommerceSystem.java:226-237 | the sample checkout gives subtotal 400, shipment [Cheese, Cheese, Biscuits], fee 30, total 430, balance 570, and stocks 5→3, 2→1, 10→9 |
| `Scenarios.ManifestBeforeFundsCheck` | ECommerceSystem.java:199-209 | the sample cart with balance 0 fails with InsufficientFunds after its manifest [Cheese, Cheese, Biscuits] was printed |
| `Scenarios.ExpiredReportedFirst` | ECommerceSystem.java:181-190 | an expired line is reported even when a later line lacks stock and the balance is 0 |

## Left out

- Console output is not modelled: the receipt lines, the error messages and the text printed by `ShippingService.ship`, including its `%.0f` / `%.1f` formatting and the total-weight sum in floating point (ECommerceSystem.java:158-167, 213-222). The model keeps only the list of units that `ship` receives, as `Transaction.shipped` (empty when `ship` is not called).
- `double` arithmetic is not modelled. Price and balance are unbounded integers and weight is a `real` that is never added up, so rounding is not modelled.
- Java's 32-bit `int` wrap-around of quantities is not modelled: stocks and cart quantities are unbounded integers.
- The accessors (`getName`, `getPrice`, `getQuantity`, `getItems`, `getBalance`) and the `Customer` constructor have no logic of their own. They become field reads.
- Object identity and aliasing are replaced by product ids into one store. The precondition `InStore` stands for "every cart line refers to a live product".
- `main` is used only as the data of the lemmas in `Scenarios`.
- Concurrency is not modelled; the program is single-threaded.
- Carts.Add: its failure value carries no cart. That the cart is unchanged after a rejected add follows from the caller keeping its old cart value, not from a clause of the contract.
