/**
  The product catalogue: three product variants with fixed capability answers
  (expiry, shipping) and a weight for every variant that must be shipped.
 */
module Products {
  import opened Wrappers

  /** Identifies a product in the store; stands in for a shared object reference. */
  type ProductId = nat

  /** The closed set of product kinds; only the shippable kinds carry a weight. */
  datatype Variant =
    | NonExpiring
    | Expiring(weight: real, expired: bool)
    | ShippableOnly(weight: real)

  datatype Product = Product(name: string, price: int, quantity: int, variant: Variant)

  /** The single canonical place where every product's live quantity is kept. */
  type Store = map<ProductId, Product>

  /** Expiry is a flag fixed when the product is created, not a clock comparison. */
  predicate IsExpired(p: Product) {
    match p.variant
    case NonExpiring => false
    case Expiring(_, expired) => expired
    case ShippableOnly(_) => false
  }

  predicate RequiresShipping(p: Product) {
    match p.variant
    case NonExpiring => false
    case Expiring(_, _) => true
    case ShippableOnly(_) => true
  }

  /** The Shippable capability: a weight exists exactly for the variants that need shipping. */
  function Weight(p: Product): (w: Option<real>)
    ensures w.Some? <==> RequiresShipping(p)
  {
    match p.variant
    case NonExpiring => None
    case Expiring(weight, _) => Some(weight)
    case ShippableOnly(weight) => Some(weight)
  }

  /** Lowers the stock by `amount` with no bound check; callers guarantee sufficiency. */
  function ReduceQuantity(p: Product, amount: int): (r: Product)
    ensures r.quantity == p.quantity - amount
    ensures r.name == p.name && r.price == p.price && r.variant == p.variant
    ensures IsExpired(r) == IsExpired(p) && RequiresShipping(r) == RequiresShipping(p)
  {
    p.(quantity := p.quantity - amount)
  }

  /** Each variant's fixed answers to the two capability questions. */
  lemma VariantCapabilities(p: Product)
    ensures p.variant.NonExpiring? ==> !IsExpired(p) && !RequiresShipping(p)
    ensures p.variant.Expiring? ==> IsExpired(p) == p.variant.expired && RequiresShipping(p)
    ensures p.variant.ShippableOnly? ==> !IsExpired(p) && RequiresShipping(p)
  {
  }

  /** Successive reductions add up, so a sequence of settlements is one reduction by the sum. */
  lemma ReduceQuantityTwice(p: Product, a: int, b: int)
    ensures ReduceQuantity(ReduceQuantity(p, a), b) == ReduceQuantity(p, a + b)
  {
  }
}
