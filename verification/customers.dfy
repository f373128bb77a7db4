/** The paying customer and the one operation that changes the balance. */
module Customers {

  datatype Customer = Customer(name: string, balance: int)

  /** Subtracts unconditionally; the checkout guarantees the balance suffices beforehand. */
  function Deduct(c: Customer, amount: int): (r: Customer)
    ensures r.balance == c.balance - amount
    ensures r.name == c.name
    ensures 0 <= amount <= c.balance ==> 0 <= r.balance <= c.balance
  {
    c.(balance := c.balance - amount)
  }
}
