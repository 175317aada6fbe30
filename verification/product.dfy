/** A line item of the bill: an immutable (name, unit price, quantity) triple. */
module Products {

  /** The Java class keeps a `double` price and an `int` quantity; prices are
      exact reals here and the quantity is an unbounded integer. No field is
      validated, so a negative price or quantity is a legal value. */
  datatype Product = Product(name: string, price: real, quantity: int)

  /** What one line contributes to the total: price times quantity. */
  function LineTotal(p: Product): real
  {
    p.price * p.quantity as real
  }
}
