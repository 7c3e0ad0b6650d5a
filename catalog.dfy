/** The electronic component as the client holds it: the server's `ComponentResponse`,
    which is also the shape of a cart entry (`{...component, quantity}`). In a server
    response `quantity` is the total stock; in the cart it is the number selected. */
module Catalog {

  datatype ComponentRecord = ComponentRecord(
    id: int,
    name: string,
    description: string,
    categoryId: int,
    availableQuantity: int,
    quantity: real,
    isActive: bool)

  /** A component category. */
  datatype Category = Category(id: int, name: string)

  /** `Number.isInteger` on a (finite) number. */
  predicate IsWhole(q: real)
  {
    q.Floor as real == q
  }

  /** An integer-valued quantity is whole. */
  lemma WholeOfInt(n: int)
    ensures IsWhole(n as real)
  {
  }

  /** A quantity strictly between two consecutive integers is not whole. */
  lemma FractionNotWhole(n: int, q: real)
    requires n as real < q < (n + 1) as real
    ensures !IsWhole(q)
  {
    assert q.Floor == n;
  }
}
