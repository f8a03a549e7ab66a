/** The exponential function, as far as attention and sampling use it. */
module Exponential {

  /** All that is used of exp: it is positive and turns sums into products. */
  ghost predicate ExpLike(e: real -> real) {
    && (forall x {:trigger e(x)} :: e(x) > 0.0)
    && (forall x, y :: SumToProduct(e, x, y))
  }

  predicate SumToProduct(e: real -> real, x: real, y: real) {
    e(x + y) == e(x) * e(y)
  }

  lemma ExpPositive(e: real -> real, x: real)
    requires ExpLike(e)
    ensures e(x) > 0.0
  {
  }

  lemma ExpAdd(e: real -> real, x: real, y: real)
    requires ExpLike(e)
    ensures e(x + y) == e(x) * e(y)
  {
    assert SumToProduct(e, x, y);
  }
}
