/** What the solver needs to be told about products of reals. */
module Reals {

  function Abs(a: real): (r: real)
    ensures r >= 0.0
  {
    if a < 0.0 then -a else a
  }

  // The product is passed as a parameter: nonlinear terms then stay out of the callers' goals.
  lemma PositiveProduct(a: real, b: real, c: real)
    requires a > 0.0 && b > 0.0 && c == a * b
    ensures c > 0.0
  {
  }

  lemma NonnegProduct(a: real, b: real, c: real)
    requires a >= 0.0 && b >= 0.0 && c == a * b
    ensures c >= 0.0
  {
  }
}
