/** Facts about products and quotients of reals, each small enough to be found at once. */
module Reals {
  lemma QuotientSign(a: real, b: real)
    requires a >= 0.0 && b > 0.0
    ensures a / b >= 0.0 && (a > 0.0 ==> a / b > 0.0)
    ensures 1.0 * a / b >= 0.0 && -1.0 * a / b <= 0.0
  {
  }

  lemma ScaleSum(a: real, b: real, c: real)
    ensures a * (b + c) == a * b + a * c
  {
  }
}
