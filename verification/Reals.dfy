/** Monotonicity of multiplication, one product at a time. */
module Reals {

  lemma MulLe(x: real, y: real, n: real)
    requires n >= 0.0 && x <= y
    ensures x * n <= y * n
  {
  }

  lemma MulLess(x: real, y: real, n: real)
    requires n > 0.0 && x < y
    ensures x * n < y * n
  {
  }

  lemma MulCancel(x: real, y: real, n: real)
    requires n > 0.0 && x * n <= y * n
    ensures x <= y
  {
  }

  lemma MulNonnegative(x: real, y: real)
    requires x >= 0.0 && y >= 0.0
    ensures x * y >= 0.0
  {
  }
}
