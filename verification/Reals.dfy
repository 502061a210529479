/** Small facts of real arithmetic, each proved on bare variables so that larger proofs can name the
    product they need. */
module Reals {
  lemma MulSign(a: real, b: real)
    requires a >= 0.0 && b >= 0.0
    ensures a * b >= 0.0
  {}
  lemma MulMono(a: real, b: real, c: real)
    requires a <= b && c >= 0.0
    ensures a * c <= b * c
  {}
  lemma MulStrict(a: real, b: real, c: real)
    requires a < b && c > 0.0
    ensures a * c < b * c
  {}
  lemma DivMul(a: real, b: real)
    requires b != 0.0
    ensures a / b * b == a
  {}
  lemma DivMono(a: real, b: real, c: real)
    requires a <= b && c > 0.0
    ensures a / c <= b / c
  {}

  lemma Distribute(a: real, b: real, c: real)
    ensures a * (b + c) == a * b + a * c
  {
  }

  /** A quotient caught between two bounds, multiplied back. */
  lemma Bracket(lo: real, hi: real, total: real, unit: real)
    requires unit > 0.0 && lo <= total / unit < hi
    ensures lo * unit <= total < hi * unit
  {
    DivMul(total, unit);
    MulMono(lo, total / unit, unit);
    MulStrict(total / unit, hi, unit);
  }
}
