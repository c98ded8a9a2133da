/** Sign facts about real products and quotients that the solver does not find unaided.
    They are stated as implications so that a function body can use them unconditionally. */
module Signs {

  lemma MulPos(a: real, b: real)
    ensures a > 0.0 && b > 0.0 ==> a * b > 0.0
  {
  }

  lemma DivPos(a: real, b: real)
    ensures a > 0.0 && b > 0.0 ==> a / b > 0.0
  {
  }

  /** A product is positive with a positive factor only if the other factor is positive. */
  lemma PositiveCofactor(a: real, b: real)
    ensures a * b > 0.0 && b > 0.0 ==> a > 0.0
  {
  }

  /** A product is non-negative with a positive factor only if the other factor is. */
  lemma NonNegativeCofactor(a: real, b: real)
    ensures a * b >= 0.0 && b > 0.0 ==> a >= 0.0
  {
  }

  lemma MulNonNegative(a: real, b: real)
    ensures a >= 0.0 && b >= 0.0 ==> a * b >= 0.0
  {
  }
}
