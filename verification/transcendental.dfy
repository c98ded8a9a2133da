/**
 The transcendental primitives the correlations are built from: real powers (`**` with a
 real exponent), the natural exponential and the decimal logarithm. They are not computed
 here. A calculation is parameterised by a `Math` record that supplies them, and the facts
 a property needs about them are stated as named hypotheses on that record: `Sound` for
 signs, `LogLaws` for the algebra of logarithms. Real arithmetic satisfies both.
 */
module Transcendental {
  import opened Results

  /** `pow(b, e)` is `b ** e`, `exp(x)` is `math.exp(x)`, `log10(x)` is `math.log10(x)`
      on the part of its domain where the source does not raise. */
  datatype Math = Math(pow: (real, real) -> real, exp: real -> real, log10: real -> real)

  /** The sign facts of real powers and of the exponential. */
  ghost predicate Sound(m: Math) {
    && (forall b, e :: b > 0.0 ==> m.pow(b, e) > 0.0)
    && (forall e :: e > 0.0 ==> m.pow(0.0, e) == 0.0)
    && (forall b, e :: b > 1.0 && e > 0.0 ==> m.pow(b, e) > 1.0)
    && (forall x :: m.exp(x) > 0.0)
  }

  /** log10(x * y) = log10(x) + log10(y) for positive x and y. */
  predicate ProductLaw(m: Math, x: real, y: real) {
    x > 0.0 && y > 0.0 ==> m.log10(x * y) == m.log10(x) + m.log10(y)
  }

  /** log10(x ** c) = c * log10(x) for positive x. */
  predicate PowerLaw(m: Math, x: real, c: real) {
    x > 0.0 ==> m.log10(m.pow(x, c)) == c * m.log10(x)
  }

  /** 10 ** log10(y) = y for positive y. */
  predicate InverseLaw(m: Math, y: real) {
    y > 0.0 ==> m.pow(10.0, m.log10(y)) == y
  }

  /** The algebra of the decimal logarithm that the two-point power-law fit relies on. */
  ghost predicate LogLaws(m: Math) {
    && (forall x, y {:trigger ProductLaw(m, x, y)} :: ProductLaw(m, x, y))
    && (forall x, c {:trigger PowerLaw(m, x, c)} :: PowerLaw(m, x, c))
    && (forall y {:trigger InverseLaw(m, y)} :: InverseLaw(m, y))
  }

  /** `math.log10` as the source calls it: raises on a non-positive argument. When it
      returns, the result is the exponent of 10 that gives back the argument. */
  function Log10(m: Math, x: real): (r: Result<real>)
    ensures r.Ok? <==> x > 0.0
    ensures r.Fail? ==> r.error == MathDomain
    ensures LogLaws(m) && r.Ok? ==> m.pow(10.0, r.value) == x
  {
    if x > 0.0 then
      assert LogLaws(m) ==> InverseLaw(m, x);
      Ok(m.log10(x))
    else
      Fail(MathDomain)
  }

  lemma LogOfOne(m: Math)
    requires LogLaws(m)
    ensures m.log10(1.0) == 0.0
  {
    assert ProductLaw(m, 1.0, 1.0);
  }

  lemma LogProduct(m: Math, x: real, y: real)
    requires LogLaws(m)
    requires x > 0.0 && y > 0.0
    ensures m.log10(x * y) == m.log10(x) + m.log10(y)
  {
    assert ProductLaw(m, x, y);
  }

  lemma LogPower(m: Math, x: real, c: real)
    requires LogLaws(m)
    requires x > 0.0
    ensures m.log10(m.pow(x, c)) == c * m.log10(x)
  {
    assert PowerLaw(m, x, c);
  }

  lemma PowOfLog(m: Math, y: real)
    requires LogLaws(m)
    requires y > 0.0
    ensures m.pow(10.0, m.log10(y)) == y
  {
    assert InverseLaw(m, y);
  }

  /** log10(x / y) = log10(x) - log10(y) for positive x and y. */
  lemma LogQuotient(m: Math, x: real, y: real)
    requires LogLaws(m)
    requires x > 0.0 && y > 0.0
    ensures m.log10(x / y) == m.log10(x) - m.log10(y)
  {
    var q := x / y;
    assert q > 0.0 && q * y == x;
    LogProduct(m, q, y);
  }

  /** The decimal logarithm vanishes only at 1. */
  lemma LogZeroOnlyAtOne(m: Math, x: real)
    requires LogLaws(m)
    requires x > 0.0 && x != 1.0
    ensures m.log10(x) != 0.0
  {
    LogOfOne(m);
    assert InverseLaw(m, x);
    assert InverseLaw(m, 1.0);
  }
}
