/**
 The phase split of the produced stream and the mixture flow rate: the oil rate from the
 liquid rate and the water cut, the free-gas rate from the oil rate and the producing
 gas-oil ratio, the gas volume fraction of the mixture, and the mixture rate itself.
 */
module Flow {
  import Signs

  /** Oil rate: the part of the liquid rate that is not water. */
  function OilRate(qLiq: real, wct: real): (vOil: real)
    ensures qLiq >= 0.0 && 0.0 <= wct <= 1.0 ==> 0.0 <= vOil <= qLiq
    ensures wct == 0.0 ==> vOil == qLiq
    ensures qLiq != 0.0 ==> (vOil == 0.0 <==> wct == 1.0)
  {
    qLiq * (1.0 - wct)
  }

  /** Gas rate: the oil rate times the integer gas-oil ratio. */
  function GasRate(vOil: real, gor: int): (vGas: real)
    ensures vOil >= 0.0 && gor >= 0 ==> vGas >= 0.0
    ensures vOil >= 0.0 && gor >= 1 ==> vGas >= vOil
    ensures gor >= 1 ==> (vGas == 0.0 <==> vOil == 0.0)
  {
    vOil * gor as real
  }

  /** Gas volume fraction of the mixture of liquid and free gas. Dividing by a zero total
      raises in the source, hence the precondition. */
  function GasFraction(vGas: real, vLiq: real): (gf: real)
    requires vLiq + vGas != 0.0
    ensures vLiq > 0.0 && vGas >= 0.0 ==> 0.0 <= gf < 1.0
    ensures gf == 0.0 <==> vGas == 0.0
  {
    vGas / (vLiq + vGas)
  }

  /** Mixture flow rate: liquid and free gas together. */
  function MixtureRate(vLiq: real, vGas: real): (qMix: real)
    ensures vGas >= 0.0 ==> qMix >= vLiq
    ensures vLiq > 0.0 && vGas >= 0.0 ==> qMix > 0.0
  {
    vLiq + vGas
  }

  /** The gas fraction and the mixture rate agree: the gas fraction's share of the mixture
      rate is the gas rate, and the rest is the liquid rate. */
  lemma GasShareOfMixture(vGas: real, vLiq: real)
    requires vLiq + vGas != 0.0
    ensures GasFraction(vGas, vLiq) * MixtureRate(vLiq, vGas) == vGas
    ensures (1.0 - GasFraction(vGas, vLiq)) * MixtureRate(vLiq, vGas) == vLiq
  {
  }

  /** The gas rate can be recovered from the gas fraction and the liquid rate. */
  lemma GasRateFromFraction(vGas: real, vLiq: real)
    requires vLiq > 0.0 && vGas >= 0.0
    ensures GasFraction(vGas, vLiq) < 1.0
    ensures vGas == vLiq * GasFraction(vGas, vLiq) / (1.0 - GasFraction(vGas, vLiq))
  {
    var gf := GasFraction(vGas, vLiq);
    assert (1.0 - gf) * (vLiq + vGas) == vLiq;
    assert gf * (vLiq + vGas) == vGas;
  }

  /** More free gas at the same liquid rate means a larger gas fraction. */
  lemma GasFractionIncreasing(vLiq: real, g1: real, g2: real)
    requires vLiq > 0.0 && 0.0 <= g1 < g2
    ensures GasFraction(g1, vLiq) < GasFraction(g2, vLiq)
  {
    // The liquid share 1 - gf = vLiq / (vLiq + g) falls as g grows.
    var l1, l2 := 1.0 - GasFraction(g1, vLiq), 1.0 - GasFraction(g2, vLiq);
    assert l1 * (vLiq + g1) == vLiq;
    assert l2 * (vLiq + g2) == vLiq;
    assert l2 > 0.0;
    Signs.MulPos(l2, g2 - g1);
    assert l2 * (vLiq + g1) < vLiq;
    assert (l1 - l2) * (vLiq + g1) > 0.0;
    Signs.PositiveCofactor(l1 - l2, vLiq + g1);
    assert l1 > l2;
  }

  /** The oil rate's share of the mixture rate. Each unit of oil brings `gor` units of free
      gas, so the share is (1 - wct) / (1 + (1 - wct) gor) whatever the liquid rate
      (`OilShareOfMixture`). */
  function OilShare(wct: real, gor: int): (s: real)
    requires 0.0 <= wct <= 1.0 && gor > 0
    ensures s * (1.0 + (1.0 - wct) * gor as real) == 1.0 - wct
    ensures 0.0 <= s <= 1.0
  {
    var u := 1.0 - wct;
    var d := 1.0 + u * gor as real;
    Signs.MulNonNegative(u, gor as real);
    assert u / d * d == u;
    FractionBound(u, d);
    u / d
  }

  lemma FractionBound(a: real, b: real)
    requires 0.0 <= a <= b && b > 0.0
    ensures 0.0 <= a / b <= 1.0
  {
  }

  /** Cancelling a positive factor. */
  lemma CancelPositive(a: real, b: real, q: real)
    requires q > 0.0 && a * q == b * q
    ensures a == b
  {
    assert (a - b) * q == 0.0;
  }

  /** The mixture rate of a stream is its liquid rate times 1 + (1 - wct) gor. */
  lemma MixtureRateOfStream(qLiq: real, wct: real, gor: int)
    ensures MixtureRate(qLiq, GasRate(OilRate(qLiq, wct), gor)) == qLiq * (1.0 + (1.0 - wct) * gor as real)
    ensures GasRate(OilRate(qLiq, wct), gor) == qLiq * ((1.0 - wct) * gor as real)
  {
  }

  /** The oil share times the mixture rate of any stream with that water cut and gas-oil
      ratio is the stream's oil rate. */
  lemma OilShareOfMixture(qLiq: real, wct: real, gor: int)
    requires qLiq > 0.0 && 0.0 <= wct <= 1.0 && gor > 0
    ensures OilShare(wct, gor) * MixtureRate(qLiq, GasRate(OilRate(qLiq, wct), gor)) == OilRate(qLiq, wct)
  {
    var s, d := OilShare(wct, gor), 1.0 + (1.0 - wct) * gor as real;
    MixtureRateOfStream(qLiq, wct, gor);
    assert s * (qLiq * d) == qLiq * (s * d);
  }

  /** In terms of the oil share, the liquid's weight in the mixture after water is blended
      in is (1 - wct) (1 - gf) and the gas fraction is gor times the oil share. */
  lemma PhaseWeights(qLiq: real, wct: real, gor: int)
    requires qLiq > 0.0 && 0.0 <= wct <= 1.0 && gor > 0
    ensures var gf := GasFraction(GasRate(OilRate(qLiq, wct), gor), qLiq);
            && (1.0 - wct) * (1.0 - gf) == OilShare(wct, gor)
            && gf == gor as real * OilShare(wct, gor)
  {
    var u, r := 1.0 - wct, gor as real;
    var d := 1.0 + u * r;
    var vGas := GasRate(OilRate(qLiq, wct), gor);
    Signs.MulNonNegative(u, r);
    MixtureRateOfStream(qLiq, wct, gor);
    GasShareOfMixture(vGas, qLiq);
    WeightsOfShare(qLiq, u, r, GasFraction(vGas, qLiq), OilShare(wct, gor));
  }

  /** The arithmetic behind `PhaseWeights`, over plain reals: a gas fraction whose share of
      the mixture rate qLiq (1 + u r) is the gas rate qLiq u r, and a share s with
      s (1 + u r) == u. */
  lemma WeightsOfShare(qLiq: real, u: real, r: real, gf: real, s: real)
    requires qLiq > 0.0 && 1.0 + u * r > 0.0
    requires gf * (qLiq * (1.0 + u * r)) == qLiq * (u * r)
    requires (1.0 - gf) * (qLiq * (1.0 + u * r)) == qLiq
    requires s * (1.0 + u * r) == u
    ensures u * (1.0 - gf) == s && gf == r * s
  {
    var d := 1.0 + u * r;
    assert (gf * d) * qLiq == (u * r) * qLiq;
    CancelPositive(gf * d, u * r, qLiq);
    assert ((1.0 - gf) * d) * qLiq == 1.0 * qLiq;
    CancelPositive((1.0 - gf) * d, 1.0, qLiq);
    assert (r * s) * d == r * (s * d);
    CancelPositive(gf, r * s, d);
    assert (u * (1.0 - gf)) * d == u * ((1.0 - gf) * d);
    CancelPositive(u * (1.0 - gf), s, d);
  }

  /** A higher water cut lowers the oil share of the mixture. */
  lemma OilShareDecreasing(w1: real, w2: real, gor: int)
    requires 0.0 <= w1 <= w2 <= 1.0 && gor > 0
    ensures OilShare(w2, gor) <= OilShare(w1, gor)
  {
    ShareOrder(OilShare(w1, gor), OilShare(w2, gor), 1.0 - w1, 1.0 - w2, gor as real);
  }

  /** u / (1 + u r) grows with u. */
  lemma ShareOrder(s1: real, s2: real, u1: real, u2: real, r: real)
    requires u1 >= u2 >= 0.0 && r > 0.0
    requires s1 * (1.0 + u1 * r) == u1 && s2 * (1.0 + u2 * r) == u2
    ensures s2 <= s1
  {
    var d1, d2 := 1.0 + u1 * r, 1.0 + u2 * r;
    var p := d1 * d2;
    // (s1 - s2) d1 d2 = u1 d2 - u2 d1 = u1 - u2
    assert s1 * p == u1 * d2;
    assert s2 * p == u2 * d1;
    assert (s1 - s2) * p == s1 * p - s2 * p;
    assert u1 * d2 - u2 * d1 == u1 - u2;
    Signs.MulPos(d1, d2);
    Signs.NonNegativeCofactor(s1 - s2, p);
  }
}
