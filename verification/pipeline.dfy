/**
 The mixture-property calculation end to end: the phase split, gas and oil properties,
 mixture density, mixture viscosity and mixture rate computed in the source's order from a
 validated request, the response built from them and validated, and the service boundary
 that validates the request first.
 */
module Pipeline {
  import opened Schema
  import opened Results
  import opened Transcendental
  import opened Mixing
  import opened Units
  import opened Flow
  import opened Density
  import opened Viscosity

  /** The quantities one calculation computes, under the names of the phases they describe. */
  datatype Trace = Trace(
    vOil: real,
    vGas: real,
    gf: real,
    bG: real,
    roGas: real,
    rS: real,
    bOil: real,
    roOil: real,
    roLiq: real,
    roMix: real,
    muMix: real,
    vMix: real)

  /** One calculation on a validated request. It raises only in the correlations: a zero
      power of ten or a zero oil formation volume factor divides by zero, and the
      low-temperature viscosity branch takes logarithms. Every mixing step is a convex
      combination, so each mixture property lies between the properties it mixes. */
  function Evaluate(m: Math, x: PvtRequest): (r: Result<Trace>)
    requires ValidRequest(x)
    ensures r.Fail? ==> r.error == ZeroDivision || r.error == MathDomain
    ensures x.T <= 273.15 - 32.0 / 1.8 ==> r.Fail?
    ensures r.Ok? ==> 0.0 <= r.value.vOil <= x.QLiq
    ensures r.Ok? ==> r.value.vGas >= r.value.vOil
    ensures r.Ok? ==> 0.0 <= r.value.gf < 1.0
    ensures r.Ok? ==> (r.value.gf == 0.0 <==> x.Wct == 1.0)
    ensures r.Ok? ==> r.value.vMix >= x.QLiq
    ensures r.Ok? ==> r.value.bG > 0.0 && r.value.roGas > 0.0
    ensures r.Ok? ==> Between(r.value.roLiq, r.value.roOil, WaterDensity)
    ensures r.Ok? ==> Between(r.value.roMix, r.value.roLiq, r.value.roGas)
  {
    var vOil := OilRate(x.QLiq, x.Wct);
    var vGas := GasRate(vOil, x.Rp);
    var gf := GasFraction(vGas, x.QLiq);
    var bG := GasVolumeFactor(x.T, x.P);
    var roGas := GasDensity(x.GammaGas, bG);
    var rS :- SolutionGasRatio(m, x.GammaGas, x.GammaOil, x.T, x.P);
    var bOil := OilVolumeFactor(m, x.GammaGas, x.GammaOil, rS, x.T);
    var roOil :- OilDensity(x.GammaGas, x.GammaOil, rS, bOil);
    var roLiq := LiquidDensity(roOil, x.Wct);
    var roMix := MixtureDensity(roLiq, roGas, gf);
    var muMix :- MixtureViscosity(m, gf, x.GammaGas, x.GammaOil, roGas, x.Wct, x.T, rS);
    var vMix := MixtureRate(x.QLiq, vGas);
    Ok(Trace(vOil, vGas, gf, bG, roGas, rS, bOil, roOil, roLiq, roMix, muMix, vMix))
  }

  function ResponseOf(t: Trace): PvtResponse {
    PvtResponse(QMix := t.vMix, RhoMix := t.roMix, MuMix := t.muMix)
  }

  /** The calculation as the controller performs it: compute, then validate the response.
      A returned response always satisfies the response schema. */
  function CalculatePvtData(m: Math, x: PvtRequest): (r: Result<PvtResponse>)
    requires ValidRequest(x)
    ensures r.Ok? ==> ValidResponse(r.value)
    ensures r.Ok? <==> Evaluate(m, x).Ok? && ValidResponse(ResponseOf(Evaluate(m, x).value))
    ensures r.Fail? && r.error.ResponseInvalid? ==> r.error.responseFields != []
  {
    var t :- Evaluate(m, x);
    var y := ResponseOf(t);
    var errs := ResponseErrors(y);
    if errs == [] then Ok(y) else Fail(ResponseInvalid(errs))
  }

  /** The service boundary: an invalid request is rejected with every offending field and
      never reaches the calculation. */
  function Handle(m: Math, x: PvtRequest): (r: Result<PvtResponse>)
    ensures r.Fail? && r.error.RequestInvalid? <==> !ValidRequest(x)
    ensures !ValidRequest(x) ==> r.error.requestFields == RequestErrors(x)
    ensures r.Ok? ==> ValidRequest(x) && ValidResponse(r.value)
  {
    var errs := RequestErrors(x);
    if errs != [] then Fail(RequestInvalid(errs)) else CalculatePvtData(m, x)
  }

  /** With sound powers, every response the calculation produces passes response
      validation: the mixture rate, density and viscosity are all positive. */
  lemma ResponseAlwaysValid(m: Math, x: PvtRequest)
    requires Sound(m) && ValidRequest(x)
    requires Evaluate(m, x).Ok?
    ensures ValidResponse(ResponseOf(Evaluate(m, x).value))
    ensures CalculatePvtData(m, x) == Ok(ResponseOf(Evaluate(m, x).value))
  {
    var t := Evaluate(m, x).value;
    assert t.rS > 0.0;
    assert t.roOil > 0.0 by {
      Signs.DivPos(x.GammaGas, x.GammaOil);
      OilVolumeFactorBaseFahrenheit(m, x.GammaGas, x.GammaOil, t.rS, x.T);
    }
    assert t.roMix > 0.0;
    var tFar := FahrenheitOfKelvin(x.T);
    var api := ApiOfGamma(x.GammaOil);
    var rsBbl := BarrelScaleOfGasContent(t.rS);
    var muGas := GasViscosity(m, x.GammaGas, t.roGas, x.T);
    assert muGas > 0.0;
    assert OilViscosity(m, rsBbl, tFar, api).value > 0.0;
    assert LiquidViscosity(m, x.Wct, api, rsBbl, tFar).value > 0.0;
    assert t.muMix > 0.0;
  }

  /** Above 70 F the calculation always returns a valid response when powers are sound. */
  lemma WarmRequestsSucceed(m: Math, x: PvtRequest)
    requires Sound(m) && ValidRequest(x)
    requires x.T > 273.15 + 38.0 / 1.8
    ensures CalculatePvtData(m, x).Ok?
  {
    var t := Evaluate(m, x);
    assert t.Ok? by {
      var rS := SolutionGasRatio(m, x.GammaGas, x.GammaOil, x.T, x.P).value;
      Signs.DivPos(x.GammaGas, x.GammaOil);
      OilVolumeFactorBaseFahrenheit(m, x.GammaGas, x.GammaOil, rS, x.T);
    }
    ResponseAlwaysValid(m, x);
  }

  /** With sound powers and the laws of logarithms, the calculation returns exactly when
      the temperature is above 0 F (about 255.37 K). At or below it the low-temperature
      viscosity fit takes the logarithm of a non-positive temperature and raises, unless a
      zero oil formation volume factor has raised first. */
  lemma CalculationDomain(m: Math, x: PvtRequest)
    requires Sound(m) && LogLaws(m) && ValidRequest(x)
    ensures CalculatePvtData(m, x).Ok? <==> FahrenheitOfKelvin(x.T) > 0.0
    ensures CalculatePvtData(m, x).Fail? ==>
              CalculatePvtData(m, x).error == MathDomain || CalculatePvtData(m, x).error == ZeroDivision
  {
    var tFar := FahrenheitOfKelvin(x.T);
    if tFar > 0.0 {
      var rS := SolutionGasRatio(m, x.GammaGas, x.GammaOil, x.T, x.P).value;
      Signs.DivPos(x.GammaGas, x.GammaOil);
      OilVolumeFactorBaseFahrenheit(m, x.GammaGas, x.GammaOil, rS, x.T);
      OilViscosityDomain(m, BarrelScaleOfGasContent(rS), tFar, ApiOfGamma(x.GammaOil));
      ResponseAlwaysValid(m, x);
    }
  }

  /** A stream of water only carries no oil and no gas: the response is the liquid rate,
      the density of water and the viscosity of water, whatever the correlations give. */
  lemma AllWaterStream(m: Math, x: PvtRequest)
    requires ValidRequest(x) && x.Wct == 1.0
    ensures Evaluate(m, x).Ok? ==> Evaluate(m, x).value.gf == 0.0
    ensures Evaluate(m, x).Ok? ==>
              CalculatePvtData(m, x) == Ok(PvtResponse(x.QLiq, WaterDensity, WaterViscosity))
  {
  }

  /** The water relative density is validated but takes no part in the calculation: two
      requests that differ only in it get the same answer. */
  lemma WaterGravityIgnored(m: Math, x: PvtRequest, g: real)
    requires x.GammaWat > 0.0 && g > 0.0
    ensures Handle(m, x.(GammaWat := g)) == Handle(m, x)
  {
    var y := x.(GammaWat := g);
    assert ValidRequest(y) <==> ValidRequest(x);
    if ValidRequest(x) {
      assert y.P == x.P && y.T == x.T && y.GammaOil == x.GammaOil && y.GammaGas == x.GammaGas;
      assert y.Wct == x.Wct && y.Rp == x.Rp && y.QLiq == x.QLiq;
      assert Evaluate(m, y) == Evaluate(m, x);
    } else {
      SameVerdicts(RequestFields, f => Accepts(y, f), f => Accepts(x, f));
    }
  }

  /** The sample request: 45 m3 of oil and 45 m3 of water, 4500 m3 of free gas, so the gas
      fraction is 50/51 and the mixture rate 4590 m3. At 296 K (73.13 F) the live-oil branch
      applies and the calculation returns. */
  lemma ExampleRequest(m: Math)
    requires Sound(m)
    ensures Evaluate(m, Example).Ok?
    ensures Evaluate(m, Example).value.vOil == 45.0
    ensures Evaluate(m, Example).value.vGas == 4500.0
    ensures Evaluate(m, Example).value.gf == 50.0 / 51.0
    ensures CalculatePvtData(m, Example).Ok? && CalculatePvtData(m, Example).value.QMix == 4590.0
  {
    assert ValidRequest(Example) by { RequestBoundaries(); }
    assert FahrenheitOfKelvin(Example.T) > 70.0;
    WarmRequestsSucceed(m, Example);
    var t := Evaluate(m, Example).value;
    assert t.vOil == OilRate(90.0, 0.5) == 45.0;
    assert t.vGas == GasRate(45.0, 100) == 4500.0;
    assert t.gf == GasFraction(4500.0, 90.0) == 50.0 / 51.0;
    assert t.vMix == MixtureRate(90.0, 4500.0) == 4590.0;
    ResponseAlwaysValid(m, Example);
  }

  /** The oil viscosity a calculation uses, at the converted temperature, gas content and
      API gravity. */
  function OilViscosityOf(m: Math, x: PvtRequest, t: Trace): real
    requires ValidRequest(x)
  {
    var r := OilViscosity(m, BarrelScaleOfGasContent(t.rS), FahrenheitOfKelvin(x.T), ApiOfGamma(x.GammaOil));
    if r.Ok? then r.value else 0.0
  }

  /** How the calculation mixes a property over a stream of liquid rate `qLiq`, water cut
      `wct` and gas-oil ratio `gor`: oil (`a`) with water (`w`) by water cut, then the
      liquid with gas (`g`) by the stream's gas fraction. */
  function StreamBlend(qLiq: real, wct: real, gor: int, a: real, w: real, g: real): real
    requires qLiq > 0.0 && 0.0 <= wct <= 1.0 && gor > 0
  {
    Blend(Blend(a, w, wct), g, GasFraction(GasRate(OilRate(qLiq, wct), gor), qLiq))
  }

  /** Every returned calculation mixes density and viscosity over the request's stream, with
      the phase properties of the correlations. */
  lemma EvaluateBlends(m: Math, x: PvtRequest)
    requires ValidRequest(x)
    ensures Evaluate(m, x).Ok? ==>
              var t := Evaluate(m, x).value;
              && t.roMix == StreamBlend(x.QLiq, x.Wct, x.Rp, t.roOil, WaterDensity, t.roGas)
              && t.muMix == StreamBlend(x.QLiq, x.Wct, x.Rp, OilViscosityOf(m, x, t), WaterViscosity,
                                        GasViscosity(m, x.GammaGas, t.roGas, x.T))
  {
    if Evaluate(m, x).Ok? {
      var t := Evaluate(m, x).value;
      MixtureViscosityOfPhases(m, t.gf, x.GammaGas, x.GammaOil, t.roGas, x.Wct, x.T, t.rS);
    }
  }

  /** The offset from the water property carried by one unit of oil with property `a`
      together with the `gor` units of gas, property `g`, that come with it. */
  function CarriedOffset(a: real, w: real, g: real, gor: int): real {
    (a - w) + gor as real * (g - w)
  }

  /** A stream's mixture property, as an offset from the water property: the oil share of
      the mixture times the offset carried by one unit of oil and its gas. */
  lemma StreamBlendOffset(qLiq: real, wct: real, gor: int, a: real, w: real, g: real)
    requires qLiq > 0.0 && 0.0 <= wct <= 1.0 && gor > 0
    ensures StreamBlend(qLiq, wct, gor, a, w, g) - w == OilShare(wct, gor) * CarriedOffset(a, w, g, gor)
  {
    PhaseWeights(qLiq, wct, gor);
    BlendOfBlendByShare(a, w, g, wct, GasFraction(GasRate(OilRate(qLiq, wct), gor), qLiq),
                        OilShare(wct, gor), gor as real);
  }

  /** Raising a stream's water cut, all else fixed, never moves its mixture property away
      from the water property. */
  lemma StreamBlendTowardWater(qLiq: real, w1: real, w2: real, gor: int, a: real, w: real, g: real)
    requires qLiq > 0.0 && 0.0 <= w1 <= w2 <= 1.0 && gor > 0
    ensures Abs(StreamBlend(qLiq, w2, gor, a, w, g) - w) <= Abs(StreamBlend(qLiq, w1, gor, a, w, g) - w)
  {
    StreamBlendOffset(qLiq, w1, gor, a, w, g);
    StreamBlendOffset(qLiq, w2, gor, a, w, g);
    OilShareDecreasing(w1, w2, gor);
    CloserByShare(StreamBlend(qLiq, w1, gor, a, w, g), StreamBlend(qLiq, w2, gor, a, w, g), w,
                  OilShare(w1, gor), OilShare(w2, gor), CarriedOffset(a, w, g, gor));
  }

  /** The water cut enters neither the correlations nor the decision whether they return. */
  lemma WaterCutLeavesCorrelations(m: Math, x: PvtRequest, w: real)
    requires ValidRequest(x) && 0.0 <= w <= 1.0
    ensures ValidRequest(x.(Wct := w))
    ensures Evaluate(m, x.(Wct := w)).Ok? <==> Evaluate(m, x).Ok?
    ensures Evaluate(m, x).Ok? ==>
              var tx, ty := Evaluate(m, x).value, Evaluate(m, x.(Wct := w)).value;
              && ty.rS == tx.rS && ty.roOil == tx.roOil && ty.roGas == tx.roGas
              && OilViscosityOf(m, x.(Wct := w), ty) == OilViscosityOf(m, x, tx)
  {
  }

  /** Raising the water cut, all else fixed, never moves the mixture density away from the
      density of water or the mixture viscosity away from the viscosity of water. The water
      cut does not decide whether the calculation returns. */
  lemma WaterCutMovesTowardWater(m: Math, x: PvtRequest, w: real)
    requires ValidRequest(x) && x.Wct <= w <= 1.0
    ensures ValidRequest(x.(Wct := w))
    ensures Evaluate(m, x.(Wct := w)).Ok? <==> Evaluate(m, x).Ok?
    ensures Evaluate(m, x).Ok? ==>
              Abs(Evaluate(m, x.(Wct := w)).value.roMix - WaterDensity)
              <= Abs(Evaluate(m, x).value.roMix - WaterDensity)
    ensures Evaluate(m, x).Ok? ==>
              Abs(Evaluate(m, x.(Wct := w)).value.muMix - WaterViscosity)
              <= Abs(Evaluate(m, x).value.muMix - WaterViscosity)
  {
    var y := x.(Wct := w);
    WaterCutLeavesCorrelations(m, x, w);
    if Evaluate(m, x).Ok? {
      var tx := Evaluate(m, x).value;
      var muOil, muGas := OilViscosityOf(m, x, tx), GasViscosity(m, x.GammaGas, tx.roGas, x.T);
      EvaluateBlends(m, x);
      EvaluateBlends(m, y);
      StreamBlendTowardWater(x.QLiq, x.Wct, w, x.Rp, tx.roOil, WaterDensity, tx.roGas);
      StreamBlendTowardWater(x.QLiq, x.Wct, w, x.Rp, muOil, WaterViscosity, muGas);
    }
  }
}
