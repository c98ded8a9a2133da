/**
 Gas, oil, liquid and mixture viscosities. Gas viscosity follows Lee's correlation; dead
 oil viscosity and live oil viscosity follow Beggs-Robinson-type correlations, with a
 branch on the temperature in degrees Fahrenheit: above 70 F the live-oil correction is
 applied to the dead-oil viscosity at that temperature; at or below 70 F a power law
 through the dead-oil viscosities at 70 F and 80 F is used instead.
 */
module Viscosity {
  import opened Results
  import opened Transcendental
  import opened Mixing
  import opened Units
  import Signs

  /** Viscosity of water, cP. */
  const WaterViscosity: real := 1.0

  /** Gas viscosity (Lee) from the gas relative density, the gas density (kg/m3) and the
      temperature (K). The source divides by 1.8 T and by 122.4 + 373.6 gamma_gas + 1.8 T,
      hence the preconditions. */
  function GasViscosity(m: Math, gammaGas: real, roGas: real, t: real): (muGas: real)
    requires t != 0.0
    requires 122.4 + 373.6 * gammaGas + 1.8 * t != 0.0
    ensures Sound(m) && gammaGas > 0.0 && t > 0.0 ==> muGas > 0.0
  {
    var b := 2.57 + 1914.5 / (1.8 * t) + 0.275 * gammaGas;
    var prefactor := 0.0001 * (7.77 + 0.183 * gammaGas);
    var ratio := m.pow(1.8 * t, 1.5) / (122.4 + 373.6 * gammaGas + 1.8 * t);
    var growth := m.exp(b * m.pow(roGas / 1000.0, 1.11 + 0.04 * b));
    Signs.DivPos(m.pow(1.8 * t, 1.5), 122.4 + 373.6 * gammaGas + 1.8 * t);
    Signs.MulPos(prefactor, ratio);
    Signs.MulPos(prefactor * ratio, growth);
    prefactor * ratio * growth
  }

  /** Dead oil viscosity at `tFar` (F) for an oil of `api` degrees API. It is positive at
      every positive temperature when powers are sound, since its exponent is then positive. */
  function DeadOilViscosity(m: Math, tFar: real, api: real): (muDead: real)
    ensures Sound(m) && tFar > 0.0 ==> muDead > 0.0
  {
    var d := m.pow(tFar, -1.163) * m.pow(10.0, 3.0324 - 0.02023 * api);
    Signs.MulPos(m.pow(tFar, -1.163), m.pow(10.0, 3.0324 - 0.02023 * api));
    m.pow(10.0, d) - 1.0
  }

  /** The exponent c of the power law through (70, mu70) and (80, mu80):
      log10(mu70 / mu80) / log10(80 / 70). */
  function PowerLawExponent(m: Math, mu70: real, mu80: real): real
    requires mu80 != 0.0 && m.log10(80.0 / 70.0) != 0.0
  {
    m.log10(mu70 / mu80) / m.log10(80.0 / 70.0)
  }

  /** The coefficient b = 70 ** c * mu70 of the power law b * t ** -c. */
  function PowerLawCoefficient(m: Math, mu70: real, c: real): real {
    m.pow(70.0, c) * mu70
  }

  /** log10 of the power law b * t ** -c at `t`. */
  function LogOfPowerLaw(m: Math, b: real, c: real, t: real): real {
    m.log10(b) - c * m.log10(t)
  }

  /** The low-temperature branch: the power law mu = b * t ** -c through the points
      (70, mu70) and (80, mu80), evaluated at `tFar` through decimal logarithms. It raises
      whenever `tFar` is not positive, since log10(tFar) is taken. */
  function TwoPointPowerLaw(m: Math, mu70: real, mu80: real, tFar: real): (r: Result<real>)
    ensures tFar <= 0.0 ==> r.Fail?
    ensures Sound(m) && r.Ok? ==> r.value > 0.0
  {
    // Each logarithm the fit takes raises on a non-positive argument.
    var ratio :- Div(mu70, mu80);
    var _ :- Log10(m, ratio);
    if m.log10(80.0 / 70.0) == 0.0 then Fail(ZeroDivision)
    else
      var c := PowerLawExponent(m, mu70, mu80);
      var b := PowerLawCoefficient(m, mu70, c);
      var _ :- Log10(m, b);
      var _ :- Log10(m, tFar);
      Ok(m.pow(10.0, LogOfPowerLaw(m, b, c, tFar)))
  }

  /** Oil viscosity at `tFar` (F) for a solution gas-oil ratio `rs` on the ft3/bbl scale
      and an oil of `api` degrees API. Above 70 F it always returns; at or below 0 F it
      always raises; with sound powers and a non-negative `rs` every result is positive. */
  function OilViscosity(m: Math, rs: real, tFar: real, api: real): (r: Result<real>)
    ensures tFar > 70.0 ==> r.Ok?
    ensures tFar <= 0.0 ==> r.Fail?
    ensures Sound(m) && rs >= 0.0 && r.Ok? ==> r.value > 0.0
  {
    if tFar > 70.0 then
      var muDead := DeadOilViscosity(m, tFar, api);
      var a := 10.715 * m.pow(rs + 100.0, -0.515);
      var e := m.pow(muDead, 5.44 * m.pow(rs + 150.0, -0.338));
      Signs.MulPos(a, e);
      Ok(a * e)
    else
      TwoPointPowerLaw(m, DeadOilViscosity(m, 70.0, api), DeadOilViscosity(m, 80.0, api), tFar)
  }

  /** Liquid viscosity: oil blended with water by water cut. It exists exactly when the oil
      viscosity does, lies between the two, and is water's at a water cut of 1. */
  function LiquidViscosity(m: Math, wct: real, api: real, rs: real, tFar: real): (r: Result<real>)
    ensures r.Ok? <==> OilViscosity(m, rs, tFar, api).Ok?
    ensures r.Fail? ==> r.error == OilViscosity(m, rs, tFar, api).error
    ensures r.Ok? && 0.0 <= wct <= 1.0 ==>
              Between(r.value, OilViscosity(m, rs, tFar, api).value, WaterViscosity)
    ensures r.Ok? && wct == 0.0 ==> r.value == OilViscosity(m, rs, tFar, api).value
    ensures r.Ok? && wct == 1.0 ==> r.value == WaterViscosity
  {
    var muOil :- OilViscosity(m, rs, tFar, api);
    Ok(Blend(muOil, WaterViscosity, wct))
  }

  /** Mixture viscosity from gas fraction `gf`, the relative densities, gas density, water
      cut, temperature (K) and solution gas-oil ratio (m3/m3). Before the correlations run,
      the temperature is converted to Fahrenheit, the gas-oil ratio to the ft3/bbl scale and
      the oil relative density to API degrees; the converted values take the place of the
      originals in every call that follows. The result lies between the gas and the liquid
      viscosity; it always exists above 70 F and never at or below 0 F. */
  function MixtureViscosity(m: Math, gf: real, gammaGas: real, gammaOil: real, roGas: real,
                            wct: real, t: real, rs: real): (r: Result<real>)
    requires t != 0.0
    requires 122.4 + 373.6 * gammaGas + 1.8 * t != 0.0
    requires gammaOil != 0.0
    ensures r.Ok? <==> LiquidViscosity(m, wct, ApiOfGamma(gammaOil), BarrelScaleOfGasContent(rs),
                                       FahrenheitOfKelvin(t)).Ok?
    ensures r.Ok? && 0.0 <= gf <= 1.0 ==>
              Between(r.value, GasViscosity(m, gammaGas, roGas, t),
                      LiquidViscosity(m, wct, ApiOfGamma(gammaOil), BarrelScaleOfGasContent(rs),
                                      FahrenheitOfKelvin(t)).value)
    ensures r.Ok? && gf == 0.0 && wct == 1.0 ==> r.value == WaterViscosity
    ensures t > 273.15 + 38.0 / 1.8 ==> r.Ok?
    ensures t <= 273.15 - 32.0 / 1.8 ==> r.Fail?
  {
    var tFar := FahrenheitOfKelvin(t);
    var rsBbl := BarrelScaleOfGasContent(rs);
    var api := ApiOfGamma(gammaOil);
    var muGas := GasViscosity(m, gammaGas, roGas, t);
    var muLiq :- LiquidViscosity(m, wct, api, rsBbl, tFar);
    Ok(Blend(muLiq, muGas, gf))
  }

  /** The mixture viscosity in terms of the oil and gas viscosities: oil is blended with
      water by water cut, and the liquid with gas by gas fraction. */
  lemma MixtureViscosityOfPhases(m: Math, gf: real, gammaGas: real, gammaOil: real, roGas: real,
                                 wct: real, t: real, rs: real)
    requires t != 0.0
    requires 122.4 + 373.6 * gammaGas + 1.8 * t != 0.0
    requires gammaOil != 0.0
    ensures MixtureViscosity(m, gf, gammaGas, gammaOil, roGas, wct, t, rs).Ok? ==>
              MixtureViscosity(m, gf, gammaGas, gammaOil, roGas, wct, t, rs).value
              == Blend(Blend(OilViscosity(m, BarrelScaleOfGasContent(rs), FahrenheitOfKelvin(t),
                                          ApiOfGamma(gammaOil)).value, WaterViscosity, wct),
                       GasViscosity(m, gammaGas, roGas, t), gf)
  {
  }

  /** The straight line in log-log space through (log10 70, log10 mu70) with slope -c. */
  function LogLine(m: Math, mu70: real, c: real, t: real): real {
    m.log10(mu70) - c * (m.log10(t) - m.log10(70.0))
  }

  /** For positive reference viscosities and a positive temperature the fit returns, its
      exponent c = log10(mu70 / mu80) / log10(8 / 7) is well defined, and its logarithm lies
      on the straight log-log line through (70, mu70) with slope -c. */
  lemma TwoPointPowerLawValue(m: Math, mu70: real, mu80: real, tFar: real)
    requires Sound(m) && LogLaws(m)
    requires mu70 > 0.0 && mu80 > 0.0 && tFar > 0.0
    ensures m.log10(80.0 / 70.0) != 0.0
    ensures TwoPointPowerLaw(m, mu70, mu80, tFar).Ok?
    ensures TwoPointPowerLaw(m, mu70, mu80, tFar).value
            == m.pow(10.0, LogLine(m, mu70, PowerLawExponent(m, mu70, mu80), tFar))
  {
    LogZeroOnlyAtOne(m, 80.0 / 70.0);
    Signs.DivPos(mu70, mu80);
    var c := PowerLawExponent(m, mu70, mu80);
    var p70 := m.pow(70.0, c);
    Signs.MulPos(p70, mu70);
    var b := PowerLawCoefficient(m, mu70, c);
    // log10(70 ** c * mu70) = c log10(70) + log10(mu70)
    assert b == p70 * mu70;
    LogProduct(m, p70, mu70);
    LogPower(m, 70.0, c);
    assert m.log10(b) == c * m.log10(70.0) + m.log10(mu70);
    assert LogOfPowerLaw(m, b, c, tFar) == LogLine(m, mu70, c, tFar);
  }

  /** With sound powers and the laws of logarithms, the power law through two positive
      viscosities is defined at exactly the positive temperatures; otherwise it fails in
      the logarithm. */
  lemma TwoPointPowerLawDomain(m: Math, mu70: real, mu80: real, tFar: real)
    requires Sound(m) && LogLaws(m)
    requires mu70 > 0.0 && mu80 > 0.0
    ensures TwoPointPowerLaw(m, mu70, mu80, tFar).Ok? <==> tFar > 0.0
    ensures TwoPointPowerLaw(m, mu70, mu80, tFar).Fail? ==>
              TwoPointPowerLaw(m, mu70, mu80, tFar).error == MathDomain
  {
    if tFar > 0.0 {
      TwoPointPowerLawValue(m, mu70, mu80, tFar);
    } else {
      TwoPointPowerLawValue(m, mu70, mu80, 1.0);
    }
  }

  /** The power law passes through both of its reference points. */
  lemma TwoPointPowerLawThroughReferencePoints(m: Math, mu70: real, mu80: real)
    requires Sound(m) && LogLaws(m)
    requires mu70 > 0.0 && mu80 > 0.0
    ensures TwoPointPowerLaw(m, mu70, mu80, 70.0) == Ok(mu70)
    ensures TwoPointPowerLaw(m, mu70, mu80, 80.0) == Ok(mu80)
  {
    TwoPointPowerLawValue(m, mu70, mu80, 70.0);
    TwoPointPowerLawValue(m, mu70, mu80, 80.0);
    var c := PowerLawExponent(m, mu70, mu80);
    // At 70 F the line is at log10(mu70).
    assert LogLine(m, mu70, c, 70.0) == m.log10(mu70);
    PowOfLog(m, mu70);
    // At 80 F it is log10(mu70) - c log10(8 / 7) = log10(mu70) - log10(mu70 / mu80).
    LogQuotient(m, 80.0, 70.0);
    LogQuotient(m, mu70, mu80);
    assert c * m.log10(80.0 / 70.0) == m.log10(mu70 / mu80);
    assert LogLine(m, mu70, c, 80.0) == m.log10(mu70) - c * m.log10(80.0 / 70.0);
    assert LogLine(m, mu70, c, 80.0) == m.log10(mu80);
    PowOfLog(m, mu80);
  }

  /** With sound powers and the laws of logarithms the oil viscosity exists exactly at the
      positive Fahrenheit temperatures; below that it fails in the logarithm. */
  lemma OilViscosityDomain(m: Math, rs: real, tFar: real, api: real)
    requires Sound(m) && LogLaws(m)
    ensures OilViscosity(m, rs, tFar, api).Ok? <==> tFar > 0.0
    ensures OilViscosity(m, rs, tFar, api).Fail? ==> OilViscosity(m, rs, tFar, api).error == MathDomain
  {
    if tFar <= 70.0 {
      TwoPointPowerLawDomain(m, DeadOilViscosity(m, 70.0, api), DeadOilViscosity(m, 80.0, api), tFar);
    }
  }

  /** At or below 70 F the oil viscosity does not depend on the solution gas-oil ratio:
      the low-temperature branch is the dead-oil power law alone. */
  lemma LowTemperatureIgnoresGasContent(m: Math, rs1: real, rs2: real, tFar: real, api: real)
    requires tFar <= 70.0
    ensures OilViscosity(m, rs1, tFar, api) == OilViscosity(m, rs2, tFar, api)
    ensures OilViscosity(m, rs1, tFar, api)
            == TwoPointPowerLaw(m, DeadOilViscosity(m, 70.0, api), DeadOilViscosity(m, 80.0, api), tFar)
  {
  }

  /** At exactly 70 F the oil viscosity is the dead-oil viscosity at 70 F, whatever the
      solution gas-oil ratio. */
  lemma OilViscosityAtBranchPoint(m: Math, rs: real, api: real)
    requires Sound(m) && LogLaws(m)
    ensures OilViscosity(m, rs, 70.0, api) == Ok(DeadOilViscosity(m, 70.0, api))
  {
    TwoPointPowerLawThroughReferencePoints(m, DeadOilViscosity(m, 70.0, api), DeadOilViscosity(m, 80.0, api));
  }
}
