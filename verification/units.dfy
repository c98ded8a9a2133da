/**
 The unit conversions applied before the viscosity correlations: temperature from kelvin
 to degrees Fahrenheit, solution gas-oil ratio from m3/m3 to the oilfield (ft3/bbl) scale,
 and oil relative density to API degrees. Each is given with its inverse, and the pairs are
 proved to be exact inverses over the reals.
 */
module Units {

  /** Degrees Fahrenheit of a temperature in kelvin. The correlation branch at 70 F and
      the logarithm domain at 0 F both become plain thresholds on the kelvin scale. */
  function FahrenheitOfKelvin(t: real): (f: real)
    ensures f > 70.0 <==> t > 273.15 + 38.0 / 1.8
    ensures f > 0.0 <==> t > 273.15 - 32.0 / 1.8
  {
    1.8 * (t - 273.15) + 32.0
  }

  function KelvinOfFahrenheit(f: real): real {
    (f - 32.0) / 1.8 + 273.15
  }

  lemma KelvinFahrenheitRoundTrip(t: real, f: real)
    ensures KelvinOfFahrenheit(FahrenheitOfKelvin(t)) == t
    ensures FahrenheitOfKelvin(KelvinOfFahrenheit(f)) == f
  {
  }

  lemma FahrenheitIncreasing(t1: real, t2: real)
    requires t1 < t2
    ensures FahrenheitOfKelvin(t1) < FahrenheitOfKelvin(t2)
  {
  }

  /** The volume of one cubic foot divided by the volume of one barrel: dividing a ratio
      in m3/m3 by it gives the ratio in ft3/bbl. */
  const CubicFootPerBarrel: real := 0.17810760667903522

  /** The solution gas-oil ratio on the scale the live-oil viscosity correlation expects. */
  function BarrelScaleOfGasContent(rs: real): (v: real)
    ensures v > 0.0 <==> rs > 0.0
    ensures v == 0.0 <==> rs == 0.0
  {
    rs / CubicFootPerBarrel
  }

  function GasContentOfBarrelScale(v: real): real {
    v * CubicFootPerBarrel
  }

  lemma GasContentRoundTrip(rs: real, v: real)
    ensures GasContentOfBarrelScale(BarrelScaleOfGasContent(rs)) == rs
    ensures BarrelScaleOfGasContent(GasContentOfBarrelScale(v)) == v
  {
  }

  /** API degrees of an oil relative density, with the constants 145.5 and 135.5 that the
      source uses. The result never equals -135.5, so the conversion can be undone. */
  function ApiOfGamma(g: real): (api: real)
    requires g != 0.0
    ensures api + 135.5 != 0.0
    ensures g > 0.0 ==> api > -135.5
    ensures g == 1.0 ==> api == 10.0
  {
    145.5 / g - 135.5
  }

  function GammaOfApi(api: real): (g: real)
    requires api + 135.5 != 0.0
    ensures g != 0.0
  {
    145.5 / (api + 135.5)
  }

  lemma ApiRoundTrip(g: real, api: real)
    requires g != 0.0
    requires api + 135.5 != 0.0
    ensures GammaOfApi(ApiOfGamma(g)) == g
    ensures ApiOfGamma(GammaOfApi(api)) == api
  {
  }

  /** Heavier oil has a lower API gravity. */
  lemma ApiDecreasing(g1: real, g2: real)
    requires 0.0 < g1 < g2
    ensures ApiOfGamma(g1) > ApiOfGamma(g2)
  {
  }
}
