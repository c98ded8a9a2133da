/**
 Gas and liquid densities. The gas formation volume factor and the gas density are
 rational in the inputs; the solution gas-oil ratio and the oil formation volume factor
 are Standing-type correlations built on real powers, which come from the `Math` record.
 Liquid and mixture densities are blends (see `Mixing`).
 */
module Density {
  import opened Results
  import opened Transcendental
  import opened Mixing
  import opened Units
  import Signs

  /** Density of water, kg/m3. */
  const WaterDensity: real := 1000.0

  /** Gas formation volume factor at temperature `t` (K) and pressure `p` (Pa). The source
      divides by the pressure, hence the precondition. */
  function GasVolumeFactor(t: real, p: real): (bg: real)
    requires p != 0.0
    ensures t > 0.0 && p > 0.0 ==> bg > 0.0
  {
    Signs.DivPos(t, p);
    350.958 * (t / p)
  }

  /** Gas density from the gas relative density and the gas formation volume factor. */
  function GasDensity(gammaGas: real, bg: real): (roGas: real)
    requires bg != 0.0
    ensures gammaGas > 0.0 && bg > 0.0 ==> roGas > 0.0
  {
    Signs.DivPos(28.97 * gammaGas, 24.04220577350111 * bg);
    (28.97 * gammaGas) / (24.04220577350111 * bg)
  }

  /** Gas density per unit of gamma_gas * P / T. */
  const GasDensityCoefficient: real := 28.97 / (24.04220577350111 * 350.958)

  /** At given conditions the gas density is proportional to the gas relative density and
      the pressure, and inversely proportional to the temperature, as for an ideal gas. */
  lemma GasDensityIdeal(gammaGas: real, t: real, p: real)
    requires t > 0.0 && p > 0.0
    ensures GasDensity(gammaGas, GasVolumeFactor(t, p)) == GasDensityCoefficient * gammaGas * p / t
  {
    var bg := GasVolumeFactor(t, p);
    assert bg * p == 350.958 * t;
    calc {
      GasDensity(gammaGas, bg);
      (28.97 * gammaGas) / (24.04220577350111 * bg);
      { assert (24.04220577350111 * bg) * p == (24.04220577350111 * 350.958) * t; }
      (28.97 * gammaGas * p) / ((24.04220577350111 * 350.958) * t);
    }
  }

  /** Solution gas-oil ratio (m3/m3) at temperature `t` (K) and pressure `p` (Pa). The
      division by 10 ** y_g raises if that power is zero. Over the reals, where sound
      powers are positive, it never is, and for a positive gas relative density and
      pressure the ratio is positive; in floating point the power can underflow to zero. */
  function SolutionGasRatio(m: Math, gammaGas: real, gammaOil: real, t: real, p: real): (r: Result<real>)
    requires gammaOil != 0.0
    ensures r.Fail? ==> r.error == ZeroDivision
    ensures Sound(m) && gammaGas > 0.0 && p > 0.0 ==> r.Ok? && r.value > 0.0
  {
    var yg := 1.2254503 + 0.001638 * t - 1.76875 / gammaOil;
    var scaled :- Div(p, m.pow(10.0, yg));
    var base := 1.9243101395421235 * 0.000001 * scaled;
    Signs.DivPos(p, m.pow(10.0, yg));
    Signs.MulPos(gammaGas, m.pow(base, 1.2048192771084338));
    Ok(gammaGas * m.pow(base, 1.2048192771084338))
  }

  /** The quantity the oil formation volume factor raises to the power 1.175. */
  function OilVolumeFactorBase(m: Math, gammaGas: real, gammaOil: real, rs: real, t: real): real
    requires gammaOil != 0.0
  {
    5.61458 * rs * m.pow(gammaGas / gammaOil, 0.5) + 2.25 * t - 574.5875
  }

  /** The oil formation volume factor's base is the dissolved-gas term plus 1.25 times the
      temperature in Fahrenheit, so it is positive whenever gas is dissolved and the
      temperature is above 0 F. */
  lemma OilVolumeFactorBaseFahrenheit(m: Math, gammaGas: real, gammaOil: real, rs: real, t: real)
    requires gammaOil != 0.0
    ensures OilVolumeFactorBase(m, gammaGas, gammaOil, rs, t)
            == 5.61458 * rs * m.pow(gammaGas / gammaOil, 0.5) + 1.25 * FahrenheitOfKelvin(t)
    ensures Sound(m) && gammaGas / gammaOil > 0.0 && rs > 0.0 && FahrenheitOfKelvin(t) > 0.0 ==>
              OilVolumeFactorBase(m, gammaGas, gammaOil, rs, t) > 0.0
  {
    if Sound(m) && gammaGas / gammaOil > 0.0 && rs > 0.0 {
      Signs.MulPos(5.61458 * rs, m.pow(gammaGas / gammaOil, 0.5));
    }
  }

  /** Oil formation volume factor. Where its base is non-negative it is at least 0.972. */
  function OilVolumeFactor(m: Math, gammaGas: real, gammaOil: real, rs: real, t: real): (bOil: real)
    requires gammaOil != 0.0
    ensures Sound(m) && OilVolumeFactorBase(m, gammaGas, gammaOil, rs, t) >= 0.0 ==> bOil >= 0.972
  {
    0.972 + (147.0 / 1000000.0) * m.pow(OilVolumeFactorBase(m, gammaGas, gammaOil, rs, t), 1.175)
  }

  /** Oil density (kg/m3): the mass of stock-tank oil and dissolved gas over the oil
      formation volume factor. A zero volume factor raises. */
  function OilDensity(gammaGas: real, gammaOil: real, rs: real, bOil: real): (r: Result<real>)
    ensures r.Ok? <==> bOil != 0.0
    ensures r.Fail? ==> r.error == ZeroDivision
    ensures gammaGas > 0.0 && gammaOil > 0.0 && rs >= 0.0 && bOil > 0.0 ==> r.Ok? && r.value > 0.0
  {
    var perVolume :- Div(gammaOil + (1.2217 / 1000.0) * rs * gammaGas, bOil);
    Signs.DivPos(gammaOil + (1.2217 / 1000.0) * rs * gammaGas, bOil);
    Ok(WaterDensity * perVolume)
  }

  /** Liquid density: oil blended with water by water cut. */
  function LiquidDensity(roOil: real, wct: real): (roLiq: real)
    ensures 0.0 <= wct <= 1.0 ==> Between(roLiq, roOil, WaterDensity)
    ensures wct == 0.0 ==> roLiq == roOil
    ensures wct == 1.0 ==> roLiq == WaterDensity
  {
    Blend(roOil, WaterDensity, wct)
  }

  /** Mixture density: liquid blended with free gas by gas fraction. */
  function MixtureDensity(roLiq: real, roGas: real, gf: real): (roMix: real)
    ensures 0.0 <= gf <= 1.0 ==> Between(roMix, roLiq, roGas)
    ensures gf == 0.0 ==> roMix == roLiq
  {
    Blend(roLiq, roGas, gf)
  }
}
