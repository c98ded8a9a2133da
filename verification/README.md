# PVT mixture properties — a Dafny model

This project models the mixture-property calculation of the `pvt_service` repository.
The input is a produced stream of oil, water and free gas, described by:

- pressure and temperature;
- the relative densities of oil, gas and water;
- the water cut;
- the producing gas-oil ratio;
- the liquid rate.

From these the service computes the mixture flow rate, the mixture density and the mixture
viscosity. The request and the response are validated against field constraints.

The model follows the controller step by step:

- **Phase split.** The oil rate, the free-gas rate and the gas volume fraction.
- **Gas properties.** The gas formation volume factor and the gas density.
- **Oil properties.** The Standing-type solution gas-oil ratio, oil formation volume factor and oil density.
- **Liquid and mixture density.** Blends of oil with water, then of liquid with gas.
- **Viscosities.** Lee's gas viscosity, and the dead-oil and live-oil viscosity with the branch at 70 °F. At or below 70 °F a two-point power law is fitted through the dead-oil viscosities at 70 °F and 80 °F.
- **Liquid and mixture viscosity.** Blends, like the densities.
- **Unit conversions.** Kelvin to Fahrenheit, m3/m3 to the ft3/bbl scale, and relative density to API degrees.
- **Mixture rate.**

Real arithmetic is modelled exactly over `real`.

The transcendental primitives are supplied by a `Math` record and are not computed. They are:

- real powers (`**` with a real exponent);
- `math.exp`;
- `math.log10`.

Two named hypotheses on that record carry what properties need:

- `Sound` holds the sign facts of powers and of the exponential;
- `LogLaws` holds the product, power and inverse laws of the decimal logarithm.

Every correlation formula is written out around these primitives with the source's constants.

Where the source raises, the model returns a `Result` error:

- `ZeroDivision` for a division by zero;
- `MathDomain` for `math.log10` of a non-positive number;
- `RequestInvalid` with the offending request fields, when request validation fails;
- `ResponseInvalid` with the offending response fields, when response validation fails.

A division whose divisor a validated request already makes non-zero is a precondition instead.

Modules:

- `Schema`: the request and response records, their validity predicates, and the validators that list offending fields.
- `Results`: the errors.
- `Transcendental`: the `Math` record and the logarithm laws.
- `Units`: the three converters and their inverses.
- `Mixing`: the blend rule shared by all four mixing steps.
- `Signs`: sign facts for products and quotients.
- `Flow`: the phase split and the mixture rate.
- `Density`: the densities and the oil correlations.
- `Viscosity`: the viscosities.
- `Pipeline`: the whole calculation and the service boundary.

Observations about the code as written:

- **The calculation is not total on valid requests.** At or below 0 °F (T ≤ 255.372 K) the low-temperature branch takes `log10(t_far)` and raises. `Pipeline.CalculationDomain` proves that, under `Sound` and `LogLaws`, the calculation returns exactly when the temperature is above 0 °F. The model follows the code.
- **The two viscosity branches differ in general at 70 °F when gas is dissolved.** The low-temperature branch is the dead-oil fit alone and ignores the solution gas-oil ratio (`Viscosity.LowTemperatureIgnoresGasContent`). At 70 °F it gives the dead-oil viscosity (`Viscosity.OilViscosityAtBranchPoint`). Just above 70 °F the live-oil correction `A mu_dead ** B` is applied. It agrees with the dead-oil viscosity only when that viscosity equals `A ** (1 / (1 - B))`, so for a positive solution gas-oil ratio the oil viscosity generally jumps at 70 °F. The jump itself is not proved. The model follows the code.
- **The API conversion uses 145.5 and 135.5.** These are the constants in the code, not the customary 141.5 and 131.5. They are kept as written.
- **The oil formation volume factor's base has a Fahrenheit form.** `2.25 T - 574.5875` is exactly `1.25 t_far`. So the base is positive whenever the temperature is above 0 °F (`Density.OilVolumeFactorBaseFahrenheit`).

## Model

| member | source | states |
|---|---|---|
| Schema.RequestErrors | src/schemas/pvt.py:9-16 | lists exactly the request fields whose constraint fails, each once; empty exactly when every constraint holds |
| Schema.ValidRequestFieldwise | src/schemas/pvt.py:9-16 | a request is valid exactly when each of the eight fields meets its own constraint |
| Schema.ResponseErrors | src/schemas/pvt.py:39-41 | lists exactly the non-positive outputs, each once; empty exactly when all three outputs are positive |
| Schema.ValidResponseFieldwise | src/schemas/pvt.py:39-41 | a response is valid exactly when each of the three outputs is positive |
| Schema.RequestBoundaries | src/schemas/pvt.py:9-31 | the sample request is valid; water cuts 0 and 1 are accepted; water cuts -0.01 and 1.01, a zero pressure and a zero gas-oil ratio are each rejected naming that field alone |
| Schema.SingleOffender | src/schemas/pvt.py:9-16 | a request that fails the constraint of one field alone is rejected naming that field alone |
| Transcendental.Log10 | src/controllers/pvt.py:103-107 | the decimal logarithm returns exactly on positive arguments; its result raised as a power of ten gives back the argument |
| Units.FahrenheitOfKelvin | src/controllers/pvt.py:6-7 | above 70 F exactly when above 273.15 + 38/1.8 K; above 0 F exactly when above 273.15 - 32/1.8 K |
| Units.KelvinFahrenheitRoundTrip | src/controllers/pvt.py:6-7 | Kelvin to Fahrenheit and back is the identity, in both directions |
| Units.FahrenheitIncreasing | src/controllers/pvt.py:6-7 | the conversion preserves order |
| Units.BarrelScaleOfGasContent | src/controllers/pvt.py:10-11 | the converted ratio has the sign of the original and is zero only for zero |
| Units.GasContentRoundTrip | src/controllers/pvt.py:10-11 | the gas-content conversion is undone by multiplying by the barrel constant, in both directions |
| Units.ApiOfGamma | src/controllers/pvt.py:14-15 | the API degrees never equal -135.5; they exceed it for a positive relative density; water (1.0) is 10 API |
| Units.ApiRoundTrip | src/controllers/pvt.py:14-15 | 145.5 / (api + 135.5) undoes the API conversion, in both directions |
| Units.ApiDecreasing | src/controllers/pvt.py:14-15 | a denser oil has a lower API gravity |
| Mixing.Blend | src/controllers/pvt.py:65-70 | a weighted average stays between the two phase properties for a fraction in [0, 1] and equals each at the ends |
| Mixing.BlendApproachesSecondPhase | src/controllers/pvt.py:69-70 | raising the second phase's fraction never moves the blend away from that phase's property; the distance is the first phase's share of the gap |
| Flow.OilRate | src/controllers/pvt.py:18-19 | the oil rate lies between 0 and the liquid rate, equals it at zero water cut, and is zero exactly at water cut 1 |
| Flow.GasRate | src/controllers/pvt.py:22-23 | the gas rate is non-negative, at least the oil rate for a ratio of 1 or more, and zero exactly when the oil rate is |
| Flow.GasFraction | src/controllers/pvt.py:26-27 | the gas fraction lies in [0, 1) for a positive liquid rate, and is zero exactly when there is no gas |
| Flow.GasShareOfMixture | src/controllers/pvt.py:26-27 | the gas fraction of the mixture rate is the gas rate and the rest is the liquid rate |
| Flow.GasRateFromFraction | src/controllers/pvt.py:26-27 | the gas rate is recovered from the gas fraction and the liquid rate |
| Flow.GasFractionIncreasing | src/controllers/pvt.py:26-27 | at a fixed liquid rate, more gas gives a strictly larger gas fraction |
| Flow.OilShare | src/controllers/pvt.py:18-27 | the oil share depends only on the water cut and the gas-oil ratio; it lies in [0, 1] and times 1 + (1 - wct) Rp gives 1 - wct |
| Flow.OilShareOfMixture | src/controllers/pvt.py:18-27 | for any positive liquid rate, the oil share of the stream's mixture rate is its oil rate |
| Flow.PhaseWeights | src/controllers/pvt.py:18-27 | in the two-stage blend the oil weight (1 - wct)(1 - gf) is the oil share and the gas weight gf is Rp times the oil share |
| Flow.OilShareDecreasing | src/controllers/pvt.py:18-27 | raising the water cut never raises the oil share |
| Flow.MixtureRate | src/controllers/pvt.py:139-140 | the mixture rate is at least the liquid rate and positive |
| Density.GasVolumeFactor | src/controllers/pvt.py:30-31 | positive for positive temperature and pressure |
| Density.GasDensity | src/controllers/pvt.py:34-35 | positive for a positive relative density and volume factor |
| Density.GasDensityIdeal | src/controllers/pvt.py:30-35 | the gas density is a fixed constant times gamma_gas * P / T |
| Density.SolutionGasRatio | src/controllers/pvt.py:38-45 | can fail only by division by zero; with sound powers it returns a positive ratio for positive gas relative density and pressure |
| Density.OilVolumeFactor | src/controllers/pvt.py:48-56 | at least 0.972 when its base is non-negative and powers are sound |
| Density.OilVolumeFactorBaseFahrenheit | src/controllers/pvt.py:48-56 | the base is the dissolved-gas term plus 1.25 t_far, hence positive above 0 F when gas is dissolved |
| Density.OilDensity | src/controllers/pvt.py:59-62 | returns exactly when the volume factor is non-zero, otherwise raises division by zero; positive for positive inputs |
| Density.LiquidDensity | src/controllers/pvt.py:65-66 | between the oil density and 1000, equal to the oil density at zero water cut and to 1000 at water cut 1 |
| Density.MixtureDensity | src/controllers/pvt.py:69-70 | between the liquid and the gas density, equal to the liquid density when there is no gas |
| Viscosity.GasViscosity | src/controllers/pvt.py:73-81 | positive for positive relative density and temperature when powers and exp are sound |
| Viscosity.DeadOilViscosity | src/controllers/pvt.py:84-87 | positive at every positive Fahrenheit temperature when powers are sound |
| Viscosity.TwoPointPowerLaw | src/controllers/pvt.py:98-109 | raises at every non-positive temperature; positive whenever it returns with sound powers |
| Viscosity.TwoPointPowerLawValue | src/controllers/pvt.py:99-109 | for positive reference viscosities and temperature the fit returns, with c = log10(mu70/mu80)/log10(8/7) well defined, the power of ten whose exponent lies on the straight log-log line through (70, mu70) with slope -c: log10(mu70) - c (log10(t) - log10(70)) |
| Viscosity.TwoPointPowerLawDomain | src/controllers/pvt.py:103-107 | for positive reference viscosities the fit returns exactly at positive temperatures and otherwise raises a math domain error |
| Viscosity.TwoPointPowerLawThroughReferencePoints | src/controllers/pvt.py:99-109 | the fitted power law takes the value mu70 at 70 F and mu80 at 80 F |
| Viscosity.OilViscosity | src/controllers/pvt.py:90-110 | always returns above 70 F, always raises at or below 0 F, and is positive for a non-negative gas content when powers are sound |
| Viscosity.OilViscosityDomain | src/controllers/pvt.py:90-110 | with sound powers and the logarithm laws the oil viscosity exists exactly above 0 F, and otherwise raises a math domain error |
| Viscosity.LowTemperatureIgnoresGasContent | src/controllers/pvt.py:98-109 | at or below 70 F the oil viscosity is the dead-oil fit and does not depend on the solution gas-oil ratio |
| Viscosity.OilViscosityAtBranchPoint | src/controllers/pvt.py:90-110 | at exactly 70 F the oil viscosity is the dead-oil viscosity at 70 F for every gas content |
| Viscosity.LiquidViscosity | src/controllers/pvt.py:113-116 | exists exactly when the oil viscosity does and raises the same error; lies between the oil viscosity and 1; equals each at water cut 0 and 1 |
| Viscosity.MixtureViscosity | src/controllers/pvt.py:119-136 | computed from the converted temperature, gas content and API gravity; exists exactly when the liquid viscosity does; lies between gas and liquid viscosity; is 1 for pure water; always exists above 70 F and never at or below 0 F |
| Pipeline.Evaluate | src/controllers/pvt.py:143-187 | raises only division-by-zero or math-domain errors, always at or below 0 F; the oil rate, gas rate, gas fraction and mixture rate bounds hold; the gas properties are positive; each density blend lies between its components |
| Pipeline.CalculatePvtData | src/controllers/pvt.py:143-195 | returns only responses that pass response validation, and returns exactly when the calculation succeeds with a valid response |
| Pipeline.Handle | src/schemas/pvt.py:9-16 | rejects exactly the invalid requests, naming every offending field, before any calculation; whatever it returns satisfies both schemas |
| Pipeline.ResponseAlwaysValid | src/controllers/pvt.py:187-194 | with sound powers response validation never rejects: rate, density and viscosity are all positive |
| Pipeline.WarmRequestsSucceed | src/controllers/pvt.py:90-97 | with sound powers every valid request above 70 F gets a response |
| Pipeline.CalculationDomain | src/controllers/pvt.py:143-195 | with sound powers and the logarithm laws a valid request gets a response exactly when it is above 0 F, and otherwise only an arithmetic error |
| Pipeline.AllWaterStream | src/controllers/pvt.py:143-195 | at water cut 1, whenever the correlations return, the response is the liquid rate, density 1000 and viscosity 1, whatever values the correlations give |
| Pipeline.EvaluateBlends | src/controllers/pvt.py:143-187 | a returned calculation's mixture density and viscosity are the stream blends of the oil, water and gas properties, with the oil and gas values of the correlations |
| Pipeline.StreamBlendOffset | src/controllers/pvt.py:65-70 | a stream's mixture property minus the water property is the oil share times (oil minus water) + Rp (gas minus water) |
| Pipeline.StreamBlendTowardWater | src/controllers/pvt.py:65-70 | raising a stream's water cut, all else fixed, never moves its mixture property away from the water property |
| Pipeline.WaterCutLeavesCorrelations | src/controllers/pvt.py:143-187 | changing the water cut changes neither whether the calculation returns nor the solution gas-oil ratio, oil density, gas density or oil viscosity |
| Pipeline.WaterCutMovesTowardWater | src/controllers/pvt.py:143-187 | raising the water cut, all else fixed, moves the mixture density no farther from 1000 and the mixture viscosity no farther from 1, and does not change whether the calculation returns |
| Pipeline.WaterGravityIgnored | src/schemas/pvt.py:13 | the water relative density is validated but does not affect the answer |
| Pipeline.ExampleRequest | src/schemas/pvt.py:18-31 | for the sample request the oil rate is 45, the gas rate 4500, the gas fraction 50/51, and the response's mixture rate is 4590 |

## Left out

- Transcendental primitives: `**` with a real exponent, `math.exp` and `math.log10` are parameters (`Math`), not computed. Properties that need their behaviour assume `Sound` and, for the low-temperature fit, `LogLaws`. Real arithmetic satisfies both.
- Floating point: rounding, overflow to infinity, NaN, and `OverflowError` from a large `10 ** d` are not modelled. Arithmetic is exact over `real`.
- Floating-point underflow: for a small oil relative density (about 0.001) the power `10 ** y_g` in the solution gas-oil ratio underflows to 0.0, and the division by it raises `ZeroDivisionError`. For an oil relative density below about 0.13, `10 ** d - 1` in the dead-oil viscosity (src/controllers/pvt.py:86 and 101-102) rounds to 0. At or below 70 °F the ratio `mu_oil_70 / mu_oil_80` then raises `ZeroDivisionError`. Over the reals neither happens, so the model does not raise in these cases.
- Pipeline.WarmRequestsSucceed: holds over the reals only. In floating point a request with a very small oil relative density can still raise through the underflow above.
- Complex powers: Python returns a complex number when a negative base is raised to a fractional power, as in the oil formation volume factor below 0 °F. `pow` is total over the reals here, so nothing is said about that case.
- Density.SolutionGasRatio: the contract states only the error kind and positivity. The value is the correlation over the supplied `pow`.
- Density.OilVolumeFactor: the contract states only the lower bound 0.972. Nothing is stated for a negative base, which is the complex-power case.
- Viscosity.GasViscosity: the contract states only positivity, for the same reason.
- Viscosity.DeadOilViscosity: the contract states only positivity, for the same reason.
- Pipeline.CalculationDomain: at or below 0 °F the error is stated as division by zero or math domain. A zero oil formation volume factor can only come from the complex-power case.
- Flow.GasRate: the gas-oil ratio is an integer, as the request schema declares it. The float multiplication of the source is exact here.
- Schema.RequestErrors: pydantic's type coercion (strings or floats passed for the integer `Rp`, for example) is not modelled. Its error envelopes and HTTP status codes are not modelled either. Validation is reduced to the list of fields whose constraint fails.
- The FastAPI router, the async handler wrapper, the uvicorn entry point and the pydantic-settings configuration are not part of this model. They are I/O and framework plumbing; `Pipeline.Handle` stands for the request validation that precedes the call.
- The schema's response example (30, 40, 0.3) is documentation only and is not modelled.
