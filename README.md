# Gut-brain axis simulation, modelled in Dafny

The program simulates a three-variable linear ODE model of gut-brain
interaction. Microbiota grows and decays at fixed rates. It drives serotonin
production, and serotonin drives brain activity. A simulation object holds
the three initial state values and six rate constants, all with fixed
defaults. A perturbation (`antibiotic`, `probiotic`, `stress`) multiplies one
initial state value in place before the ODE is integrated.

`gut_brain_axis.dfy` (module `GutBrainAxis`) models:

- the state vector `[microbiota, serotonin, brain_activity]` as the datatype
  `State`, and the six rates as the datatype `Rates`;
- the simulation object as the class `Simulation`, with its nine fields and a
  constructor that sets the defaults; `InitialConditions()` is the vector
  handed to the solver and `CurrentRates()` the rates the derivative reads;
- `derivatives` as the pure function `Derivatives(k, y, t)`, checked against
  an independent reference definition: the coefficient matrix `RateMatrix(k)`,
  applied to the state vector;
- `perturb_system` as the in-place method `PerturbSystem(sim, kind)`, specified
  by the pure function `Perturbed(y, kind)`, which is checked against a table
  of per-field multipliers (`Multipliers`);
- the scenario loop, only up to each solver call: `PerturbedScenario` and
  `RunScenarios` give the initial conditions and rates each run integrates from.

All quantities are Dafny `real`, that is exact rationals. This is an
idealisation of the Python floats: there is no rounding, overflow or NaN. The
defaults `100`, `50` and `10` are Python integers until perturbed; the model
uses the reals `100.0`, `50.0` and `10.0`.

Unrecognised perturbation names are silent no-ops, as in the code. The model
does not turn them into errors.

## Model

| member | source | states |
|---|---|---|
| GutBrainAxis.Simulation.constructor | gut-brain_axis.py:7-19 | a fresh simulation has microbiota 100, serotonin 50, brain activity 10, and rates 0.1, 0.05, 0.2, 0.1, 0.15, 0.1 (growth, decay, production, serotonin decay, brain increase, brain decay) |
| GutBrainAxis.RateMatrix | gut-brain_axis.py:24-31 | the coefficient matrix of the system is lower triangular: microbiota reads only microbiota, and serotonin does not read brain activity |
| GutBrainAxis.DerivativesIsRateMatrix | gut-brain_axis.py:21-33 | the derivative at every time equals the coefficient matrix applied to the state vector |
| GutBrainAxis.ApplyLinear | gut-brain_axis.py:21-33 | applying the coefficient matrix (any matrix) to `a*y + b*z` gives `a*(M y) + b*(M z)` |
| GutBrainAxis.DerivativesLinear | gut-brain_axis.py:21-33 | the derivative of `a*y + b*z` is `a*derivative(y) + b*derivative(z)`, and the derivative of the zero vector is zero |
| GutBrainAxis.DerivativesIgnoreTime | gut-brain_axis.py:21-22 | the derivative does not depend on `t`: the system is autonomous |
| GutBrainAxis.MicrobiotaNetGrowth | gut-brain_axis.py:24-25 | the microbiota derivative is `(growth - decay) * microbiota` and does not depend on serotonin or brain activity |
| GutBrainAxis.BalancedMicrobiotaAtRest | gut-brain_axis.py:24-25 | when growth rate equals decay rate the microbiota derivative is zero for every state |
| GutBrainAxis.CascadeIsOneWay | gut-brain_axis.py:27-31 | the serotonin derivative ignores brain activity; the brain-activity derivative ignores microbiota |
| GutBrainAxis.DefaultMicrobiotaGrows | gut-brain_axis.py:14-25 | under the default rates the net microbiota rate is 0.05, so positive microbiota has a positive derivative |
| GutBrainAxis.PerturbedIsScaling | gut-brain_axis.py:64-70 | every perturbation multiplies each field by its entry in the multiplier table (0.5 or 1.5 on one field, 1 elsewhere; all 1 for an unknown name) |
| GutBrainAxis.PerturbedFields | gut-brain_axis.py:64-70 | serotonin never changes; antibiotic and probiotic change only microbiota, stress only brain activity; an unknown name changes nothing |
| GutBrainAxis.PerturbationsCommute | gut-brain_axis.py:64-70 | applying two perturbations in either order gives the same state |
| GutBrainAxis.PerturbedKeepsNonNegative | gut-brain_axis.py:64-70 | a perturbation keeps a non-negative state non-negative |
| GutBrainAxis.PerturbedMicrobiotaDerivative | gut-brain_axis.py:65-68 | after an antibiotic the microbiota derivative is half of what it was, after a probiotic 1.5 times |
| GutBrainAxis.PerturbedDefaults | gut-brain_axis.py:64-70 | the perturbed default states are (50, 50, 10), (150, 50, 10) and (100, 50, 15) |
| GutBrainAxis.PerturbSystem | gut-brain_axis.py:64-70 | antibiotic sets microbiota to 0.5 times its old value, probiotic to 1.5 times, stress sets brain activity to 1.5 times; any other name changes no field; serotonin and the six rates never change; the new initial-condition vector is `Perturbed` of the old one |
| GutBrainAxis.PerturbedScenario | gut-brain_axis.py:78-79 | a run that builds a fresh simulation and perturbs it integrates from `Perturbed(DefaultState, kind)` with the default rates |
| GutBrainAxis.RunScenarios | gut-brain_axis.py:76-80 | run `i` of the scenario loop starts from the default state perturbed by the `i`-th name alone, with the default rates, whatever earlier runs did |
| GutBrainAxis.ScenarioInitialConditions | gut-brain_axis.py:74 | the three scenarios start from (50, 50, 10), (150, 50, 10) and (100, 50, 15) |

## Left out

- The ODE solver call `odeint` (gut-brain_axis.py:38): a foreign adaptive floating-point solver whose accuracy cannot be stated here. `simulate` is modelled only up to the vector it hands the solver (`InitialConditions`).
- The time grid `np.linspace(0, time_span, num=1000)` (gut-brain_axis.py:37): a floating-point library call; it asks for 1000 points from 0 to the time span.
- `plot_results` and `run_simulation` (gut-brain_axis.py:41-55): plotting only.
- The first default run (gut-brain_axis.py:59-60) and the `print` in the scenario loop (gut-brain_axis.py:77): output only. `RunScenarios` keeps the rest of that loop.
- Floating-point rounding, overflow and NaN: every quantity is an exact `real`.
- No check that the time span is positive: the code has none, so none is modelled.
- `derivatives` never changing a field is stated by its form: it is a Dafny function of the rates and the state, which cannot write to the object.
