# Metro ridership impact calculator — Dafny model

This project models the arithmetic core of a last-mile connectivity
ridership calculator. A planner gives the current daily metro ridership and
five improvement percentages: feeder frequency, wait-time reduction,
coverage, cost reduction and integration quality. The calculator weights
each percentage by a fixed elasticity coefficient and adds the five terms.
It damps the total above a knee of 0.5, keeping 70% of the excess. It then
projects the new daily ridership.

A second part builds a comparison table over four named presets. It uses a
separate one-coefficient proxy (0.4 per improvement point). Its "Current" row
always shows the current ridership and 0%.

Files:

- `numeric.dfy` (module `Numeric`): Python's `int()` on a float, modelled as
  truncation toward zero over exact reals. It also holds the facts about
  products of reals that the proofs use.
- `impact.dfy` (module `ImpactCalculator`): the elasticity table, the inputs,
  the result record, the calculator `CalculateRidershipImpact` and its
  properties. The elasticities, the knee (0.5) and the damping factor (0.7)
  are an explicit `Config`; `Default` holds the shipped values. The
  computing functions and the lines they model:
  - `Literature`: the elasticity table, ridership.py:18-24;
  - `Impact`, `Abs` and `FactorImpacts`: the five per-factor impacts, with
    `abs` on the wait and cost coefficients, ridership.py:86-90;
  - `RawTotal`: their sum, ridership.py:93;
  - `Damped`, `DiminishingReturns` and `ClampedTotal`: the diminishing-returns
    clamp, ridership.py:96-97;
  - `NewRidership` and `AbsoluteIncrease`: the projection and the increase,
    each passed through `int()`, ridership.py:99-100 and 110-111;
  - `CalculateRidershipImpact`: the whole result record, ridership.py:84-112.
- `scenarios.dfy` (module `ScenarioComparison`): the presets, the proxy
  formulas, and `BuildScenarioTable`. That method is the loop that builds
  the table row by row, proved against the reference row function
  `ExpectedRow`. The computing functions and the lines they model:
  - `Presets`: the four named presets, ridership.py:190-195;
  - `ProxyPercentage` and `ProxyRidership`: the proxy's percentage and
    ridership, ridership.py:201-202;
  - `ExpectedRow`: the row chosen for one preset, ridership.py:204-207.

Modelling decisions:

- The slider values are parameters (`InputParameters`); nothing is read from
  globals. The two baseline inputs (feeder frequency, wait time) are carried
  but no formula reads them (`BaselinesInert`).
- Floats are exact `real`s. Python's `int()` is `TruncateTowardZero`, which is
  defined for every real, so no precondition on the sign of the ridership is
  needed.
- The breakdown is reported before the clamp and the total after it, as in
  the code. `BreakdownVersusTotal` states exactly when the two agree.
- The absolute increase is `int(new_float - current)`, not
  `int(new_float) - current`. The two agree whenever the clamped total is
  non-negative (`ProjectionOf`, `RidershipOutputs`). A negative improvement
  input, which the sliders do not allow, can make them differ: frequency
  input -1 with 100 riders gives new ridership 99 but increase 0
  (`NegativeTotalSplitsTruncation`).
- For the "Current" preset the loop evaluates the live calculation and then
  discards it, as the code does. The contract of `BuildScenarioTable`
  mentions only the current ridership, which shows that the row does not
  depend on the live result.

## Model

| member | source | states |
|---|---|---|
| Numeric.TruncateTowardZero | ridership.py:110-111 | `int()` of a float: for x >= 0 the result n has n <= x < n + 1; for x <= 0 it has n - 1 < x <= n |
| Numeric.TruncateMonotone | ridership.py:110 | `int()` never gives a larger integer for a smaller argument |
| Numeric.TruncateShift | ridership.py:99-111 | subtracting an integer commutes with `int()` as long as the argument keeps its sign |
| ImpactCalculator.ZeroImprovements | ridership.py:86-111 | with all five improvements 0: total percentage 0, new ridership = current ridership, absolute increase 0 (for any knee >= 0) |
| ImpactCalculator.WaitAndCostIgnoreSign | ridership.py:86-90 | the wait and cost impacts are >= 0 for non-negative inputs and do not change if the coefficient's sign is flipped, because only its magnitude is used |
| ImpactCalculator.FactorsNonNegative | ridership.py:86-90 | every per-factor impact is >= 0 when the inputs are >= 0 and the three sign-as-given coefficients are >= 0 |
| ImpactCalculator.BreakdownNonNegative | ridership.py:86-108 | with the shipped table, all five breakdown percentages are >= 0 for non-negative inputs |
| ImpactCalculator.ClampBelowKnee | ridership.py:96-97 | a total at or below the knee passes through the clamp unchanged |
| ImpactCalculator.ClampAboveKnee | ridership.py:96-97 | above the knee, with damping in (0, 1), the clamped total is strictly above the knee and strictly below the raw total |
| ImpactCalculator.ClampMonotone | ridership.py:96-97 | for any damping factor >= 0, the clamp is monotone non-decreasing in the raw total |
| ImpactCalculator.ClampCloser | ridership.py:96-97 | for damping in [0, 1], when the raw total grows, the clamped total grows by at least 0 and at most as much |
| ImpactCalculator.ClampContinuous | ridership.py:96-97 | for damping in [0, 1], the clamp never moves two totals further apart (1-Lipschitz), so it is continuous, also at the knee |
| ImpactCalculator.ClampExamples | ridership.py:96-97 | with knee 0.5 and damping 0.7: 0.5 stays 0.5 and 1.0 becomes 0.85 |
| ImpactCalculator.KneeBoundaryTotals | ridership.py:93-101 | with the shipped constants, any inputs whose raw total is exactly 0.5 report 50%, and any whose raw total is 1.0 report 85% |
| ImpactCalculator.KneeBoundaryInputs | ridership.py:86-101 | frequency-only inputs (the other four 0) of 100 and 200 report 50% and 85% |
| ImpactCalculator.RawTotalMonotone | ridership.py:86-93 | with non-negative sign-as-given coefficients, raising any improvement inputs never lowers the raw total |
| ImpactCalculator.ClampedTotalMonotone | ridership.py:86-97 | with non-negative sign-as-given coefficients and damping >= 0, raising any improvement inputs never lowers the clamped total |
| ImpactCalculator.TotalPercentageMonotone | ridership.py:86-101 | with non-negative sign-as-given coefficients and damping >= 0, raising any improvement inputs, one or several with the rest fixed, never lowers `total_percentage` |
| ImpactCalculator.NewRidershipMonotone | ridership.py:99 | for current ridership >= 0, a larger total never projects fewer riders |
| ImpactCalculator.NewRidershipMonotoneInInputs | ridership.py:86-110 | for current ridership >= 0, with non-negative sign-as-given coefficients and damping >= 0, raising improvement inputs never lowers `new_ridership` |
| ImpactCalculator.BreakdownVersusTotal | ridership.py:93-109 | the five breakdown percentages sum to raw total x 100; the sum equals `total_percentage` exactly when raw <= knee, and exceeds it when raw > knee |
| ImpactCalculator.RawTotalBounds | ridership.py:53-93 | within the slider ranges the raw total lies in [0, 2.74] |
| ImpactCalculator.TotalPercentageBounds | ridership.py:53-101 | within the slider ranges `total_percentage` lies in [0, 206.8]; all sliders at their maximum reach 206.8 |
| ImpactCalculator.ClampedTotalNonNegative | ridership.py:86-97 | non-negative inputs give a non-negative clamped total |
| ImpactCalculator.ProjectionOf | ridership.py:99-111 | for a total >= 0: absolute increase = new ridership - current ridership; for current >= 0 the new ridership is floor(current x (1 + total)) and not below current |
| ImpactCalculator.RidershipOutputs | ridership.py:86-111 | for non-negative inputs: absolute increase = new ridership - current ridership; for current >= 0 the new ridership is floor(current x (1 + clamped total)) and not below current |
| ImpactCalculator.NegativeTotalSplitsTruncation | ridership.py:99-111 | frequency input -1 with 100 riders gives new ridership 99 and absolute increase 0, so the increase is not new - current |
| ImpactCalculator.WorkedExample | ridership.py:84-112 | inputs 50/30/25/15/40 with 100000 riders give breakdown 25/24/7.5/6/24, total 75.55%, new ridership 175550, increase 75550 |
| ImpactCalculator.BaselinesInert | ridership.py:84-112 | changing the baseline frequency and wait inputs changes no output |
| ScenarioComparison.BuildScenarioTable | ridership.py:197-208 | the loop returns one row per preset, in order; row i is `ExpectedRow(current, presets[i])`, which does not depend on the live calculation |
| ScenarioComparison.RowKeepsName | ridership.py:204-205 | each row carries its preset's name |
| ScenarioComparison.CurrentRowIsBaseline | ridership.py:206-207 | the "Current" row is (current ridership, 0%) whatever improvement its preset names |
| ScenarioComparison.ProxyIsProjection | ridership.py:201-202 | the proxy ridership is the calculator's projection step applied to a total of improvement x 0.4 percent |
| ScenarioComparison.ProxyRowConsistent | ridership.py:200-207 | for current ridership >= 0 and improvement >= 0, a non-"Current" row shows improvement x 0.4 percent, and its ridership is floor(current x (1 + percent / 100)), at least the current ridership |
| ScenarioComparison.ProxyRidershipMonotone | ridership.py:202 | for current ridership >= 0, a larger uniform improvement never gives a smaller proxy ridership |
| ScenarioComparison.PresetTableAscends | ridership.py:190-207 | for current ridership >= 0, down the shipped preset table, ridership never falls and the percentage strictly grows |
| ScenarioComparison.PresetExamples | ridership.py:190-208 | with 100000 riders the rows are (100000, 0%), (106000, 6%), (114000, 14%), (124000, 24%) |
| ScenarioComparison.ProxyDiffersFromCalculator | ridership.py:199-202 | a uniform 15% on all five factors gives 39% in the calculator but 6% in the proxy |

## Left out

- Page setup, sidebar widgets, columns, metrics, info and text panels: they are presentation. The slider values are parameters of the model, and the slider ranges appear only as the `InSliderRanges` predicate.
- The DataFrame construction and both charts: they are calls into plotting and table libraries and hold no logic.
- Display formatting (one decimal place, thousands separators, bar labels): presentation only.
- IEEE floating-point rounding: the model computes in exact reals. Python's `int()` of a float product can differ by one from the exact value when the product lands just below an integer.
- Python's dictionary iteration order is modelled as the order of the `Presets` sequence.
- `NewRidershipMonotone`, `ProjectionOf`, `RidershipOutputs`, `ProxyRowConsistent`, `ProxyRidershipMonotone` and `PresetTableAscends` state the floor form, "not below current" and the ascending order only for current ridership >= 0 (`ProxyRowConsistent` also only for a non-negative improvement). For a negative ridership, which the input field does not forbid, the model still computes `int()` as truncation toward zero, but these lemmas make no claim about it.
