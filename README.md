# Power equipment foundation: analysis engine model

This project is a Dafny model of the calculation engine of a tool for checking
block foundations under power equipment. The engine has four parts.

- **Static analysis** (module `Statics`, `static_analysis.dfy`). It computes
  the foundation's self weight, which includes backfill soil when the
  foundation is buried deeper than it is high. It then computes three checks:
  - the sliding safety factor against 1.3;
  - the overturning safety factor against 1.5;
  - the bearing pressure on the eccentricity-reduced effective area against
    the soil's bearing capacity.

  The analysis object never changes after construction. It is therefore a
  value record, `StaticAnalysis`, and each method is a function of that record.
  Construction stores the inputs, and its one derived value is `SelfWeight`.
- **Dynamic analysis** (module `Dynamics`, `dynamic_analysis.dfy`). It models
  the foundation as a damped single-degree-of-freedom oscillator. The spring
  constant is the subgrade coefficient times the base area, and the natural
  frequency is `sqrt(k/m)/(2π)`. From these it computes:
  - the frequency ratio;
  - the transmissibility;
  - the vibration amplitude in mm, checked against 0.15 mm;
  - a resonance screen for ratios from 0.8 to 1.2 inclusive;
  - a 1000-point frequency sweep.

  The sweep is the one operation that writes a field after construction. The
  analysis object is therefore the class `DynamicAnalysis`, with one mutable
  field per attribute of the source object:
  - its constructor converts the elastic modulus from MPa to kPa and derives
    the spring constant and the natural frequency;
  - `CalculateResponseCurve` overwrites `frequency` once per sample, restores
    it at the end, and is proved equal to the pure `ResponseCurve`.

  The read-only calculations are functions of `DynamicState`, the record of the
  object's fields (`DynamicAnalysis.State()`).
- **Parameter helpers** (module `Parameters`, `parameters.dfy`, and module
  `Units`, `units.dfy`). These cover:
  - validation of a parameter record, first for missing required fields and
    then entry by entry;
  - unit conversion within the length, force and pressure tables;
  - the literal default and example parameter sets.
- **Coupling** (module `Coupling`, `coupling.dfy`). This is the vibrating-mass
  derivation that the calculation window performs before running the two
  analyses.

Module `Numeric` (`numeric.dfy`) holds the shared vocabulary:
- `Ratio`, which is a finite value or the +infinity sentinel the engine
  returns for degenerate ratios, together with the comparisons the engine
  applies to it;
- `Numerics`, the square root and the value of pi, which the caller supplies.
  Its `Valid()` says that `sqrt` is the non-negative square root and that
  `3.14159 < pi < 3.1416`.

Arithmetic is exact (`real`). The contracts of the quantities computed with a
square root or a quotient are stated, where that is natural, by multiplying
out: the amplitude's contract, for example, says `A² · denominator =
(1000 F₀/k)²`, and the sliding factor's says `factor × horizontal load =
resisting force`.

Two points about the dynamic analysis code:
- `run_analysis` (`dynamic_analysis.py:201-209`) puts no spring constant in
  its result, so `DynamicResult` has none.
- The sweep mutates and restores `self.frequency`. Both forms are modelled:
  the imperative method and the pure `ResponseCurve`. They are proved equal.

## Model

| member | source | states |
|---|---|---|
| Statics.SelfWeight | foundation_calculator/core/static_analysis.py:49-61 | block volume × 25 kN/m³, plus backfill volume × 18 kN/m³ exactly when the buried depth exceeds the height |
| Statics.SelfWeightMonotoneInDepth | foundation_calculator/core/static_analysis.py:49-61 | the weight is never below that of the concrete block alone, and burying deeper never makes the foundation lighter |
| Statics.SlidingStability | foundation_calculator/core/static_analysis.py:63-82 | the factor is infinite exactly when the horizontal load (10% of the static load) is not positive; otherwise factor × horizontal load = (self weight + load) × friction; safe exactly when the factor is at least 1.3 |
| Statics.SlidingMonotoneInFriction | foundation_calculator/core/static_analysis.py:63-82 | for a positive load, more friction never lowers the factor and never turns a safe verdict unsafe |
| Statics.OverturningMoment | foundation_calculator/core/static_analysis.py:91-94 | the overturning moment is 10% of the static load times the buried depth (the arm `height + depth - height`) |
| Statics.StabilizingMoment | foundation_calculator/core/static_analysis.py:96-103 | self weight × L/2, plus load × (L/2 − abs(ex)) exactly when abs(ex) < L/2 |
| Statics.StabilizingMomentAtLeastSelfWeight | foundation_calculator/core/static_analysis.py:96-103 | a non-negative load never lowers the stabilizing moment below the self-weight moment |
| Statics.OverturningStability | foundation_calculator/core/static_analysis.py:84-111 | the factor is infinite exactly when the overturning moment is not positive; otherwise factor × moment = stabilizing moment; safe exactly when the factor is at least 1.5 |
| Statics.OverturningWithoutArmIsSafe | foundation_calculator/core/static_analysis.py:93-109 | with no burial or no load, the factor is infinite and the check passes |
| Statics.BearingCapacity | foundation_calculator/core/static_analysis.py:113-138 | the allowable pressure is the soil capacity; the pressure is infinite exactly when the effective area is not positive, and then the check fails; otherwise pressure × area = total load; safe exactly when the pressure does not exceed the capacity |
| Statics.BearingWithBothSidesNegative | foundation_calculator/core/static_analysis.py:127-133 | two negative effective sides give a positive area and a finite pressure (the source's area guard lets this through) |
| Statics.EccentricitySignIrrelevant | foundation_calculator/core/static_analysis.py:101-103 | only the absolute eccentricities matter: flipping their signs changes no result |
| Statics.RunAnalysis | foundation_calculator/core/static_analysis.py:140-171 | the report holds the self weight and total weight; sliding is `SlidingStability`'s factor and verdict with required factor 1.3; overturning is `OverturningStability`'s with 1.5; bearing is `BearingCapacity`'s result; overall safety is the conjunction of the three verdicts |
| Statics.ReferenceCase | foundation_calculator/core/static_analysis.py:140-171 | the 3 × 2 × 1 m block under 500 kN weighs 150 kN and has sliding factor 5.85, overturning factor 39 and pressure 650/6 kPa, so every check passes |
| Dynamics.SpringConstant | foundation_calculator/core/dynamic_analysis.py:51-65 | for a real base, the spring constant is positive exactly when the subgrade coefficient is |
| Dynamics.NaturalFrequency | foundation_calculator/core/dynamic_analysis.py:67-79 | the non-negative frequency whose circular frequency squared, (2π fₙ)², is k/m; it is positive for a positive spring constant |
| Dynamics.FrequencyRatio | foundation_calculator/core/dynamic_analysis.py:81-88 | infinite exactly when the natural frequency is not positive; otherwise ratio × fₙ = f |
| Dynamics.ResponseDenominator | foundation_calculator/core/dynamic_analysis.py:104-108 | (1 − r²)² + (2ζr)² is non-negative, and positive for nonzero r and ζ |
| Dynamics.Transmissibility | foundation_calculator/core/dynamic_analysis.py:90-109 | T > 0; T = 1 at r = 0; T² × denominator = 1 + (2ζr)² |
| Dynamics.Amplitude | foundation_calculator/core/dynamic_analysis.py:111-134 | equals the static deflection in mm at r = 0; A² × denominator = (1000 F₀/k)²; A has the sign of the load |
| Dynamics.ResonanceRisk | foundation_calculator/core/dynamic_analysis.py:136-148 | at risk exactly when the ratio is finite and 0.8 ≤ r ≤ 1.2; the ratio is returned alongside |
| Dynamics.ResonanceIgnoresDamping | foundation_calculator/core/dynamic_analysis.py:136-148 | the screen does not depend on the damping ratio |
| Dynamics.RunAnalysis | foundation_calculator/core/dynamic_analysis.py:185-210 | the result carries fₙ, the ratio, T and A; the allowable amplitude is 0.15 mm; safe exactly when A ≤ 0.15; resonance risk exactly when 0.8 ≤ r ≤ 1.2 |
| Dynamics.ResponseDomain | foundation_calculator/core/dynamic_analysis.py:159-166 | an explicit range is used as given; the default starts at 0.1 Hz and ends at 3fₙ, or at 50.1 Hz when 3fₙ ≤ 0.1, so the default domain is never empty |
| Dynamics.Linspace | foundation_calculator/core/dynamic_analysis.py:169 | n samples with both end points included and a uniform step of (stop − start)/(n − 1) |
| Dynamics.LinspaceAscending | foundation_calculator/core/dynamic_analysis.py:169 | the samples of an ascending range ascend strictly |
| Dynamics.ResponseCurve | foundation_calculator/core/dynamic_analysis.py:150-183 | the frequencies are the 1000 evenly spaced samples (`Linspace`) of the domain, from its start to its end inclusive; there are 1000 amplitudes |
| Dynamics.ResponseCurveFacts | foundation_calculator/core/dynamic_analysis.py:150-183 | the default sweep ascends strictly; each amplitude is the analysis amplitude at that sample frequency; the curve does not depend on the configured excitation frequency |
| Dynamics.ReferenceOscillator | foundation_calculator/core/dynamic_analysis.py:51-79 | a 3 × 2 m base on 80000 kN/m³ soil gives k = 480000; with 40000 kg, (2πfₙ)² = 12 and 0.5513 < fₙ < 0.5514 |
| Dynamics.DynamicAnalysis.constructor | foundation_calculator/core/dynamic_analysis.py:16-49 | stores every input, with the elastic modulus × 1000 (MPa to kPa); the spring constant is coefficient × L × W; (2πfₙ)² = k/m; the derived fields satisfy `Valid()` |
| Dynamics.DynamicAnalysis.CalculateResponseCurve | foundation_calculator/core/dynamic_analysis.py:150-183 | returns linspace over the domain and, for each sample, the amplitude with that frequency substituted; afterwards every field is as before (the frequency is restored); the result equals `ResponseCurve` of the initial state |
| Parameters.CheckEntry | foundation_calculator/core/utils.py:73-85 | name/description/date/unit always pass; any other entry passes exactly when it is numeric and non-negative, or numeric under an eccentricity key; it is rejected as not numeric exactly when parsing fails |
| Parameters.ValidateParameters | foundation_calculator/core/utils.py:57-87 | the two early-return loops return the (ok, message) pair of `Validate`, with the source's messages |
| Parameters.MissingFieldReportedFirst | foundation_calculator/core/utils.py:69-71 | a missing required field is reported before any value check, and the earliest missing one in the required list is named |
| Parameters.FirstFailingEntryReported | foundation_calculator/core/utils.py:74-85 | with all fields present, the earliest failing entry in record order decides the message: not numeric, or negative outside the eccentricity keys |
| Parameters.ValidIff | foundation_calculator/core/utils.py:57-87 | accepted exactly when every required field is present and every entry passes its check |
| Parameters.FirstMissingIsFirst | foundation_calculator/core/utils.py:69-71 | the first missing field in list order is the one found |
| Parameters.FirstMissingNone | foundation_calculator/core/utils.py:69-71 | nothing is missing exactly when every required field is a key |
| Parameters.FirstInvalidIsFirst | foundation_calculator/core/utils.py:74-85 | the first failing entry in record order is the one reported |
| Parameters.FirstInvalidNone | foundation_calculator/core/utils.py:74-85 | nothing is reported exactly when every entry passes |
| Parameters.SkippedKeysNeverChecked | foundation_calculator/core/utils.py:76-78 | replacing the value of a skipped key by anything leaves the outcome unchanged |
| Parameters.WellTypedIsValid | foundation_calculator/core/utils.py:57-87 | a record whose texts sit only under skipped keys and whose numbers are non-negative passes for every required list it covers, whatever the text parser does |
| Parameters.DefaultParameters | foundation_calculator/core/utils.py:137-172 | name, date (supplied by the caller) and description, then the sixteen engine fields in order; every number is non-negative |
| Parameters.PumpFoundation | foundation_calculator/core/utils.py:183-202 | name and description, then the sixteen engine fields; every number is non-negative |
| Parameters.CompressorFoundation | foundation_calculator/core/utils.py:203-222 | name and description, then the sixteen engine fields; every number is non-negative |
| Parameters.ExampleCases | foundation_calculator/core/utils.py:175-222 | two records, each keyed by name, description and the sixteen engine fields, and well typed |
| Parameters.DefaultParametersAreValid | foundation_calculator/core/utils.py:137-172 | the defaults pass validation against the engine fields |
| Parameters.ExampleCasesAreValid | foundation_calculator/core/utils.py:175-222 | both examples pass validation against the engine fields |
| Units.Factor | foundation_calculator/core/utils.py:103-123 | a listed unit's size in its table's base unit is positive and is the entry of the one table that lists it |
| Units.TablesDisjoint | foundation_calculator/core/utils.py:103-123 | no unit name appears in two tables |
| Units.ConvertUnits | foundation_calculator/core/utils.py:90-134 | refused (never returned unconverted) exactly when the units do not share a table; otherwise result × factor(to) = value × factor(from) |
| Units.ConvertToSameUnit | foundation_calculator/core/utils.py:126-131 | converting a listed unit to itself is the identity |
| Units.ConvertRoundTrip | foundation_calculator/core/utils.py:126-131 | converting there and back returns the original value |
| Units.ConvertComposes | foundation_calculator/core/utils.py:126-131 | two conversions within a table equal the direct one |
| Units.SameTableTransitive | foundation_calculator/core/utils.py:126-131 | sharing a table is transitive |
| Units.ConversionExamples | foundation_calculator/core/utils.py:90-134 | 1 MPa = 1000 kPa; 250 cm = 2.5 m; m → kN and psi → kPa are refused |
| Coupling.FoundationMass | foundation_calculator/ui/main_window.py:320-323 | mass × 9.81 = 1000 × 25 × volume, and the mass is positive for a real block |
| Coupling.TotalMass | foundation_calculator/ui/main_window.py:320-324 | total minus equipment is the block mass; the total is positive for a real block and non-negative equipment mass, which the dynamic constructor requires |
| Coupling.FoundationMassMatchesSelfWeight | foundation_calculator/ui/main_window.py:320-323 | without backfill, mass × 9.81 = 1000 × the static self weight; with backfill the self weight is strictly larger |

## Left out

- Floating point. All arithmetic is exact `real`. IEEE rounding is not
  modelled, including the rounding in `np.linspace` and at the comparison
  thresholds.
- `sqrt` and `pi` are not computed. They are the caller-supplied `Numerics`
  record, constrained by `Numerics.Valid()`.
- Dynamics.Transmissibility: requires a positive spring constant, a positive
  natural frequency and a positive damping ratio (`Admissible`).
  - A zero spring constant gives a zero natural frequency, and so an
    infinite ratio. For that ratio the source's result is NaN (infinity over
    infinity).
  - With a damping ratio of zero or below, the source still computes
    ordinary finite values, except at r = 1 with zero damping, where the
    result is infinite. The model does not cover those inputs.
  - The damping input of the user interface is limited to 0.01–0.2
    (`ui/input_panels.py:315`), so every damping ratio the tool passes in
    is positive.
- Dynamics.Amplitude: the same precondition as Transmissibility.
  - With a zero spring constant the source's division by the spring constant
    raises an error.
  - With zero damping at r = 1 the result is infinite.
  - Negative damping is handled as in Transmissibility.
- Dynamics.RunAnalysis: the same precondition (`Admissible`). Its contract
  then guarantees that the frequency ratio is finite.
- Dynamics.DynamicAnalysis.CalculateResponseCurve: requires `Admissible` of
  the object's state. That condition does not depend on the frequency, so it
  holds at every sample. The method does not model `np.array` as a separate
  type.
- Dynamics.DynamicAnalysis.constructor: requires a positive total mass and a
  non-negative spring constant, so that `sqrt(k/m)` is defined. With zero mass
  the source divides by zero. With a negative spring constant (a negative soil
  coefficient) the source's square root returns NaN.
- The Python default arguments (damping 0.05, eccentricity (0, 0), friction
  0.45) are not modelled as separate entry points. Callers pass every value.
- Parameters.ValidateParameters: values are numbers or texts. JSON booleans,
  nulls, lists and objects are not modelled, and `float()` raises a
  `TypeError` on the last three, which the source does not catch. Text parsing
  by `float()` is the caller-supplied `parse` function.
- Units.ConvertUnits: the source raises `ValueError` for unsupported pairs.
  The model returns `Unsupported(from, to)` instead. The error message's text
  is not modelled.
- Parameters.DefaultParameters: the date comes from the system clock in the
  source. Here it is a parameter.
- The storage functions `save_parameters` and `load_parameters` are file I/O
  and are not part of this model.
- The user interface, plotting and report generation are not part of this
  model, apart from the mass derivation in `Coupling`.
