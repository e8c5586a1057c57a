# Arc-flash calculator: a Dafny model of the engine

This project models the core of a web calculator for arc-flash hazards. Given one piece of electrical equipment, the calculator computes:

- the arcing current;
- the incident energy at the working distance;
- the NFPA 70E protective-equipment (PPE) category;
- the arc-flash boundary;
- warnings.

It uses the simplified closed-form equations its code attributes to IEEE Std 1584-2018. The model follows those equations as the code writes them, not the full standard.

The model has five modules:

- `Equipment` (`equipment.dfy`, backend/app/models/equipment.py)
  - The enclosure and grounding enumerations.
  - The request record, its field bounds and its two validators.
  - Validation, modelled as the record library performs it: every field is checked in declaration order, and all failures are reported together.
  - The result record with its 0..4 category constraint.
- `ArcFlash` (`arc_flash.dfy`, backend/app/services/arc_flash.py)
  - The enclosure table, K, the arcing-current, energy and boundary equations, the PPE bands, the descriptions and the warnings.
  - `calculate`, as a method that builds its warning list step by step. It is proved equal to the function `CalculationFor`, which is the form the lemmas use.
- `Api` (`api.dfy`, the body of `calculate_arc_flash_detailed` in backend/app/main.py)
  - The five-step trace that the detailed endpoint returns beside the engine's result.
  - Proofs that the trace agrees with the engine.
- `RealMath` (`real_math.dfy`) and `Wrappers` (`wrappers.dfy`) are support modules. `Wrappers` holds the `Option` and `Result` datatypes.
  - The floating-point library the code calls (`math.log10`, `10 ** x`, `x ** y`, `math.sqrt`, `math.pi`, `round`) cannot be computed over Dafny's `real`. It is therefore a parameter of type `MathLib`.
  - The predicate `Sound` lists the only facts the proofs assume about it. These are: pi is positive; `10 ** x` is positive and strictly increasing; `x ** 1.0 == x`; a non-zero square is positive; `sqrt` of a non-negative number is non-negative, squaring it gives the number back, and `sqrt` is strictly increasing.
  - `d ** 2` is written `pow(d, 2.0)` accordingly.

Quantities are `real`. Energies are in cal/cm², distances in inches, the gap in mm, currents in A, voltages in V and times in s.

The code's PPE bands are closed below: an energy of exactly 1.2, 4, 8 or 25 cal/cm² falls in the higher category. The test at backend/app/tests/test_arc_flash.py:64-69 states the bands with `<=` on the upper edge instead. The model follows the code.

VCB, VOA and HOA share Cf = 1.0 (backend/app/services/arc_flash.py:21-27), so VCB and VOA differ only in K. The test at backend/app/tests/test_arc_flash.py:102-113 expects their energies to differ, and `ArcFlash.OpenAirExceedsVcb` states why: the open-air K gives the larger arcing current and energy.

The detailed endpoint takes lg of the result's arcing current after it has been rounded to a whole number of amperes (backend/app/main.py:218). For a validated input whose arcing current is below 0.5 A, e.g. Ibf = 0.5 A at 208 V with a 1 mm gap in a VCB, that is lg(0), which raises; the handler then answers HTTP 500 (backend/app/main.py:290-294). `Api.CalculateDetailed` models this failure.

## Model

| member | source | states |
|---|---|---|
| Equipment.ParseEnclosureType | backend/app/models/equipment.py:12-18 | a string names at most one enclosure type, and parsing finds the type whose value it is |
| Equipment.ParseGroundingType | backend/app/models/equipment.py:21-25 | a string names at most one grounding type, and parsing finds the type whose value it is |
| Equipment.GroundingOrDefault | backend/app/models/equipment.py:78-81 | an omitted grounding is solidly grounded; a given one must parse |
| Equipment.NameErrors | backend/app/models/equipment.py:31-36 | the name is rejected exactly when its length is outside 1..100, as too short or too long |
| Equipment.BoundErrors | backend/app/models/equipment.py:45-57 | a `gt=0, le=upper` field is rejected exactly when it is not in (0, upper]; zero is rejected as not greater than 0 |
| Equipment.ValidateVoltageRange | backend/app/models/equipment.py:83-89 | the validator rejects exactly the voltages under 208 V and otherwise returns the voltage unchanged |
| Equipment.ValidateGapForVoltage | backend/app/models/equipment.py:91-97 | the gap validator accepts every gap and returns it unchanged |
| Equipment.VoltageErrors | backend/app/models/equipment.py:38-43 | with the validator of lines 83-89 the voltage is accepted exactly when 208 <= v <= 15000; a non-positive voltage fails the bound, a positive one under 208 fails the validator |
| Equipment.GapErrors | backend/app/models/equipment.py:64-69 | the gap is accepted exactly when 0 < g <= 200 |
| Equipment.EnumErrors | backend/app/models/equipment.py:59-62 | an enumeration field fails exactly when its string names no member |
| Equipment.FieldErrors | backend/app/models/equipment.py:28-97 | a request has no field error exactly when every field is within its bounds and both enumerations parse |
| Equipment.Validate | backend/app/models/equipment.py:28-97 | validation succeeds exactly for in-scope requests, and then yields a valid input carrying the request's values, with solidly grounded by default; a failure lists at least one error |
| Equipment.ValidateRoundTrip | backend/app/models/equipment.py:28-81 | the request that carries an input validates back to that same input exactly when the input satisfies every field constraint |
| Equipment.LowVoltageRejected | backend/app/models/equipment.py:83-89 | any request under 208 V is rejected with a voltage error, whatever its other fields hold |
| Equipment.NewCalculationResult | backend/app/models/equipment.py:117-154 | a result can be built exactly when the category lies in 0..4; warnings default to the empty list |
| ArcFlash.PpeDescription | backend/app/services/arc_flash.py:33-42 | the description is total: the table text for categories 0..4, and "Unknown category" exactly for every other integer |
| ArcFlash.CorrectionFactor | backend/app/services/arc_flash.py:21-27 | every enclosure type has a table entry, and each factor lies between 0.973 and 1.056 |
| ArcFlash.EnclosureFactorsTotal | backend/app/services/arc_flash.py:21-27 | the enclosure table has an entry for every enclosure type |
| ArcFlash.ArcingConstant | backend/app/services/arc_flash.py:115-119 | K is -0.153 exactly for VCB, VCBB and HCB, and -0.097 exactly for VOA and HOA |
| ArcFlash.LogArcingCurrent | backend/app/services/arc_flash.py:121-129 | no contract of its own; `Api.ArcingCurrentTermsSum` relates it to the trace's six terms, and `ArcFlash.ArcingCurrentIgnoresClearingTime` and `ArcFlash.OpenAirExceedsVcb` state how it varies |
| ArcFlash.ArcingCurrent | backend/app/services/arc_flash.py:111-133 | Ia = 10 ** lg(Ia), with K chosen by enclosure class, is positive |
| ArcFlash.Exponent | backend/app/services/arc_flash.py:159-163 | both branches give the exponent n = 1.0 |
| ArcFlash.EnergyNumeratorPositive | backend/app/services/arc_flash.py:167 | 4.184 * Cf * Ia * t is positive when Ia and t are |
| ArcFlash.SphereAreaPositive | backend/app/services/arc_flash.py:167 | the denominator 4 * pi * D ** 2 is positive for D other than 0, so the energy is defined |
| ArcFlash.IncidentEnergy | backend/app/services/arc_flash.py:135-169 | no contract of its own; `ArcFlash.IncidentEnergyFormula`, `ArcFlash.LongerClearingTimeRaisesEnergy` and `ArcFlash.BoundaryReachesThresholdEnergy` carry its properties |
| ArcFlash.IncidentEnergyFormula | backend/app/services/arc_flash.py:154-169 | E = 4.184 * Cf * Ia * t / (4 * pi * D ** 2) once Ia ** 1.0 = Ia, and E > 0 when Ia and t are positive |
| ArcFlash.BoundarySquared | backend/app/services/arc_flash.py:206-216 | no contract of its own; the radicand of the boundary, stated by `ArcFlash.ArcFlashBoundaryFormula` |
| ArcFlash.ArcFlashBoundary | backend/app/services/arc_flash.py:193-218 | no contract of its own; `ArcFlash.ArcFlashBoundaryFormula`, `ArcFlash.ArcFlashBoundaryPositive`, `ArcFlash.LongerClearingTimeWidensBoundary` and `ArcFlash.BoundaryReachesThresholdEnergy` carry its properties |
| ArcFlash.ArcFlashBoundaryFormula | backend/app/services/arc_flash.py:206-218 | the boundary is the square root of 4.184 * Cf * Ia * t / (4 * pi * 1.2), with a positive denominator |
| ArcFlash.ArcFlashBoundaryPositive | backend/app/services/arc_flash.py:213-216 | the boundary is positive when Ia and t are |
| ArcFlash.PpeCategory | backend/app/services/arc_flash.py:182-191 | the category lies in 0..4, and the energy lies in that category's band: at or above the previous threshold, below the next |
| ArcFlash.ThresholdsReachedMonotone | backend/app/services/arc_flash.py:182-191 | more energy never reaches fewer thresholds |
| ArcFlash.PpeCategoryCountsThresholds | backend/app/services/arc_flash.py:182-191 | the category is the number of thresholds 1.2, 4, 8, 25 that the energy has reached |
| ArcFlash.PpeCategoryMonotone | backend/app/services/arc_flash.py:182-191 | the category is non-decreasing in the incident energy |
| ArcFlash.ThresholdOpensNextCategory | backend/app/services/arc_flash.py:182-191 | an energy exactly at 1.2, 4, 8 or 25 falls in category 1, 2, 3 or 4 |
| ArcFlash.Warnings | backend/app/services/arc_flash.py:76-84 | the clearing-time warning appears iff t > 0.5 and the energy warning iff E > 40; there are no other entries, at most two, and the clearing-time warning comes first |
| ArcFlash.CalculationFor | backend/app/services/arc_flash.py:86-95 | the result copies the name and the clearing time, echoes Cf, classifies and warns on the unrounded energy, and rounds energy, boundary and current to 2, 1 and 0 places |
| ArcFlash.Calculate | backend/app/services/arc_flash.py:44-95 | `calculate`, with its step-by-step warning list, returns exactly `CalculationFor` |
| ArcFlash.EngineQuantitiesPositive | backend/app/services/arc_flash.py:57-70 | for every validated input, the arcing current, the incident energy and the boundary are positive |
| ArcFlash.LongerClearingTimeRaisesEnergy | backend/app/services/arc_flash.py:154-169 | with everything else fixed, a longer clearing time gives strictly more incident energy |
| ArcFlash.LongerClearingTimeWidensBoundary | backend/app/services/arc_flash.py:206-218 | with everything else fixed, a longer clearing time gives a strictly larger boundary |
| ArcFlash.ArcingCurrentIgnoresClearingTime | backend/app/services/arc_flash.py:111-133 | the arcing current does not depend on the clearing time |
| ArcFlash.ClearingTimeScalesNumerator | backend/app/services/arc_flash.py:213 | 4.184 * Cf * Ia * t grows strictly with t |
| ArcFlash.BoundaryReachesThresholdEnergy | backend/app/services/arc_flash.py:199-216 | at working distance D = boundary the energy equation gives exactly 1.2 cal/cm², so the boundary solves it |
| ArcFlash.OpenAirExceedsVcb | backend/app/services/arc_flash.py:116-119 | VCB and VOA share Cf = 1.0, but the open-air K makes both the arcing current and the energy larger for VOA |
| Api.TraceConstant | backend/app/main.py:183-188 | the handler's K, chosen on the enclosure's string value, equals the engine's K, and its class is "Enclosed" exactly for the enclosed types and "Open Air" exactly for the others |
| Api.InputValidation | backend/app/main.py:191-197 | step 1 reports "✓ Valid" exactly for a voltage in 208..15000 and "✗ Out of range" otherwise |
| Api.ArcingCurrentTermsSum | backend/app/main.py:209-215 | before rounding, the six terms the trace lists add up to the engine's lg(Ia) |
| Api.ArcingCurrentTrace | backend/app/main.py:198-223 | step 2 shows the engine's K, names the enclosure class in the K description, lists six terms, and shows the result's arcing current |
| Api.IncidentEnergyTrace | backend/app/main.py:224-239 | step 3's Cf is the table entry, n is the engine's exponent, and Ia and E are the result's |
| Api.PpeCategoryTrace | backend/app/main.py:240-255 | step 4 shows the result's category and its description, which is never "Unknown category" |
| Api.BoundaryTrace | backend/app/main.py:256-269 | step 5 says "Within safe zone" iff the boundary is below the working distance, and the hazard message otherwise |
| Api.BuildSteps | backend/app/main.py:191-270 | the five steps agree with the input and the engine's result: the status is valid iff the voltage is in scope, the engine's K, Cf and n, the result's Ia, E, category and boundary, a known description, and "Within safe zone" iff AFB < D |
| Api.CalculateDetailed | backend/app/main.py:174-294 | the handler fails with status 500 and the math-domain message exactly when the result's rounded arcing current is not positive; otherwise the response carries exactly the result `calculate` gives for the input, and its trace agrees with that result: status valid, the engine's K, the same Cf, Ia, E and category, a known description, and the boundary verdict iff AFB < D |

## Left out

- The math library is a parameter, not computed: `math.log10`, `10 ** x`, `x ** y`, `math.sqrt`, `math.pi` and `round`. Only the facts in `RealMath.Sound` are assumed. Floating-point rounding error, overflow and the numeric examples of the test file are not modelled.
- Math domain errors inside the engine (`log10` of a non-positive number, `sqrt` of a negative one) are not modelled: for a validated input Ibf is positive and the boundary's radicand is positive. The one domain error the detailed endpoint can meet is modelled by `Api.CalculateDetailed`.
- ArcFlash.ArcingCurrent: only positivity is stated. The test file's "Ia is 10–30% of Ibf" and "Ia < Ibf" depend on real float values. At high voltage the simplified equation can give Ia above Ibf.
- Api.InputValidation: the trace's `input_voltage` is the text `f"{voltage}V"`. The model keeps the number, because number formatting is not modelled.
- Api.ArcingCurrentTrace: the rounded terms come from the `round` parameter. Only the unrounded terms are related to lg(Ia), in `Api.ArcingCurrentTermsSum`.
- The trace's fixed description, equation, threshold-table and reference strings are left out, as is the `ieee_references` dictionary (backend/app/main.py:273-282). They are constant text and depend on no input.
- The web layer is left out: the application object, the CORS middleware, and the root, health and standards endpoints. Of the mapping of exceptions to HTTP 500 only the math-domain case of the detailed endpoint is modelled, and the `DetailedCalculation` response is a value, not a serialised record.
- Record-library behaviour beyond the declared constraints is left out: lax coercion of strings to numbers, NaN and infinity, and the JSON schema examples. Requests are given already typed, with enumerations as strings.
