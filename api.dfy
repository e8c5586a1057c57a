/** The detailed-calculation endpoint (`calculate_arc_flash_detailed` in
    backend/app/main.py): the engine's result together with a step-by-step
    trace of the intermediate values. Only the values of the trace are
    modelled; its fixed description, equation and reference texts are not. */
module Api {
  import opened Wrappers
  import opened RealMath
  import opened Equipment
  import opened ArcFlash

  const ValidStatus: string := "✓ Valid"
  const OutOfRangeStatus: string := "✗ Out of range"
  const EnclosedClass: string := "Enclosed"
  const OpenAirClass: string := "Open Air"
  const WithinSafeZone: string := "Within safe zone"
  const HazardPresent: string := "Exceeds working distance - hazard present"

  /** The handler answers any exception with status 500 and the exception's text. */
  const InternalServerError: int := 500
  /** The text of the `ValueError` that `math.log10` raises outside its domain. */
  const DomainErrorDetail: string := "Calculation error: math domain error"

  /** Step 1: the input voltage and whether it lies in 208 V to 15 kV. */
  datatype InputValidationStep = InputValidationStep(inputVoltage: real, status: string)

  /** Step 2: the inputs of the arcing-current equation, its six terms rounded
      to four places, and its result. */
  datatype ArcingCurrentStep = ArcingCurrentStep(
    k: real,
    kDescription: string,
    boltedFaultCurrent: real,
    voltageKv: real,
    gapMm: real,
    lgIbf: real,
    terms: seq<real>,
    lgIa: real,
    ia: real)

  /** Step 3: the inputs of the incident-energy equation and its result. */
  datatype IncidentEnergyStep = IncidentEnergyStep(cf: real, ia: real, t: real, d: real, n: real, energy: real)

  /** Step 4: the energy, its PPE category and the protective equipment. */
  datatype PpeCategoryStep = PpeCategoryStep(incidentEnergy: real, category: int, description: string)

  /** Step 5: the arc-flash boundary and how it compares with the working distance. */
  datatype BoundaryStep = BoundaryStep(boundary: real, comparison: string)

  datatype CalculationSteps = CalculationSteps(
    validation: InputValidationStep,
    arcingCurrent: ArcingCurrentStep,
    incidentEnergy: IncidentEnergyStep,
    ppeCategory: PpeCategoryStep,
    arcFlashBoundary: BoundaryStep)

  /** The response: the engine's result and the trace. */
  datatype DetailedCalculation = DetailedCalculation(result: CalculationResult, steps: CalculationSteps)

  /** An error response. */
  datatype HttpError = HttpError(statusCode: int, detail: string)

  /** The handler's own choice of K and of the enclosure class, made on the
      enclosure's string value; it agrees with the engine's choice on every
      enclosure type. */
  function TraceConstant(e: EnclosureType): (r: (real, string))
    ensures r.0 == ArcingConstant(e)
    ensures r.1 == EnclosedClass <==> IsEnclosed(e)
    ensures r.1 == OpenAirClass <==> !IsEnclosed(e)
  {
    if e.Value() in ["VCB", "VCBB", "HCB"] then (-0.153, EnclosedClass) else (-0.097, OpenAirClass)
  }

  /** Step 1: "✓ Valid" exactly for a voltage inside the calculator's scope. */
  function InputValidation(voltage: real): (s: InputValidationStep)
    ensures s.inputVoltage == voltage
    ensures s.status == ValidStatus <==> VoltageInScope(voltage)
    ensures s.status == OutOfRangeStatus <==> !VoltageInScope(voltage)
  {
    InputValidationStep(voltage, if 208.0 <= voltage <= 15000.0 then ValidStatus else OutOfRangeStatus)
  }

  /** The six terms of lg(Ia) before rounding, in the order the trace lists them. */
  function ArcingCurrentTerms(k: real, lgIbf: real, voltageKv: real, gap: real): (terms: seq<real>)
    ensures |terms| == 6
  {
    [k, 0.662 * lgIbf, 0.0966 * voltageKv, 0.000526 * gap, 0.5588 * voltageKv * lgIbf, -0.00304 * gap * lgIbf]
  }

  function Sum(xs: seq<real>): (total: real) {
    if xs == [] then 0.0 else xs[0] + Sum(xs[1..])
  }

  /** A sum of six terms, written out. */
  lemma {:induction false} SumOfSix(xs: seq<real>)
    requires |xs| == 6
    ensures Sum(xs) == xs[0] + xs[1] + xs[2] + xs[3] + xs[4] + xs[5]
  {
    assert xs[5..][1..] == [];
    assert Sum(xs[5..]) == xs[5];
    assert xs[4..][1..] == xs[5..];
    assert Sum(xs[4..]) == xs[4] + xs[5];
    assert xs[3..][1..] == xs[4..];
    assert Sum(xs[3..]) == xs[3] + xs[4] + xs[5];
    assert xs[2..][1..] == xs[3..];
    assert Sum(xs[2..]) == xs[2] + xs[3] + xs[4] + xs[5];
    assert xs[1..][1..] == xs[2..];
    assert Sum(xs[1..]) == xs[1] + xs[2] + xs[3] + xs[4] + xs[5];
  }

  /** The six terms add up to the right-hand side of the lg(Ia) equation. */
  lemma TermsSum(k: real, lgIbf: real, voltageKv: real, gap: real)
    ensures Sum(ArcingCurrentTerms(k, lgIbf, voltageKv, gap))
         == k + 0.662 * lgIbf + 0.0966 * voltageKv + 0.000526 * gap + 0.5588 * voltageKv * lgIbf
            - 0.00304 * gap * lgIbf
  {
    var terms := ArcingCurrentTerms(k, lgIbf, voltageKv, gap);
    SumOfSix(terms);
    assert terms[5] == -(0.00304 * gap * lgIbf);
  }

  /** Before rounding, the terms the trace lists add up to the engine's lg(Ia). */
  lemma ArcingCurrentTermsSum(m: MathLib, eq: EquipmentInput)
    ensures Sum(ArcingCurrentTerms(TraceConstant(eq.enclosureType).0, m.log10(eq.boltedFaultCurrent),
                                   eq.voltage / 1000.0, eq.electrodeGap))
         == LogArcingCurrent(m, eq)
  {
    var k, lgIbf, voltageKv, gap := TraceConstant(eq.enclosureType).0, m.log10(eq.boltedFaultCurrent),
                                     eq.voltage / 1000.0, eq.electrodeGap;
    TermsSum(k, lgIbf, voltageKv, gap);
    assert k == ArcingConstant(eq.enclosureType);
    assert LogArcingCurrent(m, eq)
        == k + 0.662 * lgIbf + 0.0966 * voltageKv + 0.000526 * gap + 0.5588 * voltageKv * lgIbf
           - 0.00304 * gap * lgIbf;
  }

  /** Step 2, from the input and the engine's result. lg(Ia) is taken of the
      result's rounded arcing current, so it needs that current positive. */
  function ArcingCurrentTrace(m: MathLib, eq: EquipmentInput, result: CalculationResult): (s: ArcingCurrentStep)
    requires 0.0 < result.arcingCurrent
    ensures s.k == ArcingConstant(eq.enclosureType)
    ensures s.kDescription == "Constant for " + (if IsEnclosed(eq.enclosureType) then EnclosedClass else OpenAirClass) + " equipment"
    ensures s.ia == result.arcingCurrent
    ensures |s.terms| == 6
  {
    var voltageKv := eq.voltage / 1000.0;
    var lgIbf := m.log10(eq.boltedFaultCurrent);
    var (k, enclosureClass) := TraceConstant(eq.enclosureType);
    var terms := ArcingCurrentTerms(k, lgIbf, voltageKv, eq.electrodeGap);
    ArcingCurrentStep(
      k, "Constant for " + enclosureClass + " equipment", eq.boltedFaultCurrent, voltageKv, eq.electrodeGap,
      m.round(lgIbf, 4), seq(6, i requires 0 <= i < 6 => m.round(terms[i], 4)),
      m.round(m.log10(result.arcingCurrent), 4), result.arcingCurrent)
  }

  /** Step 3: the trace repeats the engine's Cf, exponent, clearing time and
      working distance, and shows the rounded energy of the result. */
  function IncidentEnergyTrace(eq: EquipmentInput, result: CalculationResult): (s: IncidentEnergyStep)
    ensures s.cf == CorrectionFactor(eq.enclosureType)
    ensures s.n == Exponent(eq.enclosureType)
    ensures s.ia == result.arcingCurrent && s.energy == result.incidentEnergy
    ensures s.t == eq.faultClearingTime && s.d == eq.workingDistance
  {
    EnclosureFactorsTotal(eq.enclosureType);
    IncidentEnergyStep(
      EnclosureFactors[eq.enclosureType], result.arcingCurrent, eq.faultClearingTime, eq.workingDistance, 1.0,
      result.incidentEnergy)
  }

  /** Step 4: the description of a valid result's category is never the
      fallback text. */
  function PpeCategoryTrace(result: CalculationResult): (s: PpeCategoryStep)
    requires result.Valid()
    ensures s.category == result.ppeCategory
    ensures s.description == PpeDescription(result.ppeCategory)
    ensures s.description != UnknownCategory
  {
    PpeCategoryStep(result.incidentEnergy, result.ppeCategory, PpeDescription(result.ppeCategory))
  }

  /** Step 5: "Within safe zone" exactly when the boundary is strictly inside
      the working distance, the hazard message otherwise. */
  function BoundaryTrace(boundary: real, workingDistance: real): (s: BoundaryStep)
    ensures s.boundary == boundary
    ensures s.comparison == WithinSafeZone <==> boundary < workingDistance
    ensures s.comparison == HazardPresent <==> workingDistance <= boundary
  {
    BoundaryStep(boundary, if boundary < workingDistance then WithinSafeZone else HazardPresent)
  }

  /** The five steps for a validated input and the result the engine gave for
      it: the trace repeats the result's values and agrees with the engine's
      choices. */
  function BuildSteps(m: MathLib, eq: EquipmentInput, result: CalculationResult): (s: CalculationSteps)
    requires result.Valid() && 0.0 < result.arcingCurrent
    ensures s.validation.status == ValidStatus <==> VoltageInScope(eq.voltage)
    ensures s.arcingCurrent.k == ArcingConstant(eq.enclosureType)
    ensures s.arcingCurrent.ia == result.arcingCurrent && s.incidentEnergy.ia == result.arcingCurrent
    ensures s.incidentEnergy.cf == CorrectionFactor(eq.enclosureType)
    ensures s.incidentEnergy.n == Exponent(eq.enclosureType)
    ensures s.incidentEnergy.energy == result.incidentEnergy
    ensures s.ppeCategory.category == result.ppeCategory
    ensures s.ppeCategory.description == PpeDescription(result.ppeCategory) != UnknownCategory
    ensures s.arcFlashBoundary.boundary == result.arcFlashBoundary
    ensures s.arcFlashBoundary.comparison == WithinSafeZone <==> result.arcFlashBoundary < eq.workingDistance
  {
    CalculationSteps(
      InputValidation(eq.voltage),
      ArcingCurrentTrace(m, eq, result),
      IncidentEnergyTrace(eq, result),
      PpeCategoryTrace(result),
      BoundaryTrace(result.arcFlashBoundary, eq.workingDistance))
  }

  /** `calculate_arc_flash_detailed`. The trace takes lg of the result's
      arcing current rounded to a whole number of amperes; when that is 0 the
      logarithm raises and the handler answers 500. Otherwise the response
      carries the engine's result for the same input and a trace that agrees
      with it. */
  function CalculateDetailed(m: MathLib, eq: EquipmentInput): (r: Result<DetailedCalculation, HttpError>)
    requires Sound(m) && eq.Valid()
    ensures r.Failure? <==> CalculationFor(m, eq).arcingCurrent <= 0.0
    ensures r.Failure? ==> r.error == HttpError(InternalServerError, DomainErrorDetail)
    ensures r.Success? ==> r.value.result == CalculationFor(m, eq)
    ensures r.Success? ==> r.value.steps.validation.status == ValidStatus
    ensures r.Success? ==> r.value.steps.arcingCurrent.k == ArcingConstant(eq.enclosureType)
    ensures r.Success? ==> r.value.steps.arcingCurrent.ia == r.value.result.arcingCurrent
    ensures r.Success? ==> r.value.steps.incidentEnergy.cf == r.value.result.correctionFactor
    ensures r.Success? ==> r.value.steps.incidentEnergy.energy == r.value.result.incidentEnergy
    ensures r.Success? ==> r.value.steps.ppeCategory.category == r.value.result.ppeCategory
    ensures r.Success? ==> r.value.steps.ppeCategory.description != UnknownCategory
    ensures r.Success? ==>
      (r.value.steps.arcFlashBoundary.comparison == WithinSafeZone
       <==> r.value.result.arcFlashBoundary < eq.workingDistance)
  {
    var result := CalculationFor(m, eq);
    if result.arcingCurrent <= 0.0 then Failure(HttpError(InternalServerError, DomainErrorDetail))
    else Success(DetailedCalculation(result, BuildSteps(m, eq, result)))
  }
}
