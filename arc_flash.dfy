/** The arc-flash calculation engine (backend/app/services/arc_flash.py):
    arcing current, incident energy, PPE category, arc-flash boundary and
    warnings, in the simplified closed form the calculator uses. */
module ArcFlash {
  import opened Wrappers
  import opened RealMath
  import opened Equipment

  /** Enclosure correction factor Cf per enclosure type. */
  const EnclosureFactors: map<EnclosureType, real> :=
    map[VCB := 1.0, VCBB := 0.973, HCB := 1.056, VOA := 1.0, HOA := 1.0]

  // K of the arcing-current equation.
  const EnclosedArcingConstant: real := -0.153
  const OpenAirArcingConstant: real := -0.097

  /** The 4.184 factor of the incident-energy equation. */
  const EnergyFactor: real := 4.184
  /** The 4 of 4 * pi * D^2, the area of a sphere of radius D over which the
      arc energy spreads. */
  const SphereFactor: real := 4.0
  /** Incident energy at the arc-flash boundary, cal/cm². */
  const BoundaryEnergy: real := 1.2
  /** The exponent n of Ia in the boundary equation. */
  const BoundaryExponent: real := 1.0

  /** Lower edges of PPE categories 1, 2, 3 and 4, cal/cm². */
  const PpeThresholds: seq<real> := [1.2, 4.0, 8.0, 25.0]

  const SlowClearingTime: real := 0.5
  const HighIncidentEnergy: real := 40.0
  const ClearingTimeWarning: string := "Clearing time > 0.5s may indicate inadequate protection"
  const HighEnergyWarning: string := "Incident energy > 40 cal/cm² - consider additional protection"

  const UnknownCategory: string := "Unknown category"
  const PpeDescriptions: map<int, string> := map[
    0 := "Non-melting or untreated natural fiber shirt and pants",
    1 := "FR shirt and pants (4 cal/cm²)",
    2 := "FR shirt and pants + FR coverall (8 cal/cm²)",
    3 := "FR shirt and pants + FR coverall + FR jacket (25 cal/cm²)",
    4 := "FR shirt and pants + multilayer flash suit (40+ cal/cm²)"]

  /** The protective equipment a category requires; a fallback text for any
      integer that is not a category. */
  function PpeDescription(category: int): (s: string)
    ensures s == UnknownCategory <==> !(MinPpeCategory <= category <= MaxPpeCategory)
    ensures MinPpeCategory <= category <= MaxPpeCategory ==> s == PpeDescriptions[category]
  {
    if category in PpeDescriptions then PpeDescriptions[category] else UnknownCategory
  }

  /** `ENCLOSURE_FACTORS[enclosure_type]`: every enclosure type has a factor. */
  function CorrectionFactor(e: EnclosureType): (cf: real)
    ensures e in EnclosureFactors && cf == EnclosureFactors[e]
    ensures 0.973 <= cf <= 1.056
  {
    EnclosureFactorsTotal(e);
    EnclosureFactors[e]
  }

  lemma EnclosureFactorsTotal(e: EnclosureType)
    ensures e in EnclosureFactors
  {
    match e
    case VCB =>
    case VCBB =>
    case HCB =>
    case VOA =>
    case HOA =>
  }

  predicate IsEnclosed(e: EnclosureType) {
    e in [VCB, VCBB, HCB]
  }

  /** K: the enclosed constant for VCB, VCBB and HCB, the open-air one otherwise. */
  function ArcingConstant(e: EnclosureType): (k: real)
    ensures k == EnclosedArcingConstant <==> e == VCB || e == VCBB || e == HCB
    ensures k == OpenAirArcingConstant <==> e == VOA || e == HOA
  {
    if IsEnclosed(e) then EnclosedArcingConstant
    else
      assert e != VCB && e != VCBB && e != HCB;
      OpenAirArcingConstant
  }

  /** lg(Ia), with the voltage in kV and the gap in mm. */
  function LogArcingCurrent(m: MathLib, eq: EquipmentInput): (lgIa: real) {
    var voltageKv := eq.voltage / 1000.0;
    var lgIbf := m.log10(eq.boltedFaultCurrent);
    var gap := eq.electrodeGap;
    ArcingConstant(eq.enclosureType)
    + 0.662 * lgIbf
    + 0.0966 * voltageKv
    + 0.000526 * gap
    + 0.5588 * voltageKv * lgIbf
    - 0.00304 * gap * lgIbf
  }

  /** Ia = 10 ** lg(Ia). */
  function ArcingCurrent(m: MathLib, eq: EquipmentInput): (ia: real)
    ensures Sound(m) ==> 0.0 < ia
  {
    m.pow10(LogArcingCurrent(m, eq))
  }

  /** The exponent n of Ia: the open-air and the enclosed branch both give 1.0. */
  function Exponent(e: EnclosureType): (n: real)
    ensures n == 1.0
  {
    if e in [VOA, HOA] then 1.0 else 1.0
  }

  /** 4.184 * Cf * Ia * t: the numerator of the incident-energy and of the
      boundary equation once Ia ** n is Ia. */
  function EnergyNumerator(eq: EquipmentInput, ia: real): (numerator: real) {
    EnergyFactor * CorrectionFactor(eq.enclosureType) * ia * eq.faultClearingTime
  }

  lemma EnergyNumeratorPositive(eq: EquipmentInput, ia: real)
    requires 0.0 < ia && 0.0 < eq.faultClearingTime
    ensures 0.0 < EnergyNumerator(eq, ia)
  {
    ProductPositive(EnergyFactor, CorrectionFactor(eq.enclosureType));
    ProductPositive(EnergyFactor * CorrectionFactor(eq.enclosureType), ia);
    ProductPositive(EnergyFactor * CorrectionFactor(eq.enclosureType) * ia, eq.faultClearingTime);
  }

  /** 4 * pi * D ** 2 is positive for any D other than 0. */
  lemma SphereAreaPositive(m: MathLib, d: real)
    requires Sound(m) && d != 0.0
    ensures 0.0 < SphereFactor * m.pi * m.pow(d, 2.0)
  {
    ProductPositive(SphereFactor, m.pi);
    ProductPositive(SphereFactor * m.pi, m.pow(d, 2.0));
  }

  /** E = 4.184 * Cf * Ia ** n * t / (4 * pi * D ** 2), in cal/cm². */
  function IncidentEnergy(m: MathLib, eq: EquipmentInput, ia: real): (energy: real)
    requires Sound(m) && eq.workingDistance != 0.0
  {
    var cf := CorrectionFactor(eq.enclosureType);
    var n := Exponent(eq.enclosureType);
    var d := eq.workingDistance;
    SphereAreaPositive(m, d);
    (EnergyFactor * cf * m.pow(ia, n) * eq.faultClearingTime) / (SphereFactor * m.pi * m.pow(d, 2.0))
  }

  /** The energy equation with Ia ** n = Ia; the energy is positive when the
      arcing current and the clearing time are. */
  lemma IncidentEnergyFormula(m: MathLib, eq: EquipmentInput, ia: real)
    requires Sound(m) && eq.workingDistance != 0.0
    ensures 0.0 < SphereFactor * m.pi * m.pow(eq.workingDistance, 2.0)
    ensures IncidentEnergy(m, eq, ia)
         == EnergyNumerator(eq, ia) / (SphereFactor * m.pi * m.pow(eq.workingDistance, 2.0))
    ensures 0.0 < ia && 0.0 < eq.faultClearingTime ==> 0.0 < IncidentEnergy(m, eq, ia)
  {
    var area := SphereFactor * m.pi * m.pow(eq.workingDistance, 2.0);
    SphereAreaPositive(m, eq.workingDistance);
    assert m.pow(ia, Exponent(eq.enclosureType)) == ia;
    SameMiddleFactor(EnergyFactor * CorrectionFactor(eq.enclosureType), m.pow(ia, Exponent(eq.enclosureType)), ia,
                     eq.faultClearingTime);
    SameQuotient(
      EnergyFactor * CorrectionFactor(eq.enclosureType) * m.pow(ia, Exponent(eq.enclosureType)) * eq.faultClearingTime,
      EnergyNumerator(eq, ia), area);
    if 0.0 < ia && 0.0 < eq.faultClearingTime {
      EnergyNumeratorPositive(eq, ia);
      QuotientPositive(EnergyNumerator(eq, ia), area);
    }
  }

  /** The square of the arc-flash boundary: the numerator 4.184 * Cf * Ia ** n * t
      over the denominator 4 * pi * 1.2. */
  function BoundarySquared(m: MathLib, eq: EquipmentInput, ia: real): (squared: real)
    requires Sound(m)
  {
    var cf := CorrectionFactor(eq.enclosureType);
    var n := BoundaryExponent;
    ProductPositive(SphereFactor, m.pi);
    ProductPositive(SphereFactor * m.pi, BoundaryEnergy);
    (EnergyFactor * cf * m.pow(ia, n) * eq.faultClearingTime) / (SphereFactor * m.pi * BoundaryEnergy)
  }

  /** The distance at which the incident energy falls to 1.2 cal/cm², in inches. */
  function ArcFlashBoundary(m: MathLib, eq: EquipmentInput, ia: real): (boundary: real)
    requires Sound(m)
  {
    m.sqrt(BoundarySquared(m, eq, ia))
  }

  /** The boundary equation with Ia ** n = Ia. */
  lemma ArcFlashBoundaryFormula(m: MathLib, eq: EquipmentInput, ia: real)
    requires Sound(m)
    ensures 0.0 < SphereFactor * m.pi * BoundaryEnergy
    ensures BoundarySquared(m, eq, ia) == EnergyNumerator(eq, ia) / (SphereFactor * m.pi * BoundaryEnergy)
    ensures ArcFlashBoundary(m, eq, ia) == m.sqrt(BoundarySquared(m, eq, ia))
  {
    ProductPositive(SphereFactor, m.pi);
    ProductPositive(SphereFactor * m.pi, BoundaryEnergy);
    assert m.pow(ia, BoundaryExponent) == ia;
    SameMiddleFactor(EnergyFactor * CorrectionFactor(eq.enclosureType), m.pow(ia, BoundaryExponent), ia,
                     eq.faultClearingTime);
    SameQuotient(
      EnergyFactor * CorrectionFactor(eq.enclosureType) * m.pow(ia, BoundaryExponent) * eq.faultClearingTime,
      EnergyNumerator(eq, ia), SphereFactor * m.pi * BoundaryEnergy);
  }

  /** The boundary is positive when the arcing current and the clearing time are. */
  lemma ArcFlashBoundaryPositive(m: MathLib, eq: EquipmentInput, ia: real)
    requires Sound(m) && 0.0 < ia && 0.0 < eq.faultClearingTime
    ensures 0.0 < ArcFlashBoundary(m, eq, ia)
  {
    ArcFlashBoundaryFormula(m, eq, ia);
    EnergyNumeratorPositive(eq, ia);
    QuotientPositive(EnergyNumerator(eq, ia), SphereFactor * m.pi * BoundaryEnergy);
    SqrtPositive(m, EnergyNumerator(eq, ia) / (SphereFactor * m.pi * BoundaryEnergy));
  }

  /** NFPA 70E category of an incident energy: each band is closed below and
      open above, so a threshold value belongs to the higher category. */
  function PpeCategory(energy: real): (category: int)
    ensures MinPpeCategory <= category <= MaxPpeCategory
    ensures category > MinPpeCategory ==> PpeThresholds[category - 1] <= energy
    ensures category < MaxPpeCategory ==> energy < PpeThresholds[category]
  {
    if energy < 1.2 then 0
    else if energy < 4.0 then 1
    else if energy < 8.0 then 2
    else if energy < 25.0 then 3
    else 4
  }

  /** How many of the thresholds `energy` has reached. */
  function ThresholdsReached(thresholds: seq<real>, energy: real): (reached: nat)
  {
    if thresholds == [] then 0
    else (if thresholds[0] <= energy then 1 else 0) + ThresholdsReached(thresholds[1..], energy)
  }

  /** Reaching more energy never reaches fewer thresholds. */
  lemma {:induction false} ThresholdsReachedMonotone(thresholds: seq<real>, lower: real, higher: real)
    requires lower <= higher
    ensures ThresholdsReached(thresholds, lower) <= ThresholdsReached(thresholds, higher)
  {
    if thresholds != [] {
      ThresholdsReachedMonotone(thresholds[1..], lower, higher);
    }
  }

  /** The category is the number of thresholds of the table the energy has reached. */
  lemma {:induction false} PpeCategoryCountsThresholds(energy: real)
    ensures PpeCategory(energy) == ThresholdsReached(PpeThresholds, energy)
  {
    var t := PpeThresholds;
    assert t[1..][1..][1..][1..] == [];
    assert ThresholdsReached(t[1..][1..][1..], energy) == if 25.0 <= energy then 1 else 0;
    assert ThresholdsReached(t[1..][1..], energy) == (if 8.0 <= energy then 1 else 0) + (if 25.0 <= energy then 1 else 0);
    assert ThresholdsReached(t[1..], energy)
        == (if 4.0 <= energy then 1 else 0) + (if 8.0 <= energy then 1 else 0) + (if 25.0 <= energy then 1 else 0);
  }

  /** The category is non-decreasing in the incident energy. */
  lemma PpeCategoryMonotone(lower: real, higher: real)
    requires lower <= higher
    ensures PpeCategory(lower) <= PpeCategory(higher)
  {
    PpeCategoryCountsThresholds(lower);
    PpeCategoryCountsThresholds(higher);
    ThresholdsReachedMonotone(PpeThresholds, lower, higher);
  }

  /** Each threshold opens the next category. */
  lemma ThresholdOpensNextCategory(k: nat)
    requires k < |PpeThresholds|
    ensures PpeCategory(PpeThresholds[k]) == k + 1
  {
  }

  /** The warnings, in order: the clearing-time warning when t > 0.5 s, then
      the energy warning when the unrounded energy exceeds 40 cal/cm². */
  function Warnings(clearingTime: real, energy: real): (warnings: seq<string>)
    ensures |warnings| <= 2
    ensures ClearingTimeWarning in warnings <==> clearingTime > SlowClearingTime
    ensures HighEnergyWarning in warnings <==> energy > HighIncidentEnergy
    ensures forall w :: w in warnings ==> w == ClearingTimeWarning || w == HighEnergyWarning
    ensures |warnings| == 2 ==> warnings == [ClearingTimeWarning, HighEnergyWarning]
  {
    (if clearingTime > SlowClearingTime then [ClearingTimeWarning] else [])
    + (if energy > HighIncidentEnergy then [HighEnergyWarning] else [])
  }

  /** The incident energy before rounding, from which the category and the
      warnings are derived. */
  function UnroundedEnergy(m: MathLib, eq: EquipmentInput): (energy: real)
    requires Sound(m) && eq.Valid()
  {
    IncidentEnergy(m, eq, ArcingCurrent(m, eq))
  }

  /** The result `calculate` returns for a validated input. */
  function CalculationFor(m: MathLib, eq: EquipmentInput): (r: CalculationResult)
    requires Sound(m) && eq.Valid()
    ensures r.Valid()
    ensures r.equipmentName == eq.name
    ensures r.arcDuration == eq.faultClearingTime
    ensures r.correctionFactor == CorrectionFactor(eq.enclosureType)
    ensures r.ppeCategory == PpeCategory(UnroundedEnergy(m, eq))
    ensures r.warnings == Warnings(eq.faultClearingTime, UnroundedEnergy(m, eq))
    ensures r.incidentEnergy == m.round(UnroundedEnergy(m, eq), 2)
    ensures r.arcFlashBoundary == m.round(ArcFlashBoundary(m, eq, ArcingCurrent(m, eq)), 1)
    ensures r.arcingCurrent == m.round(ArcingCurrent(m, eq), 0)
  {
    var ia := ArcingCurrent(m, eq);
    var energy := IncidentEnergy(m, eq, ia);
    var built := NewCalculationResult(
      eq.name, m.round(energy, 2), m.round(ArcFlashBoundary(m, eq, ia), 1), PpeCategory(energy),
      m.round(ia, 0), eq.faultClearingTime, CorrectionFactor(eq.enclosureType),
      Some(Warnings(eq.faultClearingTime, energy)));
    built.value
  }

  /** `calculate`: the five steps, with the warnings collected into a list. */
  method Calculate(m: MathLib, eq: EquipmentInput) returns (r: CalculationResult)
    requires Sound(m) && eq.Valid()
    ensures r == CalculationFor(m, eq)
  {
    var warnings: seq<string> := [];
    var ia := ArcingCurrent(m, eq);
    var energy := IncidentEnergy(m, eq, ia);
    var category := PpeCategory(energy);
    var boundary := ArcFlashBoundary(m, eq, ia);
    var cf := CorrectionFactor(eq.enclosureType);
    if eq.faultClearingTime > SlowClearingTime {
      warnings := warnings + [ClearingTimeWarning];
    }
    if energy > HighIncidentEnergy {
      warnings := warnings + [HighEnergyWarning];
    }
    var built := NewCalculationResult(
      eq.name, m.round(energy, 2), m.round(boundary, 1), category, m.round(ia, 0),
      eq.faultClearingTime, cf, Some(warnings));
    r := built.value;
  }

  /** For a validated input the arcing current, the incident energy and the
      boundary are all positive. */
  lemma EngineQuantitiesPositive(m: MathLib, eq: EquipmentInput)
    requires Sound(m) && eq.Valid()
    ensures 0.0 < ArcingCurrent(m, eq)
    ensures 0.0 < UnroundedEnergy(m, eq)
    ensures 0.0 < ArcFlashBoundary(m, eq, ArcingCurrent(m, eq))
  {
    IncidentEnergyFormula(m, eq, ArcingCurrent(m, eq));
    ArcFlashBoundaryPositive(m, eq, ArcingCurrent(m, eq));
  }

  /** With everything else fixed, a longer clearing time gives strictly more
      incident energy. */
  lemma LongerClearingTimeRaisesEnergy(m: MathLib, eq: EquipmentInput, faster: real, slower: real)
    requires Sound(m) && eq.Valid()
    requires 0.0 < faster < slower <= MaxClearingTime
    ensures UnroundedEnergy(m, eq.(faultClearingTime := faster))
          < UnroundedEnergy(m, eq.(faultClearingTime := slower))
  {
    var quick, slow := eq.(faultClearingTime := faster), eq.(faultClearingTime := slower);
    var ia := ArcingCurrent(m, eq);
    ArcingCurrentIgnoresClearingTime(m, eq, faster);
    ArcingCurrentIgnoresClearingTime(m, eq, slower);
    ClearingTimeScalesNumerator(eq, ia, faster, slower);
    IncidentEnergyFormula(m, quick, ia);
    IncidentEnergyFormula(m, slow, ia);
    DivideStrict(EnergyNumerator(quick, ia), EnergyNumerator(slow, ia),
                 SphereFactor * m.pi * m.pow(eq.workingDistance, 2.0));
  }

  /** With everything else fixed, a longer clearing time gives a strictly
      larger arc-flash boundary. */
  lemma LongerClearingTimeWidensBoundary(m: MathLib, eq: EquipmentInput, faster: real, slower: real)
    requires Sound(m) && eq.Valid()
    requires 0.0 < faster < slower <= MaxClearingTime
    ensures ArcFlashBoundary(m, eq.(faultClearingTime := faster), ArcingCurrent(m, eq.(faultClearingTime := faster)))
          < ArcFlashBoundary(m, eq.(faultClearingTime := slower), ArcingCurrent(m, eq.(faultClearingTime := slower)))
  {
    var quick, slow := eq.(faultClearingTime := faster), eq.(faultClearingTime := slower);
    var ia := ArcingCurrent(m, eq);
    ArcingCurrentIgnoresClearingTime(m, eq, faster);
    ArcingCurrentIgnoresClearingTime(m, eq, slower);
    ClearingTimeScalesNumerator(eq, ia, faster, slower);
    ArcFlashBoundaryFormula(m, quick, ia);
    ArcFlashBoundaryFormula(m, slow, ia);
    var threshold := SphereFactor * m.pi * BoundaryEnergy;
    DivideStrict(EnergyNumerator(quick, ia), EnergyNumerator(slow, ia), threshold);
    EnergyNumeratorPositive(quick, ia);
    QuotientPositive(EnergyNumerator(quick, ia), threshold);
  }

  /** The arcing current does not depend on the clearing time. */
  lemma ArcingCurrentIgnoresClearingTime(m: MathLib, eq: EquipmentInput, t: real)
    ensures ArcingCurrent(m, eq.(faultClearingTime := t)) == ArcingCurrent(m, eq)
  {
    assert LogArcingCurrent(m, eq.(faultClearingTime := t)) == LogArcingCurrent(m, eq);
  }

  /** The numerator grows strictly with the clearing time. */
  lemma ClearingTimeScalesNumerator(eq: EquipmentInput, ia: real, faster: real, slower: real)
    requires 0.0 < ia && 0.0 < faster < slower
    ensures EnergyNumerator(eq.(faultClearingTime := faster), ia) < EnergyNumerator(eq.(faultClearingTime := slower), ia)
  {
    ProductPositive(EnergyFactor, CorrectionFactor(eq.enclosureType));
    ProductPositive(EnergyFactor * CorrectionFactor(eq.enclosureType), ia);
    MultiplyStrict(EnergyFactor * CorrectionFactor(eq.enclosureType) * ia, faster, slower);
  }

  /** The boundary solves the energy equation: at working distance D =
      boundary the incident energy is exactly 1.2 cal/cm². */
  lemma BoundaryReachesThresholdEnergy(m: MathLib, eq: EquipmentInput, ia: real)
    requires Sound(m) && 0.0 < ia && 0.0 < eq.faultClearingTime
    ensures 0.0 < ArcFlashBoundary(m, eq, ia)
    ensures IncidentEnergy(m, eq.(workingDistance := ArcFlashBoundary(m, eq, ia)), ia) == BoundaryEnergy
  {
    var boundary := ArcFlashBoundary(m, eq, ia);
    ArcFlashBoundaryFormula(m, eq, ia);
    ArcFlashBoundaryPositive(m, eq, ia);
    var numerator := EnergyNumerator(eq, ia);
    EnergyNumeratorPositive(eq, ia);
    var squared := numerator / (SphereFactor * m.pi * BoundaryEnergy);
    QuotientPositive(numerator, SphereFactor * m.pi * BoundaryEnergy);
    assert m.pow(boundary, 2.0) == squared;

    var there := eq.(workingDistance := boundary);
    IncidentEnergyFormula(m, there, ia);
    assert EnergyNumerator(there, ia) == numerator;
    var thereArea := SphereFactor * m.pi * m.pow(there.workingDistance, 2.0);
    SameQuotient(EnergyNumerator(there, ia), numerator, thereArea);
    assert thereArea == SphereFactor * m.pi * squared;
    ProductPositive(SphereFactor, m.pi);
    SameDenominator(numerator, thereArea, SphereFactor * m.pi * squared);
    SolveQuotient(numerator, SphereFactor * m.pi, BoundaryEnergy);
  }

  /** For the same other inputs, vertical open air (K = -0.097) gives a
      larger arcing current and incident energy than VCB (K = -0.153), though
      both have Cf = 1.0. */
  lemma OpenAirExceedsVcb(m: MathLib, eq: EquipmentInput)
    requires Sound(m) && eq.Valid() && eq.enclosureType == VCB
    ensures CorrectionFactor(VCB) == CorrectionFactor(VOA)
    ensures ArcingCurrent(m, eq) < ArcingCurrent(m, eq.(enclosureType := VOA))
    ensures UnroundedEnergy(m, eq) < UnroundedEnergy(m, eq.(enclosureType := VOA))
  {
    var open := eq.(enclosureType := VOA);
    assert LogArcingCurrent(m, eq) < LogArcingCurrent(m, open);
    var ia, ja := ArcingCurrent(m, eq), ArcingCurrent(m, open);
    assert ia < ja;
    ProductPositive(EnergyFactor, CorrectionFactor(VCB));
    MultiplyStrict(EnergyFactor * CorrectionFactor(VCB), ia, ja);
    MultiplyStrict(eq.faultClearingTime, EnergyFactor * CorrectionFactor(VCB) * ia, EnergyFactor * CorrectionFactor(VCB) * ja);
    assert EnergyNumerator(eq, ia) < EnergyNumerator(open, ja);
    IncidentEnergyFormula(m, eq, ia);
    IncidentEnergyFormula(m, open, ja);
    DivideStrict(EnergyNumerator(eq, ia), EnergyNumerator(open, ja),
                 SphereFactor * m.pi * m.pow(eq.workingDistance, 2.0));
  }
}
