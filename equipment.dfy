/** The request and result records of the calculator, their field constraints
    and the validation that turns a raw request into an `EquipmentInput`
    (backend/app/models/equipment.py).

    Validation follows the record library the source declares its models with:
    every field is checked in declaration order, the numeric bounds of a field
    before its own validator, and all failures are reported together. */
module Equipment {
  import opened Wrappers

  /** Equipment enclosure configuration; `Value` is the string the request
      carries. */
  datatype EnclosureType = VCB | VCBB | HCB | VOA | HOA {
    function Value(): string {
      match this
      case VCB => "VCB"
      case VCBB => "VCBB"
      case HCB => "HCB"
      case VOA => "VOA"
      case HOA => "HOA"
    }
  }

  /** System grounding configuration. */
  datatype GroundingType = SolidlyGrounded | Ungrounded | ImpedanceGrounded {
    function Value(): string {
      match this
      case SolidlyGrounded => "solidly_grounded"
      case Ungrounded => "ungrounded"
      case ImpedanceGrounded => "impedance_grounded"
    }
  }

  /** The enclosure type whose value is `s`, if there is one. */
  function ParseEnclosureType(s: string): (r: Option<EnclosureType>)
    ensures r.Some? ==> r.value.Value() == s
    ensures forall e: EnclosureType :: e.Value() == s ==> r == Some(e)
  {
    if s == "VCB" then Some(VCB)
    else if s == "VCBB" then Some(VCBB)
    else if s == "HCB" then Some(HCB)
    else if s == "VOA" then Some(VOA)
    else if s == "HOA" then Some(HOA)
    else None
  }

  /** The grounding type whose value is `s`, if there is one. */
  function ParseGroundingType(s: string): (r: Option<GroundingType>)
    ensures r.Some? ==> r.value.Value() == s
    ensures forall g: GroundingType :: g.Value() == s ==> r == Some(g)
  {
    if s == "solidly_grounded" then Some(SolidlyGrounded)
    else if s == "ungrounded" then Some(Ungrounded)
    else if s == "impedance_grounded" then Some(ImpedanceGrounded)
    else None
  }

  /** The grounding field: solidly grounded when the request omits it. */
  function GroundingOrDefault(s: Option<string>): (r: Option<GroundingType>)
    ensures s.None? ==> r == Some(SolidlyGrounded)
    ensures s.Some? ==> r == ParseGroundingType(s.value)
  {
    match s
    case None => Some(SolidlyGrounded)
    case Some(v) => ParseGroundingType(v)
  }

  // Field bounds of EquipmentInput.
  const MinNameLength: int := 1
  const MaxNameLength: int := 100
  const MaxVoltage: real := 15000.0
  const MinVoltage: real := 208.0        // the IEEE 1584-2018 floor of validate_voltage_range
  const MaxBoltedFaultCurrent: real := 106000.0
  const MaxWorkingDistance: real := 120.0
  const MaxElectrodeGap: real := 200.0
  const MaxClearingTime: real := 2.0

  predicate NameLengthOk(s: string) {
    MinNameLength <= |s| <= MaxNameLength
  }

  predicate VoltageInScope(v: real) {
    MinVoltage <= v <= MaxVoltage
  }

  /** A field declared with `gt=0, le=upper`. */
  predicate PositiveAtMost(v: real, upper: real) {
    0.0 < v <= upper
  }

  /** A validated calculation request. */
  datatype EquipmentInput = EquipmentInput(
    name: string,
    voltage: real,               // Volts
    boltedFaultCurrent: real,    // Amperes
    workingDistance: real,       // inches
    enclosureType: EnclosureType,
    electrodeGap: real,          // millimeters
    faultClearingTime: real,     // seconds
    grounding: GroundingType)
  {
    /** What validation guarantees of every EquipmentInput. */
    predicate Valid() {
      && NameLengthOk(name)
      && VoltageInScope(voltage)
      && PositiveAtMost(boltedFaultCurrent, MaxBoltedFaultCurrent)
      && PositiveAtMost(workingDistance, MaxWorkingDistance)
      && PositiveAtMost(electrodeGap, MaxElectrodeGap)
      && PositiveAtMost(faultClearingTime, MaxClearingTime)
    }

    /** The request that carries exactly this input. */
    function ToRaw(): RawEquipment {
      RawEquipment(name, voltage, boltedFaultCurrent, workingDistance, enclosureType.Value(),
                   electrodeGap, faultClearingTime, Some(grounding.Value()))
    }
  }

  /** A request as received: enumerations as strings, grounding optional. */
  datatype RawEquipment = RawEquipment(
    name: string,
    voltage: real,
    boltedFaultCurrent: real,
    workingDistance: real,
    enclosureType: string,
    electrodeGap: real,
    faultClearingTime: real,
    grounding: Option<string>)
  {
    /** Every field within the bounds the model declares. */
    predicate WithinScope() {
      && NameLengthOk(name)
      && VoltageInScope(voltage)
      && PositiveAtMost(boltedFaultCurrent, MaxBoltedFaultCurrent)
      && PositiveAtMost(workingDistance, MaxWorkingDistance)
      && ParseEnclosureType(enclosureType).Some?
      && PositiveAtMost(electrodeGap, MaxElectrodeGap)
      && PositiveAtMost(faultClearingTime, MaxClearingTime)
      && GroundingOrDefault(grounding).Some?
    }
  }

  datatype FieldName =
    | NameField | VoltageField | BoltedFaultCurrentField | WorkingDistanceField
    | EnclosureTypeField | ElectrodeGapField | FaultClearingTimeField | GroundingField
    | PpeCategoryField

  datatype Violation =
    | StringTooShort(minLength: int)
    | StringTooLong(maxLength: int)
    | NotGreaterThan(lower: real)
    | NotGreaterOrEqual(least: real)
    | NotLessOrEqual(upper: real)
    | BelowIeeeMinimum(floor: real)
    | NotAnEnumMember

  datatype FieldError = FieldError(field: FieldName, violation: Violation)

  /** `min_length=1, max_length=100` on the name. */
  function NameErrors(s: string): (errs: seq<FieldError>)
    ensures errs == [] <==> NameLengthOk(s)
    ensures |s| < MinNameLength ==> errs == [FieldError(NameField, StringTooShort(MinNameLength))]
    ensures |s| > MaxNameLength ==> errs == [FieldError(NameField, StringTooLong(MaxNameLength))]
  {
    if |s| < MinNameLength then [FieldError(NameField, StringTooShort(MinNameLength))]
    else if |s| > MaxNameLength then [FieldError(NameField, StringTooLong(MaxNameLength))]
    else []
  }

  /** `gt=0, le=upper` on field `f`. */
  function BoundErrors(f: FieldName, v: real, upper: real): (errs: seq<FieldError>)
    ensures errs == [] <==> PositiveAtMost(v, upper)
    ensures v <= 0.0 ==> errs == [FieldError(f, NotGreaterThan(0.0))]
    ensures forall e :: e in errs ==> e.field == f
  {
    if v <= 0.0 then [FieldError(f, NotGreaterThan(0.0))]
    else if v > upper then [FieldError(f, NotLessOrEqual(upper))]
    else []
  }

  /** validate_voltage_range: rejects a voltage under 208 V, otherwise returns it. */
  function ValidateVoltageRange(v: real): (r: Result<real, Violation>)
    ensures r.Success? <==> MinVoltage <= v
    ensures r.Success? ==> r.value == v
  {
    if v < MinVoltage then Failure(BelowIeeeMinimum(MinVoltage)) else Success(v)
  }

  /** validate_gap_for_voltage: never rejects and hands the gap back unchanged. */
  function ValidateGapForVoltage(g: real): (r: Result<real, Violation>)
    ensures r.Success? && r.value == g
  {
    Success(g)
  }

  /** The voltage field: the declared bounds first, then validate_voltage_range. */
  function VoltageErrors(v: real): (errs: seq<FieldError>)
    ensures errs == [] <==> VoltageInScope(v)
    ensures 0.0 < v < MinVoltage ==> errs == [FieldError(VoltageField, BelowIeeeMinimum(MinVoltage))]
    ensures v <= 0.0 ==> errs == [FieldError(VoltageField, NotGreaterThan(0.0))]
  {
    var bounds := BoundErrors(VoltageField, v, MaxVoltage);
    if bounds != [] then bounds
    else match ValidateVoltageRange(v)
      case Success(_) => []
      case Failure(why) => [FieldError(VoltageField, why)]
  }

  /** The electrode-gap field: the declared bounds first, then validate_gap_for_voltage. */
  function GapErrors(g: real): (errs: seq<FieldError>)
    ensures errs == [] <==> PositiveAtMost(g, MaxElectrodeGap)
  {
    var bounds := BoundErrors(ElectrodeGapField, g, MaxElectrodeGap);
    if bounds != [] then bounds
    else match ValidateGapForVoltage(g)
      case Success(_) => []
      case Failure(why) => [FieldError(ElectrodeGapField, why)]
  }

  function EnumErrors<T>(f: FieldName, parsed: Option<T>): (errs: seq<FieldError>)
    ensures errs == [] <==> parsed.Some?
  {
    if parsed.Some? then [] else [FieldError(f, NotAnEnumMember)]
  }

  /** All field failures of a request, in field declaration order. */
  function FieldErrors(raw: RawEquipment): (errs: seq<FieldError>)
    ensures errs == [] <==> raw.WithinScope()
  {
    NameErrors(raw.name)
    + VoltageErrors(raw.voltage)
    + BoundErrors(BoltedFaultCurrentField, raw.boltedFaultCurrent, MaxBoltedFaultCurrent)
    + BoundErrors(WorkingDistanceField, raw.workingDistance, MaxWorkingDistance)
    + EnumErrors(EnclosureTypeField, ParseEnclosureType(raw.enclosureType))
    + GapErrors(raw.electrodeGap)
    + BoundErrors(FaultClearingTimeField, raw.faultClearingTime, MaxClearingTime)
    + EnumErrors(GroundingField, GroundingOrDefault(raw.grounding))
  }

  /** Construct an EquipmentInput from a request, or report every failing field. */
  function Validate(raw: RawEquipment): (r: Result<EquipmentInput, seq<FieldError>>)
    ensures r.Success? <==> raw.WithinScope()
    ensures r.Failure? ==> r.error != []
    ensures r.Success? ==>
      && r.value.Valid()
      && r.value.name == raw.name
      && r.value.voltage == raw.voltage
      && r.value.boltedFaultCurrent == raw.boltedFaultCurrent
      && r.value.workingDistance == raw.workingDistance
      && r.value.enclosureType.Value() == raw.enclosureType
      && r.value.electrodeGap == raw.electrodeGap
      && r.value.faultClearingTime == raw.faultClearingTime
      && (raw.grounding.None? ==> r.value.grounding == SolidlyGrounded)
      && (raw.grounding.Some? ==> r.value.grounding.Value() == raw.grounding.value)
  {
    var errs := FieldErrors(raw);
    if errs != [] then Failure(errs)
    else
      var gap := ValidateGapForVoltage(raw.electrodeGap).value;
      Success(EquipmentInput(raw.name, raw.voltage, raw.boltedFaultCurrent, raw.workingDistance,
                             ParseEnclosureType(raw.enclosureType).value, gap,
                             raw.faultClearingTime, GroundingOrDefault(raw.grounding).value))
  }

  /** Validation accepts the request that carries an input exactly when the
      input satisfies the field constraints, and then returns that input. */
  lemma ValidateRoundTrip(eq: EquipmentInput)
    ensures Validate(eq.ToRaw()) == Success(eq) <==> eq.Valid()
  {
    var raw := eq.ToRaw();
    assert ParseEnclosureType(raw.enclosureType) == Some(eq.enclosureType);
    assert GroundingOrDefault(raw.grounding) == Some(eq.grounding);
    assert raw.WithinScope() <==> eq.Valid();
  }

  /** A voltage under 208 V is rejected whatever the other fields hold, and
      the failure names the voltage field: as out of bounds when the voltage
      is not positive, as under the IEEE floor otherwise. */
  lemma LowVoltageRejected(raw: RawEquipment)
    requires raw.voltage < MinVoltage
    ensures Validate(raw).Failure?
    ensures FieldError(VoltageField,
                       if raw.voltage <= 0.0 then NotGreaterThan(0.0) else BelowIeeeMinimum(MinVoltage))
            in Validate(raw).error
  {
    var errs := FieldErrors(raw);
    var before := NameErrors(raw.name);
    var voltage := VoltageErrors(raw.voltage);
    assert errs[|before|..][..|voltage|] == voltage;
    assert errs[|before|] == voltage[0];
  }

  /** Result bounds: NFPA 70E categories are 0 to 4. */
  const MinPpeCategory: int := 0
  const MaxPpeCategory: int := 4

  /** The record the engine returns. */
  datatype CalculationResult = CalculationResult(
    equipmentName: string,
    incidentEnergy: real,      // cal/cm², rounded to 2 decimals
    arcFlashBoundary: real,    // inches, rounded to 1 decimal
    ppeCategory: int,
    arcingCurrent: real,       // Amperes, rounded to a whole number
    arcDuration: real,         // seconds
    correctionFactor: real,
    warnings: seq<string>)
  {
    predicate Valid() {
      MinPpeCategory <= ppeCategory <= MaxPpeCategory
    }
  }

  /** Construct a CalculationResult: `ppe_category` must lie in 0..4 and
      `warnings` defaults to the empty list. */
  function NewCalculationResult(
    equipmentName: string, incidentEnergy: real, arcFlashBoundary: real, ppeCategory: int,
    arcingCurrent: real, arcDuration: real, correctionFactor: real, warnings: Option<seq<string>>)
    : (r: Result<CalculationResult, seq<FieldError>>)
    ensures r.Success? <==> MinPpeCategory <= ppeCategory <= MaxPpeCategory
    ensures r.Success? ==> r.value.Valid() && r.value.ppeCategory == ppeCategory
    ensures r.Success? && warnings.None? ==> r.value.warnings == []
    ensures r.Success? && warnings.Some? ==> r.value.warnings == warnings.value
    ensures r.Failure? ==> |r.error| == 1 && r.error[0].field == PpeCategoryField
  {
    if ppeCategory < MinPpeCategory then
      Failure([FieldError(PpeCategoryField, NotGreaterOrEqual(MinPpeCategory as real))])
    else if ppeCategory > MaxPpeCategory then
      Failure([FieldError(PpeCategoryField, NotLessOrEqual(MaxPpeCategory as real))])
    else
      var w := match warnings case None => [] case Some(ws) => ws;
      Success(CalculationResult(equipmentName, incidentEnergy, arcFlashBoundary, ppeCategory,
                                arcingCurrent, arcDuration, correctionFactor, w))
  }
}
