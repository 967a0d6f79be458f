/**
 * Request schemas of the railway maintenance API: the three enumerations, the
 * bogie-checksheet and wheel-specification create requests, the constraints
 * each field must meet, the defaults filled in for omitted fields, and the
 * query parameters of the wheel listing.
 *
 * A JSON request body may leave a field out, send it as `null`, or send a
 * value. `Input<T>` keeps the three apart: a default replaces an omitted field
 * only, `null` stays "absent" in an optional field, and a required field
 * refuses both. Validation reports every violated field, not only the first.
 */
module Schemas {
  import opened Common

  /** A date-time. No rule of the API looks at its calendar value. */
  datatype Timestamp = Timestamp(ticks: int)

  /** One field of a JSON body: left out, sent as null, or sent with a value. */
  datatype Input<+T> = Omitted | Null | Given(value: T)

  // ------------------------------------------------------------------ enums

  datatype Condition = Good | WornOut | Damaged | Cracked | Worn
  datatype Position = Left | Right
  datatype Status = Active | Inactive | Retired

  /** The closed sets of strings accepted for each enumeration. */
  const ConditionValues: set<string> := {"GOOD", "WORN OUT", "DAMAGED", "CRACKED", "WORN"}
  const PositionValues: set<string> := {"LEFT", "RIGHT"}
  const StatusValues: set<string> := {"ACTIVE", "INACTIVE", "RETIRED"}

  /** The string a condition is sent and stored as (note the space in "WORN OUT"). */
  function ConditionValue(c: Condition): string {
    match c
    case Good => "GOOD"
    case WornOut => "WORN OUT"
    case Damaged => "DAMAGED"
    case Cracked => "CRACKED"
    case Worn => "WORN"
  }

  function PositionValue(p: Position): string {
    match p
    case Left => "LEFT"
    case Right => "RIGHT"
  }

  function StatusValue(s: Status): string {
    match s
    case Active => "ACTIVE"
    case Inactive => "INACTIVE"
    case Retired => "RETIRED"
  }

  /** Enum validation: accepts exactly the five values, case and spacing included. */
  function ParseCondition(s: string): (r: Option<Condition>)
    ensures r.Some? <==> s in ConditionValues
    ensures r.Some? ==> ConditionValue(r.value) == s
  {
    if s == "GOOD" then Some(Good)
    else if s == "WORN OUT" then Some(WornOut)
    else if s == "DAMAGED" then Some(Damaged)
    else if s == "CRACKED" then Some(Cracked)
    else if s == "WORN" then Some(Worn)
    else None
  }

  function ParsePosition(s: string): (r: Option<Position>)
    ensures r.Some? <==> s in PositionValues
    ensures r.Some? ==> PositionValue(r.value) == s
  {
    if s == "LEFT" then Some(Left)
    else if s == "RIGHT" then Some(Right)
    else None
  }

  function ParseStatus(s: string): (r: Option<Status>)
    ensures r.Some? <==> s in StatusValues
    ensures r.Some? ==> StatusValue(r.value) == s
  {
    if s == "ACTIVE" then Some(Active)
    else if s == "INACTIVE" then Some(Inactive)
    else if s == "RETIRED" then Some(Retired)
    else None
  }

  /** Every enum member is accepted back from the string it is sent as. */
  lemma EnumRoundTrips(c: Condition, p: Position, s: Status)
    ensures ParseCondition(ConditionValue(c)) == Some(c)
    ensures ParsePosition(PositionValue(p)) == Some(p)
    ensures ParseStatus(StatusValue(s)) == Some(s)
  {
  }

  // ----------------------------------------------------------------- errors

  datatype ErrorKind =
    | Missing                    // a required field was left out
    | NullNotAllowed             // a required field was sent as null
    | TooShort(minLength: nat)
    | TooLong(maxLength: nat)
    | NotGreaterThanZero
    | NotAnEnumMember(allowed: set<string>)
    | BelowMinimum(minimum: int)
    | AboveMaximum(maximum: int)

  /** One violated constraint and the field it is located at. */
  datatype FieldError<L> = FieldError(loc: L, kind: ErrorKind)

  /** The fields of a bogie-checksheet body; the first three are its sub-groups. */
  datatype BogieField =
    | BogieDetailsGroup | BogieChecksheetGroup | BmbcChecksheetGroup
    | BogieNumber | DetailsCoachNumber | InspectionDate | DetailsInspectorName
    | BogieFrameCondition | Bolster | BolsterSuspensionBracket | AxleGuide | LowerSpringSeat
    | AdjustingTube | CylinderBody | PistonTrunnion | PlungerSpring

  /** The constrained fields of a wheel-specification body. */
  datatype WheelField =
    | WheelNumber | AxleNumber | CoachNumber | PositionField | WheelDiameter
    | RimThickness | FlangeHeight | FlangeThickness | ConditionField | WearPattern
    | Manufacturer | MaterialGrade | InspectorName | LoadCapacity | SpeedRating | StatusField

  /** The constrained query parameters of the listing. */
  datatype QueryParam = ConditionParam | StatusParam | LimitParam | OffsetParam

  /** The fields `errs` reports. */
  function Locs<L>(errs: seq<FieldError<L>>): set<L> {
    if errs == [] then {} else {errs[0].loc} + Locs(errs[1..])
  }

  lemma {:induction false} LocsConcat<L>(a: seq<FieldError<L>>, b: seq<FieldError<L>>)
    ensures Locs(a + b) == Locs(a) + Locs(b)
  {
    if a == [] {
      assert a + b == b;
    } else {
      assert (a + b)[1..] == a[1..] + b;
      LocsConcat(a[1..], b);
    }
  }

  lemma LocsEmpty<L>(errs: seq<FieldError<L>>)
    ensures Locs(errs) == {} <==> errs == []
  {
    if errs != [] {
      assert errs[0].loc in Locs(errs);
    }
  }

  // ------------------------------------------------ single-field constraints

  predicate RequiredStringOk(v: Input<string>, minLength: nat, maxLength: nat) {
    v.Given? && minLength <= |v.value| <= maxLength
  }

  predicate OptionalStringOk(v: Input<string>, maxLength: nat) {
    v.Given? ==> |v.value| <= maxLength
  }

  predicate RequiredPositiveOk(v: Input<real>) {
    v.Given? && v.value > 0.0
  }

  predicate OptionalPositiveOk(v: Input<real>) {
    v.Given? ==> v.value > 0.0
  }

  predicate OptionalMemberOk(v: Input<string>, allowed: set<string>) {
    v.Given? ==> v.value in allowed
  }

  /** A required field with no further constraint: it must be present and not null. */
  function CheckPresent<L(!new), T>(loc: L, v: Input<T>): (errs: seq<FieldError<L>>)
    ensures errs == [] <==> v.Given?
    ensures forall l :: l in Locs(errs) <==> l == loc && !(v.Given?)
  {
    match v
    case Omitted => [FieldError(loc, Missing)]
    case Null => [FieldError(loc, NullNotAllowed)]
    case Given(_) => []
  }

  /** `Field(..., min_length=minLength, max_length=maxLength)` on a required string. */
  function CheckRequiredString<L(!new)>(loc: L, v: Input<string>, minLength: nat, maxLength: nat): (errs: seq<FieldError<L>>)
    ensures errs == [] <==> RequiredStringOk(v, minLength, maxLength)
    ensures forall l :: l in Locs(errs) <==> l == loc && !(RequiredStringOk(v, minLength, maxLength))
  {
    match v
    case Given(s) =>
      if |s| < minLength then [FieldError(loc, TooShort(minLength))]
      else if |s| > maxLength then [FieldError(loc, TooLong(maxLength))]
      else []
    case _ => CheckPresent(loc, v)
  }

  /** `Field(None, max_length=maxLength)` on an optional string: null and omission both pass. */
  function CheckOptionalString<L(!new)>(loc: L, v: Input<string>, maxLength: nat): (errs: seq<FieldError<L>>)
    ensures errs == [] <==> OptionalStringOk(v, maxLength)
    ensures forall l :: l in Locs(errs) <==> l == loc && !(OptionalStringOk(v, maxLength))
  {
    if v.Given? && |v.value| > maxLength then [FieldError(loc, TooLong(maxLength))] else []
  }

  /** `Field(..., gt=0)` on a required number. */
  function CheckRequiredPositive<L(!new)>(loc: L, v: Input<real>): (errs: seq<FieldError<L>>)
    ensures errs == [] <==> RequiredPositiveOk(v)
    ensures forall l :: l in Locs(errs) <==> l == loc && !(RequiredPositiveOk(v))
  {
    match v
    case Given(x) => if x <= 0.0 then [FieldError(loc, NotGreaterThanZero)] else []
    case _ => CheckPresent(loc, v)
  }

  /** `Field(None, gt=0)` on an optional number: 0 and negative values are refused when sent. */
  function CheckOptionalPositive<L(!new)>(loc: L, v: Input<real>): (errs: seq<FieldError<L>>)
    ensures errs == [] <==> OptionalPositiveOk(v)
    ensures forall l :: l in Locs(errs) <==> l == loc && !(OptionalPositiveOk(v))
  {
    if v.Given? && v.value <= 0.0 then [FieldError(loc, NotGreaterThanZero)] else []
  }

  /** An optional enum field: a value that is sent must be one of `allowed`. */
  function CheckOptionalMember<L(!new)>(loc: L, v: Input<string>, allowed: set<string>): (errs: seq<FieldError<L>>)
    ensures errs == [] <==> OptionalMemberOk(v, allowed)
    ensures forall l :: l in Locs(errs) <==> l == loc && !(OptionalMemberOk(v, allowed))
  {
    if v.Given? && v.value !in allowed then [FieldError(loc, NotAnEnumMember(allowed))] else []
  }

  // ------------------------------------------------------- decoding helpers

  /** An optional field with a default: the default replaces omission only; null stays absent. */
  function WithDefault<T>(v: Input<T>, default: T): Option<T> {
    match v
    case Omitted => Some(default)
    case Null => None
    case Given(x) => Some(x)
  }

  /** An optional field defaulting to None. */
  function Nullable<T>(v: Input<T>): Option<T> {
    if v.Given? then Some(v.value) else None
  }

  /** `o` is what an optional field sent as `v` is kept as: the value sent, or absent when null or omitted. */
  predicate Kept<T(==)>(o: Option<T>, v: Input<T>) {
    if v.Given? then o == Some(v.value) else o.None?
  }

  /** `o` is what an enum field sent as `v` decodes to: the member sent, or absent. */
  predicate Decodes<E>(o: Option<E>, v: Input<string>, valueOf: E -> string) {
    if v.Given? then o.Some? && valueOf(o.value) == v.value else o.None?
  }

  function ConditionOf(v: Input<string>): (o: Option<Condition>)
    requires OptionalMemberOk(v, ConditionValues)
    ensures Decodes(o, v, ConditionValue)
  {
    if v.Given? then ParseCondition(v.value) else None
  }

  function PositionOf(v: Input<string>): (o: Option<Position>)
    requires OptionalMemberOk(v, PositionValues)
    ensures Decodes(o, v, PositionValue)
  {
    if v.Given? then ParsePosition(v.value) else None
  }

  /** An enum field with a default: the default when omitted, absent when null, the member sent otherwise. */
  function ConditionOrDefault(v: Input<string>, default: Condition): (o: Option<Condition>)
    requires OptionalMemberOk(v, ConditionValues)
    ensures v.Omitted? ==> o == Some(default)
    ensures !v.Omitted? ==> Decodes(o, v, ConditionValue)
  {
    if v.Omitted? then Some(default) else ConditionOf(v)
  }

  function StatusOrDefault(v: Input<string>, default: Status): (o: Option<Status>)
    requires OptionalMemberOk(v, StatusValues)
    ensures v.Omitted? ==> o == Some(default)
    ensures !v.Omitted? ==> Decodes(o, v, StatusValue)
  {
    if v.Omitted? then Some(default) else if v.Given? then ParseStatus(v.value) else None
  }

  /** An enum field encoded back into the JSON it would be sent as; absent becomes null. */
  function EncodeEnum<E>(o: Option<E>, valueOf: E -> string): Input<string> {
    if o.Some? then Given(valueOf(o.value)) else Null
  }

  function Encode<T>(o: Option<T>): Input<T> {
    if o.Some? then Given(o.value) else Null
  }

  predicate LengthAtMost(o: Option<string>, maxLength: nat) {
    o.Some? ==> |o.value| <= maxLength
  }

  predicate PositiveIfPresent(o: Option<real>) {
    o.Some? ==> o.value > 0.0
  }

  // ------------------------------------------------------- bogie checksheet

  datatype BogieDetailsInput = BogieDetailsInput(
    bogieNumber: Input<string>,
    coachNumber: Input<string>,
    inspectionDate: Input<Timestamp>,
    inspectorName: Input<string>)

  datatype BogieChecksheetInput = BogieChecksheetInput(
    bogieFrameCondition: Input<string>,
    bolster: Input<string>,
    bolsterSuspensionBracket: Input<string>,
    axleGuide: Input<string>,
    lowerSpringSeat: Input<string>)

  datatype BmbcChecksheetInput = BmbcChecksheetInput(
    adjustingTube: Input<string>,
    cylinderBody: Input<string>,
    pistonTrunnion: Input<string>,
    plungerSpring: Input<string>)

  datatype BogieChecksheetCreateInput = BogieChecksheetCreateInput(
    bogieDetails: Input<BogieDetailsInput>,
    bogieChecksheet: Input<BogieChecksheetInput>,
    bmbcChecksheet: Input<BmbcChecksheetInput>,
    remarks: Input<string>)

  datatype BogieDetails = BogieDetails(
    bogieNumber: string,
    coachNumber: string,
    inspectionDate: Timestamp,
    inspectorName: string)

  datatype BogieChecksheet = BogieChecksheet(
    bogieFrameCondition: Option<Condition>,
    bolster: Option<Condition>,
    bolsterSuspensionBracket: Option<Condition>,
    axleGuide: Option<Condition>,
    lowerSpringSeat: Option<Condition>)

  datatype BmbcChecksheet = BmbcChecksheet(
    adjustingTube: Option<Condition>,
    cylinderBody: Option<Condition>,
    pistonTrunnion: Option<Condition>,
    plungerSpring: Option<Condition>)

  /** A validated bogie-checksheet create request. */
  datatype BogieChecksheetCreate = BogieChecksheetCreate(
    bogieDetails: BogieDetails,
    bogieChecksheet: BogieChecksheet,
    bmbcChecksheet: BmbcChecksheet,
    remarks: Option<string>)

  /**
   * The constraint on one field of a bogie body. Each sub-group is required;
   * a field inside a sub-group that was not sent is not checked.
   */
  predicate BogieFieldOk(b: BogieChecksheetCreateInput, f: BogieField) {
    var d := b.bogieDetails;
    var c := b.bogieChecksheet;
    var m := b.bmbcChecksheet;
    match f
    case BogieDetailsGroup => d.Given?
    case BogieNumber => d.Given? ==> RequiredStringOk(d.value.bogieNumber, 1, 50)
    case DetailsCoachNumber => d.Given? ==> RequiredStringOk(d.value.coachNumber, 1, 50)
    case InspectionDate => d.Given? ==> d.value.inspectionDate.Given?
    case DetailsInspectorName => d.Given? ==> RequiredStringOk(d.value.inspectorName, 1, 100)
    case BogieChecksheetGroup => c.Given?
    case BogieFrameCondition => c.Given? ==> OptionalMemberOk(c.value.bogieFrameCondition, ConditionValues)
    case Bolster => c.Given? ==> OptionalMemberOk(c.value.bolster, ConditionValues)
    case BolsterSuspensionBracket => c.Given? ==> OptionalMemberOk(c.value.bolsterSuspensionBracket, ConditionValues)
    case AxleGuide => c.Given? ==> OptionalMemberOk(c.value.axleGuide, ConditionValues)
    case LowerSpringSeat => c.Given? ==> OptionalMemberOk(c.value.lowerSpringSeat, ConditionValues)
    case BmbcChecksheetGroup => m.Given?
    case AdjustingTube => m.Given? ==> OptionalMemberOk(m.value.adjustingTube, ConditionValues)
    case CylinderBody => m.Given? ==> OptionalMemberOk(m.value.cylinderBody, ConditionValues)
    case PistonTrunnion => m.Given? ==> OptionalMemberOk(m.value.pistonTrunnion, ConditionValues)
    case PlungerSpring => m.Given? ==> OptionalMemberOk(m.value.plungerSpring, ConditionValues)
  }

  /** A valid bogie body: all three sub-groups are present and every field in them meets its constraint. */
  predicate ValidBogieInput(b: BogieChecksheetCreateInput) {
    && b.bogieDetails.Given? && b.bogieChecksheet.Given? && b.bmbcChecksheet.Given?
    && var d := b.bogieDetails.value;
    && var c := b.bogieChecksheet.value;
    && var m := b.bmbcChecksheet.value;
    && RequiredStringOk(d.bogieNumber, 1, 50)
    && RequiredStringOk(d.coachNumber, 1, 50)
    && d.inspectionDate.Given?
    && RequiredStringOk(d.inspectorName, 1, 100)
    && OptionalMemberOk(c.bogieFrameCondition, ConditionValues)
    && OptionalMemberOk(c.bolster, ConditionValues)
    && OptionalMemberOk(c.bolsterSuspensionBracket, ConditionValues)
    && OptionalMemberOk(c.axleGuide, ConditionValues)
    && OptionalMemberOk(c.lowerSpringSeat, ConditionValues)
    && OptionalMemberOk(m.adjustingTube, ConditionValues)
    && OptionalMemberOk(m.cylinderBody, ConditionValues)
    && OptionalMemberOk(m.pistonTrunnion, ConditionValues)
    && OptionalMemberOk(m.plungerSpring, ConditionValues)
  }

  /** What every validated bogie request satisfies. */
  predicate ValidBogieCreate(b: BogieChecksheetCreate) {
    && 1 <= |b.bogieDetails.bogieNumber| <= 50
    && 1 <= |b.bogieDetails.coachNumber| <= 50
    && 1 <= |b.bogieDetails.inspectorName| <= 100
  }

  /** The fields of a bogie body in the order they are validated. */
  const BogieFields: seq<BogieField> := [
    BogieDetailsGroup, BogieNumber, DetailsCoachNumber, InspectionDate, DetailsInspectorName,
    BogieChecksheetGroup, BogieFrameCondition, Bolster, BolsterSuspensionBracket, AxleGuide, LowerSpringSeat,
    BmbcChecksheetGroup, AdjustingTube, CylinderBody, PistonTrunnion, PlungerSpring]

  function CheckBogieField(b: BogieChecksheetCreateInput, f: BogieField): (errs: seq<FieldError<BogieField>>)
    ensures forall l :: l in Locs(errs) <==> l == f && !BogieFieldOk(b, f)
  {
    var d := b.bogieDetails;
    var c := b.bogieChecksheet;
    var m := b.bmbcChecksheet;
    match f
    case BogieDetailsGroup => CheckPresent(f, d)
    case BogieNumber => if d.Given? then CheckRequiredString(f, d.value.bogieNumber, 1, 50) else []
    case DetailsCoachNumber => if d.Given? then CheckRequiredString(f, d.value.coachNumber, 1, 50) else []
    case InspectionDate => if d.Given? then CheckPresent(f, d.value.inspectionDate) else []
    case DetailsInspectorName => if d.Given? then CheckRequiredString(f, d.value.inspectorName, 1, 100) else []
    case BogieChecksheetGroup => CheckPresent(f, c)
    case BogieFrameCondition => if c.Given? then CheckOptionalMember(f, c.value.bogieFrameCondition, ConditionValues) else []
    case Bolster => if c.Given? then CheckOptionalMember(f, c.value.bolster, ConditionValues) else []
    case BolsterSuspensionBracket =>
      if c.Given? then CheckOptionalMember(f, c.value.bolsterSuspensionBracket, ConditionValues) else []
    case AxleGuide => if c.Given? then CheckOptionalMember(f, c.value.axleGuide, ConditionValues) else []
    case LowerSpringSeat => if c.Given? then CheckOptionalMember(f, c.value.lowerSpringSeat, ConditionValues) else []
    case BmbcChecksheetGroup => CheckPresent(f, m)
    case AdjustingTube => if m.Given? then CheckOptionalMember(f, m.value.adjustingTube, ConditionValues) else []
    case CylinderBody => if m.Given? then CheckOptionalMember(f, m.value.cylinderBody, ConditionValues) else []
    case PistonTrunnion => if m.Given? then CheckOptionalMember(f, m.value.pistonTrunnion, ConditionValues) else []
    case PlungerSpring => if m.Given? then CheckOptionalMember(f, m.value.plungerSpring, ConditionValues) else []
  }

  /** Every violation of a bogie body, field by field in validation order. */
  function BogieErrors(b: BogieChecksheetCreateInput): seq<FieldError<BogieField>> {
    BogieErrorsFor(b, BogieFields)
  }

  /** The errors of checking each of `fields` in turn, in that order. */
  function BogieErrorsFor(b: BogieChecksheetCreateInput, fields: seq<BogieField>): seq<FieldError<BogieField>> {
    if fields == [] then [] else CheckBogieField(b, fields[0]) + BogieErrorsFor(b, fields[1..])
  }

  /** Checking a list of fields reports exactly the listed fields that break their constraint. */
  lemma {:induction false} BogieErrorsForReports(b: BogieChecksheetCreateInput, fields: seq<BogieField>, g: BogieField)
    ensures g in Locs(BogieErrorsFor(b, fields)) <==> g in fields && !BogieFieldOk(b, g)
  {
    if fields != [] {
      LocsConcat(CheckBogieField(b, fields[0]), BogieErrorsFor(b, fields[1..]));
      BogieErrorsForReports(b, fields[1..], g);
    }
  }

  lemma BogieFieldListed(f: BogieField)
    ensures f in BogieFields
  {
    match f
    case BogieDetailsGroup => assert BogieFields[0] == f;
    case BogieNumber => assert BogieFields[1] == f;
    case DetailsCoachNumber => assert BogieFields[2] == f;
    case InspectionDate => assert BogieFields[3] == f;
    case DetailsInspectorName => assert BogieFields[4] == f;
    case BogieChecksheetGroup => assert BogieFields[5] == f;
    case BogieFrameCondition => assert BogieFields[6] == f;
    case Bolster => assert BogieFields[7] == f;
    case BolsterSuspensionBracket => assert BogieFields[8] == f;
    case AxleGuide => assert BogieFields[9] == f;
    case LowerSpringSeat => assert BogieFields[10] == f;
    case BmbcChecksheetGroup => assert BogieFields[11] == f;
    case AdjustingTube => assert BogieFields[12] == f;
    case CylinderBody => assert BogieFields[13] == f;
    case PistonTrunnion => assert BogieFields[14] == f;
    case PlungerSpring => assert BogieFields[15] == f;
  }

  lemma ValidBogieFieldsOk(b: BogieChecksheetCreateInput, f: BogieField)
    requires ValidBogieInput(b)
    ensures BogieFieldOk(b, f)
  {
  }

  /** Each of the sixteen bogie fields meets its own constraint, spelled out. */
  predicate EachBogieFieldOk(b: BogieChecksheetCreateInput) {
    && BogieFieldOk(b, BogieDetailsGroup) && BogieFieldOk(b, BogieChecksheetGroup) && BogieFieldOk(b, BmbcChecksheetGroup)
    && BogieFieldOk(b, BogieNumber) && BogieFieldOk(b, DetailsCoachNumber)
    && BogieFieldOk(b, InspectionDate) && BogieFieldOk(b, DetailsInspectorName)
    && BogieFieldOk(b, BogieFrameCondition) && BogieFieldOk(b, Bolster)
    && BogieFieldOk(b, BolsterSuspensionBracket) && BogieFieldOk(b, AxleGuide)
    && BogieFieldOk(b, LowerSpringSeat) && BogieFieldOk(b, AdjustingTube)
    && BogieFieldOk(b, CylinderBody) && BogieFieldOk(b, PistonTrunnion)
    && BogieFieldOk(b, PlungerSpring)
  }

  lemma EachBogieFieldOkValid(b: BogieChecksheetCreateInput)
    requires EachBogieFieldOk(b)
    ensures ValidBogieInput(b)
  {
  }

  lemma BogieFieldsOkValid(b: BogieChecksheetCreateInput)
    requires forall f :: BogieFieldOk(b, f)
    ensures ValidBogieInput(b)
  {
    assert EachBogieFieldOk(b);
    EachBogieFieldOkValid(b);
  }

  /** A bogie body is valid exactly when each of its fields meets its own constraint. */
  lemma ValidBogieInputPerField(b: BogieChecksheetCreateInput)
    ensures ValidBogieInput(b) <==> forall f :: BogieFieldOk(b, f)
  {
    if forall f :: BogieFieldOk(b, f) {
      BogieFieldsOkValid(b);
    }
    if ValidBogieInput(b) {
      forall f ensures BogieFieldOk(b, f) {
        ValidBogieFieldsOk(b, f);
      }
    }
  }

  /**
   * Validation reports every violation, not just the first: a field is
   * reported exactly when it breaks its constraint, and nothing is reported
   * exactly when the body is valid.
   */
  lemma BogieErrorsReportEachField(b: BogieChecksheetCreateInput)
    ensures forall f :: f in Locs(BogieErrors(b)) <==> !BogieFieldOk(b, f)
  {
    forall f ensures f in Locs(BogieErrors(b)) <==> !BogieFieldOk(b, f) {
      BogieErrorsForReports(b, BogieFields, f);
      BogieFieldListed(f);
    }
  }

  lemma BogieErrorsExact(b: BogieChecksheetCreateInput)
    ensures forall f :: f in Locs(BogieErrors(b)) <==> !BogieFieldOk(b, f)
    ensures BogieErrors(b) == [] <==> ValidBogieInput(b)
  {
    BogieErrorsReportEachField(b);
    LocsEmpty(BogieErrors(b));
    ValidBogieInputPerField(b);
  }

  /** The request a valid body decodes to: the detail fields as sent, each condition as sent or absent. */
  function BogieFromInput(b: BogieChecksheetCreateInput): (r: BogieChecksheetCreate)
    requires ValidBogieInput(b)
    ensures ValidBogieCreate(r)
    ensures var d := b.bogieDetails.value;
      && r.bogieDetails.bogieNumber == d.bogieNumber.value
      && r.bogieDetails.coachNumber == d.coachNumber.value
      && r.bogieDetails.inspectionDate == d.inspectionDate.value
      && r.bogieDetails.inspectorName == d.inspectorName.value
    ensures var c := b.bogieChecksheet.value;
      && Decodes(r.bogieChecksheet.bogieFrameCondition, c.bogieFrameCondition, ConditionValue)
      && Decodes(r.bogieChecksheet.bolster, c.bolster, ConditionValue)
      && Decodes(r.bogieChecksheet.bolsterSuspensionBracket, c.bolsterSuspensionBracket, ConditionValue)
      && Decodes(r.bogieChecksheet.axleGuide, c.axleGuide, ConditionValue)
      && Decodes(r.bogieChecksheet.lowerSpringSeat, c.lowerSpringSeat, ConditionValue)
    ensures var m := b.bmbcChecksheet.value;
      && Decodes(r.bmbcChecksheet.adjustingTube, m.adjustingTube, ConditionValue)
      && Decodes(r.bmbcChecksheet.cylinderBody, m.cylinderBody, ConditionValue)
      && Decodes(r.bmbcChecksheet.pistonTrunnion, m.pistonTrunnion, ConditionValue)
      && Decodes(r.bmbcChecksheet.plungerSpring, m.plungerSpring, ConditionValue)
    ensures Kept(r.remarks, b.remarks)
  {
    var d := b.bogieDetails.value;
    var c := b.bogieChecksheet.value;
    var m := b.bmbcChecksheet.value;
    BogieChecksheetCreate(
      BogieDetails(d.bogieNumber.value, d.coachNumber.value, d.inspectionDate.value, d.inspectorName.value),
      BogieChecksheet(
        ConditionOf(c.bogieFrameCondition), ConditionOf(c.bolster), ConditionOf(c.bolsterSuspensionBracket),
        ConditionOf(c.axleGuide), ConditionOf(c.lowerSpringSeat)),
      BmbcChecksheet(
        ConditionOf(m.adjustingTube), ConditionOf(m.cylinderBody), ConditionOf(m.pistonTrunnion),
        ConditionOf(m.plungerSpring)),
      Nullable(b.remarks))
  }

  /** Validation of a bogie-checksheet body: the decoded request, or every violation found. */
  function ValidateBogie(b: BogieChecksheetCreateInput): (r: Result<BogieChecksheetCreate, seq<FieldError<BogieField>>>)
    ensures r.Ok? <==> ValidBogieInput(b)
    ensures r.Ok? ==> r.value == BogieFromInput(b)
    ensures r.Ok? ==> ValidBogieCreate(r.value)
    ensures r.Err? ==> r.error != [] && r.error == BogieErrors(b)
  {
    var errs := BogieErrors(b);
    BogieErrorsExact(b);
    if errs == [] then Ok(BogieFromInput(b)) else Err(errs)
  }

  /** The JSON body a client sends for a decoded request: every group present, every absent value null. */
  function BogieInputOf(b: BogieChecksheetCreate): BogieChecksheetCreateInput {
    var d := b.bogieDetails;
    var c := b.bogieChecksheet;
    var m := b.bmbcChecksheet;
    BogieChecksheetCreateInput(
      Given(BogieDetailsInput(Given(d.bogieNumber), Given(d.coachNumber), Given(d.inspectionDate), Given(d.inspectorName))),
      Given(BogieChecksheetInput(
        EncodeEnum(c.bogieFrameCondition, ConditionValue), EncodeEnum(c.bolster, ConditionValue),
        EncodeEnum(c.bolsterSuspensionBracket, ConditionValue), EncodeEnum(c.axleGuide, ConditionValue),
        EncodeEnum(c.lowerSpringSeat, ConditionValue))),
      Given(BmbcChecksheetInput(
        EncodeEnum(m.adjustingTube, ConditionValue), EncodeEnum(m.cylinderBody, ConditionValue),
        EncodeEnum(m.pistonTrunnion, ConditionValue), EncodeEnum(m.plungerSpring, ConditionValue))),
      Encode(b.remarks))
  }

  lemma ConditionsRoundTrip()
    ensures forall c: Condition :: ParseCondition(ConditionValue(c)) == Some(c)
  {
    forall c: Condition ensures ParseCondition(ConditionValue(c)) == Some(c) {
      EnumRoundTrips(c, Left, Active);
    }
  }

  lemma BogieInputOfValid(b: BogieChecksheetCreate)
    requires ValidBogieCreate(b)
    ensures ValidBogieInput(BogieInputOf(b))
  {
    ConditionsRoundTrip();
  }

  /** Decoding the body a client sends for a request gives back each of its parts. */
  lemma BogieFromInputOf(b: BogieChecksheetCreate) returns (r: BogieChecksheetCreate)
    requires ValidBogieCreate(b)
    ensures ValidBogieInput(BogieInputOf(b)) && r == BogieFromInput(BogieInputOf(b))
    ensures r.bogieDetails == b.bogieDetails
    ensures r.bogieChecksheet == b.bogieChecksheet
    ensures r.bmbcChecksheet == b.bmbcChecksheet
    ensures r.remarks == b.remarks
  {
    BogieInputOfValid(b);
    ConditionsRoundTrip();
    r := BogieFromInput(BogieInputOf(b));
  }

  /** Every valid decoded request comes back unchanged from the body a client sends for it. */
  lemma BogieRequestRoundTrip(b: BogieChecksheetCreate)
    requires ValidBogieCreate(b)
    ensures ValidateBogie(BogieInputOf(b)) == Ok(b)
  {
    var r := BogieFromInputOf(b);
    BogieErrorsExact(BogieInputOf(b));
    assert r == b;
  }

  // ---------------------------------------------------- wheel specification

  datatype WheelSpecificationCreateInput = WheelSpecificationCreateInput(
    wheelNumber: Input<string>,
    axleNumber: Input<string>,
    coachNumber: Input<string>,
    position: Input<string>,
    wheelDiameter: Input<real>,
    rimThickness: Input<real>,
    flangeHeight: Input<real>,
    flangeThickness: Input<real>,
    condition: Input<string>,
    wearPattern: Input<string>,
    cracksDetected: Input<bool>,
    manufacturer: Input<string>,
    manufactureDate: Input<Timestamp>,
    materialGrade: Input<string>,
    lastInspectionDate: Input<Timestamp>,
    nextInspectionDue: Input<Timestamp>,
    inspectorName: Input<string>,
    loadCapacity: Input<real>,
    speedRating: Input<string>,
    remarks: Input<string>,
    status: Input<string>)

  /** A validated wheel-specification create request. */
  datatype WheelSpecificationCreate = WheelSpecificationCreate(
    wheelNumber: string,
    axleNumber: string,
    coachNumber: string,
    position: Option<Position>,
    wheelDiameter: real,
    rimThickness: Option<real>,
    flangeHeight: Option<real>,
    flangeThickness: Option<real>,
    condition: Option<Condition>,
    wearPattern: Option<string>,
    cracksDetected: Option<bool>,
    manufacturer: Option<string>,
    manufactureDate: Option<Timestamp>,
    materialGrade: Option<string>,
    lastInspectionDate: Option<Timestamp>,
    nextInspectionDue: Option<Timestamp>,
    inspectorName: Option<string>,
    loadCapacity: Option<real>,
    speedRating: Option<string>,
    remarks: Option<string>,
    status: Option<Status>)

  /** The constraint on one field of a wheel body. */
  predicate WheelFieldOk(w: WheelSpecificationCreateInput, f: WheelField) {
    match f
    case WheelNumber => RequiredStringOk(w.wheelNumber, 1, 50)
    case AxleNumber => RequiredStringOk(w.axleNumber, 1, 50)
    case CoachNumber => RequiredStringOk(w.coachNumber, 1, 50)
    case PositionField => OptionalMemberOk(w.position, PositionValues)
    case WheelDiameter => RequiredPositiveOk(w.wheelDiameter)
    case RimThickness => OptionalPositiveOk(w.rimThickness)
    case FlangeHeight => OptionalPositiveOk(w.flangeHeight)
    case FlangeThickness => OptionalPositiveOk(w.flangeThickness)
    case ConditionField => OptionalMemberOk(w.condition, ConditionValues)
    case WearPattern => OptionalStringOk(w.wearPattern, 100)
    case Manufacturer => OptionalStringOk(w.manufacturer, 100)
    case MaterialGrade => OptionalStringOk(w.materialGrade, 50)
    case InspectorName => OptionalStringOk(w.inspectorName, 100)
    case LoadCapacity => OptionalPositiveOk(w.loadCapacity)
    case SpeedRating => OptionalStringOk(w.speedRating, 20)
    case StatusField => OptionalMemberOk(w.status, StatusValues)
  }

  /** A valid wheel body: every constrained field meets its constraint. */
  predicate ValidWheelInput(w: WheelSpecificationCreateInput) {
    && RequiredStringOk(w.wheelNumber, 1, 50)
    && RequiredStringOk(w.axleNumber, 1, 50)
    && RequiredStringOk(w.coachNumber, 1, 50)
    && OptionalMemberOk(w.position, PositionValues)
    && RequiredPositiveOk(w.wheelDiameter)
    && OptionalPositiveOk(w.rimThickness)
    && OptionalPositiveOk(w.flangeHeight)
    && OptionalPositiveOk(w.flangeThickness)
    && OptionalMemberOk(w.condition, ConditionValues)
    && OptionalStringOk(w.wearPattern, 100)
    && OptionalStringOk(w.manufacturer, 100)
    && OptionalStringOk(w.materialGrade, 50)
    && OptionalStringOk(w.inspectorName, 100)
    && OptionalPositiveOk(w.loadCapacity)
    && OptionalStringOk(w.speedRating, 20)
    && OptionalMemberOk(w.status, StatusValues)
  }

  /** What every validated wheel request (and so every stored wheel) satisfies. */
  predicate ValidWheelCreate(c: WheelSpecificationCreate) {
    && 1 <= |c.wheelNumber| <= 50
    && 1 <= |c.axleNumber| <= 50
    && 1 <= |c.coachNumber| <= 50
    && c.wheelDiameter > 0.0
    && PositiveIfPresent(c.rimThickness)
    && PositiveIfPresent(c.flangeHeight)
    && PositiveIfPresent(c.flangeThickness)
    && LengthAtMost(c.wearPattern, 100)
    && LengthAtMost(c.manufacturer, 100)
    && LengthAtMost(c.materialGrade, 50)
    && LengthAtMost(c.inspectorName, 100)
    && PositiveIfPresent(c.loadCapacity)
    && LengthAtMost(c.speedRating, 20)
  }

  /** The constrained fields of a wheel body in the order they are declared and validated. */
  const WheelFields: seq<WheelField> := [
    WheelNumber, AxleNumber, CoachNumber, PositionField, WheelDiameter, RimThickness, FlangeHeight,
    FlangeThickness, ConditionField, WearPattern, Manufacturer, MaterialGrade, InspectorName,
    LoadCapacity, SpeedRating, StatusField]

  function CheckWheelField(w: WheelSpecificationCreateInput, f: WheelField): (errs: seq<FieldError<WheelField>>)
    ensures forall l :: l in Locs(errs) <==> l == f && !WheelFieldOk(w, f)
  {
    match f
    case WheelNumber => CheckRequiredString(f, w.wheelNumber, 1, 50)
    case AxleNumber => CheckRequiredString(f, w.axleNumber, 1, 50)
    case CoachNumber => CheckRequiredString(f, w.coachNumber, 1, 50)
    case PositionField => CheckOptionalMember(f, w.position, PositionValues)
    case WheelDiameter => CheckRequiredPositive(f, w.wheelDiameter)
    case RimThickness => CheckOptionalPositive(f, w.rimThickness)
    case FlangeHeight => CheckOptionalPositive(f, w.flangeHeight)
    case FlangeThickness => CheckOptionalPositive(f, w.flangeThickness)
    case ConditionField => CheckOptionalMember(f, w.condition, ConditionValues)
    case WearPattern => CheckOptionalString(f, w.wearPattern, 100)
    case Manufacturer => CheckOptionalString(f, w.manufacturer, 100)
    case MaterialGrade => CheckOptionalString(f, w.materialGrade, 50)
    case InspectorName => CheckOptionalString(f, w.inspectorName, 100)
    case LoadCapacity => CheckOptionalPositive(f, w.loadCapacity)
    case SpeedRating => CheckOptionalString(f, w.speedRating, 20)
    case StatusField => CheckOptionalMember(f, w.status, StatusValues)
  }

  /** Every violation of a wheel body, field by field in declaration order. */
  function WheelErrors(w: WheelSpecificationCreateInput): seq<FieldError<WheelField>> {
    WheelErrorsFor(w, WheelFields)
  }

  /** The errors of checking each of `fields` in turn, in that order. */
  function WheelErrorsFor(w: WheelSpecificationCreateInput, fields: seq<WheelField>): seq<FieldError<WheelField>> {
    if fields == [] then [] else CheckWheelField(w, fields[0]) + WheelErrorsFor(w, fields[1..])
  }

  /** Checking a list of fields reports exactly the listed fields that break their constraint. */
  lemma {:induction false} WheelErrorsForReports(w: WheelSpecificationCreateInput, fields: seq<WheelField>, g: WheelField)
    ensures g in Locs(WheelErrorsFor(w, fields)) <==> g in fields && !WheelFieldOk(w, g)
  {
    if fields != [] {
      LocsConcat(CheckWheelField(w, fields[0]), WheelErrorsFor(w, fields[1..]));
      WheelErrorsForReports(w, fields[1..], g);
    }
  }

  lemma WheelFieldListed(f: WheelField)
    ensures f in WheelFields
  {
    match f
    case WheelNumber => assert WheelFields[0] == f;
    case AxleNumber => assert WheelFields[1] == f;
    case CoachNumber => assert WheelFields[2] == f;
    case PositionField => assert WheelFields[3] == f;
    case WheelDiameter => assert WheelFields[4] == f;
    case RimThickness => assert WheelFields[5] == f;
    case FlangeHeight => assert WheelFields[6] == f;
    case FlangeThickness => assert WheelFields[7] == f;
    case ConditionField => assert WheelFields[8] == f;
    case WearPattern => assert WheelFields[9] == f;
    case Manufacturer => assert WheelFields[10] == f;
    case MaterialGrade => assert WheelFields[11] == f;
    case InspectorName => assert WheelFields[12] == f;
    case LoadCapacity => assert WheelFields[13] == f;
    case SpeedRating => assert WheelFields[14] == f;
    case StatusField => assert WheelFields[15] == f;
  }

  lemma ValidWheelFieldsOk(w: WheelSpecificationCreateInput, f: WheelField)
    requires ValidWheelInput(w)
    ensures WheelFieldOk(w, f)
  {
  }

  /** Each of the sixteen wheel fields meets its own constraint, spelled out. */
  predicate EachWheelFieldOk(w: WheelSpecificationCreateInput) {
    && WheelFieldOk(w, WheelNumber) && WheelFieldOk(w, AxleNumber)
    && WheelFieldOk(w, CoachNumber) && WheelFieldOk(w, PositionField)
    && WheelFieldOk(w, WheelDiameter) && WheelFieldOk(w, RimThickness)
    && WheelFieldOk(w, FlangeHeight) && WheelFieldOk(w, FlangeThickness)
    && WheelFieldOk(w, ConditionField) && WheelFieldOk(w, WearPattern)
    && WheelFieldOk(w, Manufacturer) && WheelFieldOk(w, MaterialGrade)
    && WheelFieldOk(w, InspectorName) && WheelFieldOk(w, LoadCapacity)
    && WheelFieldOk(w, SpeedRating) && WheelFieldOk(w, StatusField)
  }

  lemma EachWheelFieldOkValid(w: WheelSpecificationCreateInput)
    requires EachWheelFieldOk(w)
    ensures ValidWheelInput(w)
  {
  }

  lemma WheelFieldsOkValid(w: WheelSpecificationCreateInput)
    requires forall f :: WheelFieldOk(w, f)
    ensures ValidWheelInput(w)
  {
    assert EachWheelFieldOk(w);
    EachWheelFieldOkValid(w);
  }

  /** A wheel body is valid exactly when each of its fields meets its own constraint. */
  lemma ValidWheelInputPerField(w: WheelSpecificationCreateInput)
    ensures ValidWheelInput(w) <==> forall f :: WheelFieldOk(w, f)
  {
    if forall f :: WheelFieldOk(w, f) {
      WheelFieldsOkValid(w);
    }
    if ValidWheelInput(w) {
      forall f ensures WheelFieldOk(w, f) {
        ValidWheelFieldsOk(w, f);
      }
    }
  }

  /**
   * Validation reports every violation, not just the first: a field is
   * reported exactly when it breaks its constraint, and nothing is reported
   * exactly when the body is valid.
   */
  lemma WheelErrorsReportEachField(w: WheelSpecificationCreateInput)
    ensures forall f :: f in Locs(WheelErrors(w)) <==> !WheelFieldOk(w, f)
  {
    forall f ensures f in Locs(WheelErrors(w)) <==> !WheelFieldOk(w, f) {
      WheelErrorsForReports(w, WheelFields, f);
      WheelFieldListed(f);
    }
  }

  lemma WheelErrorsExact(w: WheelSpecificationCreateInput)
    ensures forall f :: f in Locs(WheelErrors(w)) <==> !WheelFieldOk(w, f)
    ensures WheelErrors(w) == [] <==> ValidWheelInput(w)
  {
    WheelErrorsReportEachField(w);
    LocsEmpty(WheelErrors(w));
    ValidWheelInputPerField(w);
  }

  /** The request a valid body decodes to, with the defaults filled in for omitted fields. */
  function WheelFromInput(w: WheelSpecificationCreateInput): (r: WheelSpecificationCreate)
    requires ValidWheelInput(w)
    ensures ValidWheelCreate(r)
    ensures r.wheelNumber == w.wheelNumber.value && r.axleNumber == w.axleNumber.value
    ensures r.coachNumber == w.coachNumber.value && r.wheelDiameter == w.wheelDiameter.value
    ensures Decodes(r.position, w.position, PositionValue)
    ensures w.condition.Omitted? ==> r.condition == Some(Good)
    ensures !w.condition.Omitted? ==> Decodes(r.condition, w.condition, ConditionValue)
    ensures w.cracksDetected.Omitted? ==> r.cracksDetected == Some(false)
    ensures w.cracksDetected.Null? ==> r.cracksDetected == None
    ensures w.cracksDetected.Given? ==> r.cracksDetected == Some(w.cracksDetected.value)
    ensures w.status.Omitted? ==> r.status == Some(Active)
    ensures !w.status.Omitted? ==> Decodes(r.status, w.status, StatusValue)
    ensures && Kept(r.rimThickness, w.rimThickness) && Kept(r.flangeHeight, w.flangeHeight)
            && Kept(r.flangeThickness, w.flangeThickness) && Kept(r.loadCapacity, w.loadCapacity)
    ensures && Kept(r.wearPattern, w.wearPattern) && Kept(r.manufacturer, w.manufacturer)
            && Kept(r.materialGrade, w.materialGrade) && Kept(r.inspectorName, w.inspectorName)
            && Kept(r.speedRating, w.speedRating) && Kept(r.remarks, w.remarks)
    ensures && Kept(r.manufactureDate, w.manufactureDate) && Kept(r.lastInspectionDate, w.lastInspectionDate)
            && Kept(r.nextInspectionDue, w.nextInspectionDue)
  {
    WheelSpecificationCreate(
      w.wheelNumber.value,
      w.axleNumber.value,
      w.coachNumber.value,
      PositionOf(w.position),
      w.wheelDiameter.value,
      Nullable(w.rimThickness),
      Nullable(w.flangeHeight),
      Nullable(w.flangeThickness),
      ConditionOrDefault(w.condition, Good),
      Nullable(w.wearPattern),
      WithDefault(w.cracksDetected, false),
      Nullable(w.manufacturer),
      Nullable(w.manufactureDate),
      Nullable(w.materialGrade),
      Nullable(w.lastInspectionDate),
      Nullable(w.nextInspectionDue),
      Nullable(w.inspectorName),
      Nullable(w.loadCapacity),
      Nullable(w.speedRating),
      Nullable(w.remarks),
      StatusOrDefault(w.status, Active))
  }

  /** Validation of a wheel-specification body: the decoded request, or every violation found. */
  function ValidateWheel(w: WheelSpecificationCreateInput): (r: Result<WheelSpecificationCreate, seq<FieldError<WheelField>>>)
    ensures r.Ok? <==> ValidWheelInput(w)
    ensures r.Ok? ==> r.value == WheelFromInput(w)
    ensures r.Ok? ==> ValidWheelCreate(r.value)
    ensures r.Err? ==> r.error != [] && r.error == WheelErrors(w)
  {
    var errs := WheelErrors(w);
    WheelErrorsExact(w);
    if errs == [] then Ok(WheelFromInput(w)) else Err(errs)
  }

  /** The JSON body a client sends for a decoded request: every absent value sent as null. */
  function WheelInputOf(c: WheelSpecificationCreate): WheelSpecificationCreateInput {
    WheelSpecificationCreateInput(
      Given(c.wheelNumber), Given(c.axleNumber), Given(c.coachNumber),
      EncodeEnum(c.position, PositionValue),
      Given(c.wheelDiameter), Encode(c.rimThickness), Encode(c.flangeHeight), Encode(c.flangeThickness),
      EncodeEnum(c.condition, ConditionValue),
      Encode(c.wearPattern), Encode(c.cracksDetected), Encode(c.manufacturer), Encode(c.manufactureDate),
      Encode(c.materialGrade), Encode(c.lastInspectionDate), Encode(c.nextInspectionDue),
      Encode(c.inspectorName), Encode(c.loadCapacity), Encode(c.speedRating), Encode(c.remarks),
      EncodeEnum(c.status, StatusValue))
  }

  lemma WheelInputOfValid(c: WheelSpecificationCreate)
    requires ValidWheelCreate(c)
    ensures ValidWheelInput(WheelInputOf(c))
  {
    var w := WheelInputOf(c);
    if c.position.Some? { EnumRoundTrips(Good, c.position.value, Active); }
    if c.condition.Some? { EnumRoundTrips(c.condition.value, Left, Active); }
    if c.status.Some? { EnumRoundTrips(Good, Left, c.status.value); }
    assert OptionalMemberOk(w.position, PositionValues);
    assert OptionalMemberOk(w.condition, ConditionValues);
    assert OptionalMemberOk(w.status, StatusValues);
  }

  /** Decoding the body a client sends for a request gives back each of its fields. */
  lemma WheelFromInputOf(c: WheelSpecificationCreate) returns (r: WheelSpecificationCreate)
    requires ValidWheelCreate(c)
    ensures ValidWheelInput(WheelInputOf(c)) && r == WheelFromInput(WheelInputOf(c))
    ensures r.wheelNumber == c.wheelNumber
    ensures r.axleNumber == c.axleNumber
    ensures r.coachNumber == c.coachNumber
    ensures r.position == c.position
    ensures r.wheelDiameter == c.wheelDiameter
    ensures r.rimThickness == c.rimThickness
    ensures r.flangeHeight == c.flangeHeight
    ensures r.flangeThickness == c.flangeThickness
    ensures r.condition == c.condition
    ensures r.wearPattern == c.wearPattern
    ensures r.cracksDetected == c.cracksDetected
    ensures r.manufacturer == c.manufacturer
    ensures r.manufactureDate == c.manufactureDate
    ensures r.materialGrade == c.materialGrade
    ensures r.lastInspectionDate == c.lastInspectionDate
    ensures r.nextInspectionDue == c.nextInspectionDue
    ensures r.inspectorName == c.inspectorName
    ensures r.loadCapacity == c.loadCapacity
    ensures r.speedRating == c.speedRating
    ensures r.remarks == c.remarks
    ensures r.status == c.status
  {
    WheelInputOfValid(c);
    r := WheelFromInput(WheelInputOf(c));
    if c.position.Some? { EnumRoundTrips(Good, c.position.value, Active); }
    if c.condition.Some? { EnumRoundTrips(c.condition.value, Left, Active); }
    if c.status.Some? { EnumRoundTrips(Good, Left, c.status.value); }
  }

  /** Every valid decoded request comes back unchanged from the body a client sends for it. */
  lemma WheelRequestRoundTrip(c: WheelSpecificationCreate)
    requires ValidWheelCreate(c)
    ensures ValidateWheel(WheelInputOf(c)) == Ok(c)
  {
    var r := WheelFromInputOf(c);
    WheelErrorsExact(WheelInputOf(c));
    assert r == c;
  }

  // ------------------------------------------------------ listing parameters

  const DefaultLimit: int := 10
  const MaxLimit: int := 100
  const DefaultOffset: int := 0

  /** Query parameters of the listing as received: each is absent or a value. */
  datatype QueryInput = QueryInput(
    wheelNumber: Option<string>,
    coachNumber: Option<string>,
    condition: Option<string>,
    manufacturer: Option<string>,
    status: Option<string>,
    limit: Option<int>,
    offset: Option<int>)

  /** Validated listing parameters. */
  datatype WheelSpecificationFilters = WheelSpecificationFilters(
    wheelNumber: Option<string>,
    coachNumber: Option<string>,
    condition: Option<Condition>,
    manufacturer: Option<string>,
    status: Option<Status>,
    limit: int,
    offset: int)

  predicate ValidFilters(f: WheelSpecificationFilters) {
    1 <= f.limit <= MaxLimit && 0 <= f.offset
  }

  predicate ValidQueryInput(q: QueryInput) {
    && (q.condition.Some? ==> q.condition.value in ConditionValues)
    && (q.status.Some? ==> q.status.value in StatusValues)
    && (q.limit.Some? ==> 1 <= q.limit.value <= MaxLimit)
    && (q.offset.Some? ==> 0 <= q.offset.value)
  }

  function ParamInput<T>(o: Option<T>): Input<T> {
    if o.Some? then Given(o.value) else Omitted
  }

  /** `ge=minimum` on an integer parameter. */
  function CheckAtLeast<L>(loc: L, v: Option<int>, minimum: int): (errs: seq<FieldError<L>>)
    ensures errs == [] <==> (v.Some? ==> minimum <= v.value)
  {
    if v.Some? && v.value < minimum then [FieldError(loc, BelowMinimum(minimum))] else []
  }

  /** `le=maximum` on an integer parameter. */
  function CheckAtMost<L>(loc: L, v: Option<int>, maximum: int): (errs: seq<FieldError<L>>)
    ensures errs == [] <==> (v.Some? ==> v.value <= maximum)
  {
    if v.Some? && v.value > maximum then [FieldError(loc, AboveMaximum(maximum))] else []
  }

  function QueryErrors(q: QueryInput): (errs: seq<FieldError<QueryParam>>)
    ensures errs == [] <==> ValidQueryInput(q)
  {
    CheckOptionalMember(ConditionParam, ParamInput(q.condition), ConditionValues)
    + CheckOptionalMember(StatusParam, ParamInput(q.status), StatusValues)
    + CheckAtLeast(LimitParam, q.limit, 1)
    + CheckAtMost(LimitParam, q.limit, MaxLimit)
    + CheckAtLeast(OffsetParam, q.offset, 0)
  }

  /** Validation of the listing parameters: limit 1..100 (default 10), offset at least 0 (default 0). */
  function ValidateQuery(q: QueryInput): (r: Result<WheelSpecificationFilters, seq<FieldError<QueryParam>>>)
    ensures r.Ok? <==> ValidQueryInput(q)
    ensures r.Err? ==> r.error != []
    ensures r.Ok? ==> ValidFilters(r.value)
    ensures r.Ok? ==> r.value.limit == (if q.limit.Some? then q.limit.value else DefaultLimit)
    ensures r.Ok? ==> r.value.offset == (if q.offset.Some? then q.offset.value else DefaultOffset)
    ensures r.Ok? ==> && r.value.wheelNumber == q.wheelNumber
                      && r.value.coachNumber == q.coachNumber
                      && r.value.manufacturer == q.manufacturer
                      && Decodes(r.value.condition, ParamInput(q.condition), ConditionValue)
                      && Decodes(r.value.status, ParamInput(q.status), StatusValue)
  {
    var errs := QueryErrors(q);
    if errs != [] then Err(errs)
    else
      Ok(WheelSpecificationFilters(
        q.wheelNumber,
        q.coachNumber,
        if q.condition.Some? then ParseCondition(q.condition.value) else None,
        q.manufacturer,
        if q.status.Some? then ParseStatus(q.status.value) else None,
        if q.limit.Some? then q.limit.value else DefaultLimit,
        if q.offset.Some? then q.offset.value else DefaultOffset))
  }
}
