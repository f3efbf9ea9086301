/**
 * The entry form (src/features/collection/components/LegoSetForm.tsx): its
 * state, the per-type defaults, the field handlers, the type-change effect,
 * the form's own validation and the state transitions of a submit. The
 * React state hooks become the fields of a class; rendering is not modelled.
 */
module LegoForm {
  import opened Wrappers
  import opened JsValue
  import opened Text
  import opened LegoTypes
  import opened LegoSchemaFacts
  import opened LegoSetService

  // ------------------------------------------------------------ form data

  /** FormData: the base fields, the `type` select's value and the untyped `details` bag. */
  datatype FormData = FormData(
    setNumber: string,
    name: string,
    pieceCount: real,
    ageGroup: string,
    price: real,
    hasBuilt: bool,
    typeTag: string,
    details: map<string, Json>)

  const InitialPlantDetails: map<string, Json> :=
    map["plantType" := JStr("rose"), "height" := JNum(0.0), "vaseIncluded" := JBool(true)]
  const InitialVehicleDetails: map<string, Json> :=
    map["vehicleType" := JStr("car"), "brand" := JStr(""), "model" := JStr("")]
  const InitialBuildingDetails: map<string, Json> :=
    map["buildingType" := JStr("residential"), "floors" := JNum(1.0), "furnished" := JBool(false)]

  /** The variant whose defaults a `type` value gets: plants for anything unknown. */
  function DefaultsKind(tag: string): Kind {
    ParseKind(JStr(tag)).GetOr(Plants)
  }

  /** getInitialDetailsForType */
  function InitialDetails(tag: string): (d: map<string, Json>)
    ensures tag == KindTag(Vehicles) ==> d == InitialVehicleDetails
    ensures tag == KindTag(Buildings) ==> d == InitialBuildingDetails
    ensures tag != KindTag(Vehicles) && tag != KindTag(Buildings) ==> d == InitialPlantDetails
  {
    match DefaultsKind(tag)
    case Plants => InitialPlantDetails
    case Vehicles => InitialVehicleDetails
    case Buildings => InitialBuildingDetails
  }

  /** The form as it is first shown, and after a successful submit. */
  function InitialFormData(): FormData {
    FormData("", "", 0.0, "", 0.0, true, KindTag(Plants), InitialPlantDetails)
  }

  lemma {:induction false} PlantDefaultKeys(f: DetailField)
    ensures DetailName(f) in InitialPlantDetails <==> InDetails(f) in DetailShape(Plants)
  {
    match f {
      case PlantTypeField =>
      case HeightField =>
      case VaseIncludedField =>
      case _ =>
    }
  }

  lemma {:induction false} VehicleDefaultKeys(f: DetailField)
    ensures DetailName(f) in InitialVehicleDetails <==> InDetails(f) in DetailShape(Vehicles)
  {
    match f {
      case VehicleTypeField =>
      case BrandField =>
      case ModelField =>
      case _ =>
    }
  }

  lemma {:induction false} BuildingDefaultKeys(f: DetailField)
    ensures DetailName(f) in InitialBuildingDetails <==> InDetails(f) in DetailShape(Buildings)
  {
    match f {
      case BuildingTypeField =>
      case FloorsField =>
      case FurnishedField =>
      case _ =>
    }
  }

  /** The defaults of a type hold the key of a detail field exactly when that type's schema has the field. */
  lemma {:induction false} DefaultKeysMatchSchema(k: Kind, f: DetailField)
    ensures DetailName(f) in InitialDetails(KindTag(k)) <==> InDetails(f) in DetailShape(k)
  {
    match k
    case Plants => PlantDefaultKeys(f);
    case Vehicles => VehicleDefaultKeys(f);
    case Buildings => BuildingDefaultKeys(f);
  }

  /** ... and they hold no other key. */
  lemma {:induction false} DefaultKeysAreFields(k: Kind, key: string)
    requires key in InitialDetails(KindTag(k))
    ensures exists f :: InDetails(f) in DetailShape(k) && DetailName(f) == key
  {
    match k
    case Plants =>
      if key == "plantType" {
        assert DetailName(PlantTypeField) == key;
      } else if key == "height" {
        assert DetailName(HeightField) == key;
      } else {
        assert DetailName(VaseIncludedField) == key;
      }
    case Vehicles =>
      if key == "vehicleType" {
        assert DetailName(VehicleTypeField) == key;
      } else if key == "brand" {
        assert DetailName(BrandField) == key;
      } else {
        assert DetailName(ModelField) == key;
      }
    case Buildings =>
      if key == "buildingType" {
        assert DetailName(BuildingTypeField) == key;
      } else if key == "floors" {
        assert DetailName(FloorsField) == key;
      } else {
        assert DetailName(FurnishedField) == key;
      }
  }

  // ---------------------------------------------------------------- edits

  /** A call of handleBaseFieldChange, with the value the matching input passes. */
  datatype BaseEdit =
    | EditSetNumber(s: string)
    | EditName(s: string)
    | EditPieceCount(n: real)
    | EditAgeGroup(s: string)
    | EditPrice(n: real)
    | EditHasBuilt(b: bool)
    | EditType(tag: string)
  {
    /** The key the edit writes. */
    function Field(): TopField {
      match this
      case EditSetNumber(_) => SetNumberField
      case EditName(_) => NameField
      case EditPieceCount(_) => PieceCountField
      case EditAgeGroup(_) => AgeGroupField
      case EditPrice(_) => PriceField
      case EditHasBuilt(_) => HasBuiltField
      case EditType(_) => TypeField
    }
  }

  /** `{ ...prev, [field]: value }` */
  function ApplyBase(d: FormData, e: BaseEdit): (r: FormData)
    ensures BaseValue(r, e.Field()) == EditValue(e)
    ensures r.details == d.details
  {
    match e
    case EditSetNumber(s) => d.(setNumber := s)
    case EditName(s) => d.(name := s)
    case EditPieceCount(n) => d.(pieceCount := n)
    case EditAgeGroup(s) => d.(ageGroup := s)
    case EditPrice(n) => d.(price := n)
    case EditHasBuilt(b) => d.(hasBuilt := b)
    case EditType(tag) => d.(typeTag := tag)
  }

  /** The value of a base key of the form data, as the object holds it. */
  function BaseValue(d: FormData, f: TopField): Json {
    match f
    case SetNumberField => JStr(d.setNumber)
    case NameField => JStr(d.name)
    case PieceCountField => JNum(d.pieceCount)
    case AgeGroupField => JStr(d.ageGroup)
    case PriceField => JNum(d.price)
    case HasBuiltField => JBool(d.hasBuilt)
    case TypeField => JStr(d.typeTag)
    case DetailsField => JObj(d.details)
  }

  /** The value an edit writes. */
  function EditValue(e: BaseEdit): Json {
    match e
    case EditSetNumber(s) => JStr(s)
    case EditName(s) => JStr(s)
    case EditPieceCount(n) => JNum(n)
    case EditAgeGroup(s) => JStr(s)
    case EditPrice(n) => JNum(n)
    case EditHasBuilt(b) => JBool(b)
    case EditType(tag) => JStr(tag)
  }

  /** A base edit sets its own key to its value and leaves every other key, details included, alone. */
  lemma {:induction false} ApplyBaseFrame(d: FormData, e: BaseEdit, f: TopField)
    ensures BaseValue(ApplyBase(d, e), f) == if f == e.Field() then EditValue(e) else BaseValue(d, f)
  {
    match e
    case EditSetNumber(_) =>
    case EditName(_) =>
    case EditPieceCount(_) =>
    case EditAgeGroup(_) =>
    case EditPrice(_) =>
    case EditHasBuilt(_) =>
    case EditType(_) =>
  }

  // ----------------------------------------------------------- validation

  /** `!s.trim()`: nothing but white space is left (see BlankIsTrimEmpty). */
  predicate Blank(s: string) {
    AllSpace(s)
  }

  /** Blank is exactly what `!s.trim()` tests. */
  lemma BlankIsTrimEmpty(s: string)
    ensures Blank(s) <==> Trim(s) == ""
  {
    TrimEmptyIff(s);
  }

  /**
   * The `errors` dictionary. Its keys are the paths the form's checks
   * report (`Path.Text()` is the key string): the five base fields and
   * `details.height` / `details.floors`; no other key is ever written.
   */
  datatype FormErrorMap = FormErrorMap(
    setNumber: Option<string>, name: Option<string>, pieceCount: Option<string>,
    ageGroup: Option<string>, price: Option<string>, height: Option<string>, floors: Option<string>)
  {
    /** `errors[p]` */
    function At(p: Path): Option<string> {
      match p
      case Top(SetNumberField) => setNumber
      case Top(NameField) => name
      case Top(PieceCountField) => pieceCount
      case Top(AgeGroupField) => ageGroup
      case Top(PriceField) => price
      case InDetails(HeightField) => height
      case InDetails(FloorsField) => floors
      case _ => None
    }

    /** `Object.keys(errors).length === 0` */
    predicate IsEmpty() {
      setNumber.None? && name.None? && pieceCount.None? && ageGroup.None? && price.None? &&
      height.None? && floors.None?
    }

    /** `{ ...errors, [p]: "" }` for a key the map holds. */
    function Blanked(p: Path): FormErrorMap {
      match p
      case Top(SetNumberField) => this.(setNumber := Some(""))
      case Top(NameField) => this.(name := Some(""))
      case Top(PieceCountField) => this.(pieceCount := Some(""))
      case Top(AgeGroupField) => this.(ageGroup := Some(""))
      case Top(PriceField) => this.(price := Some(""))
      case InDetails(HeightField) => this.(height := Some(""))
      case InDetails(FloorsField) => this.(floors := Some(""))
      case _ => this
    }
  }

  const NoFormErrors := FormErrorMap(None, None, None, None, None, None, None)

  lemma EmptyIsNoFormErrors(e: FormErrorMap)
    ensures e.IsEmpty() <==> e == NoFormErrors
  {
  }

  /** `if (errors[key]) errors = { ...errors, [key]: "" }`: a shown error is blanked, nothing else changes. */
  function ClearError(errors: FormErrorMap, key: Path): (r: FormErrorMap)
    ensures r.At(key) == if errors.At(key).Some? then Some("") else None
  {
    if errors.At(key).Some? && errors.At(key).value != "" then errors.Blanked(key) else errors
  }

  /** Clearing one key leaves every other key as it was. */
  lemma {:induction false} ClearErrorFrame(errors: FormErrorMap, key: Path, other: Path)
    requires other != key
    ensures ClearError(errors, key).At(other) == errors.At(other)
  {
    match key {
      case Top(f) =>
        match other {
          case Top(g) =>
          case _ =>
        }
      case InDetails(f) =>
        match other {
          case InDetails(g) =>
          case _ =>
        }
      case Whole =>
    }
  }

  /** Every failing check of the form, reported together; a passing check leaves its key out. */
  function FormErrors(d: FormData): (e: FormErrorMap)
    ensures e.IsEmpty() ==> !AllSpace(d.setNumber) && !AllSpace(d.name) && !AllSpace(d.ageGroup)
    ensures e.IsEmpty() ==> d.pieceCount > 0.0 && d.price > 0.0
    ensures d.typeTag == KindTag(Vehicles) ==> e.height.None? && e.floors.None?
  {
    FormErrorMap(
      if Blank(d.setNumber) then Some(SetNumberRequired) else None,
      if Blank(d.name) then Some(NameRequired) else None,
      if d.pieceCount <= 0.0 then Some(PieceCountPositive) else None,
      if Blank(d.ageGroup) then Some(AgeGroupRequired) else None,
      if d.price <= 0.0 then Some(PricePositive) else None,
      if d.typeTag == KindTag(Plants) && AtMostZero(Get(d.details, "height")) then Some(HeightPositive) else None,
      if d.typeTag == KindTag(Buildings) && AtMostZero(Get(d.details, "floors")) then Some(FloorsPositive) else None)
  }

  /** Submitting the untouched form reports every base field, and the plant height. */
  lemma {:induction false} InitialFormErrors()
    ensures FormErrors(InitialFormData()) == FormErrorMap(
      Some(SetNumberRequired), Some(NameRequired), Some(PieceCountPositive), Some(AgeGroupRequired),
      Some(PricePositive), Some(HeightPositive), None)
  {
    assert Get(InitialPlantDetails, "height") == JNum(0.0);
  }

  /** Unlike the schema, the form rejects a text field made only of spaces. */
  lemma {:induction false} WhitespaceRejected(d: FormData)
    requires AllSpace(d.setNumber) || AllSpace(d.name) || AllSpace(d.ageGroup)
    ensures !FormErrors(d).IsEmpty()
    ensures AllSpace(d.name) ==> FormErrors(d).name == Some(NameRequired)
  {
  }

  /** Text the form accepts is never empty, so the schema's length check accepts it too. */
  lemma {:induction false} NonBlankHasLength(d: FormData)
    requires FormErrors(d).IsEmpty()
    ensures |d.setNumber| >= 1 && |d.name| >= 1 && |d.ageGroup| >= 1
    ensures d.pieceCount > 0.0 && d.price > 0.0
  {
  }

  /** Detail checks follow the type: height for plants, floors for buildings, nothing for vehicles. */
  lemma {:induction false} DetailChecksByType(d: FormData)
    ensures FormErrors(d).height.Some? <==> d.typeTag == KindTag(Plants) && AtMostZero(Get(d.details, "height"))
    ensures FormErrors(d).floors.Some? <==> d.typeTag == KindTag(Buildings) && AtMostZero(Get(d.details, "floors"))
    ensures d.typeTag == KindTag(Vehicles) ==> FormErrors(d).height.None? && FormErrors(d).floors.None?
  {
  }

  // ------------------------------------------------------------ submitting

  /** `formData as LegoSetType`: the object handed to createLegoSet. */
  function Payload(d: FormData): (p: Json)
    ensures p.JObj? && forall f: TopField :: Get(p.fields, TopName(f)) == BaseValue(d, f)
  {
    JObj(map[
      "setNumber" := JStr(d.setNumber),
      "name" := JStr(d.name),
      "pieceCount" := JNum(d.pieceCount),
      "ageGroup" := JStr(d.ageGroup),
      "price" := JNum(d.price),
      "hasBuilt" := JBool(d.hasBuilt),
      "type" := JStr(d.typeTag),
      "details" := JObj(d.details)])
  }

  /**
   * The form's own checks are stricter than the base schema: a form that
   * passes them sends base fields createLegoSet's validation accepts.
   */
  lemma {:induction false} FormAcceptedBaseAccepted(d: FormData)
    requires FormErrors(d).IsEmpty()
    ensures BaseIssues(Payload(d).fields) == map[]
  {
    var m := Payload(d).fields;
    assert BaseValuesOk(m);
    BaseAcceptedIff(m);
  }

  /** What the submit handler caught: an Error with its message, or some other thrown value. */
  datatype Thrown = ErrorObject(message: string) | OtherValue

  const UnexpectedError := "An unexpected error occurred"

  /** The message shown for a caught value. */
  function ErrorMessage(t: Thrown): (m: string)
    ensures t.ErrorObject? ==> m == t.message
    ensures t.OtherValue? ==> m == UnexpectedError
  {
    if t.ErrorObject? then t.message else UnexpectedError
  }

  /** How an awaited create ended. */
  datatype Outcome = Created(row: Row) | Threw(thrown: Thrown)

  /** The form's callbacks: onSuccess with the created row, or onError with the message. */
  datatype Notice = SuccessNotice(row: Row) | ErrorNotice(message: string)

  /**
   * How a service call's failure reaches the form: both kinds are Error
   * objects; a ZodError's message text is supplied by `zodText`.
   */
  function OutcomeOf(r: Result<Row, ServiceError>, zodText: Issues -> string): (o: Outcome)
    ensures r.Success? <==> o.Created?
    ensures o.Threw? ==> o.thrown.ErrorObject?
  {
    match r
    case Success(row) => Created(row)
    case Failure(Invalid(issues)) => Threw(ErrorObject(zodText(issues)))
    case Failure(Failed(message)) => Threw(ErrorObject(message))
  }

  // --------------------------------------------------------------- the form

  class LegoSetForm {
    var formData: FormData
    var errors: FormErrorMap
    var isSubmitting: bool
    var submitError: Option<string>

    /** The first render: the type effect has run once and found nothing to clear. */
    constructor()
      ensures formData == InitialFormData() && errors == NoFormErrors
      ensures !isSubmitting && submitError == None
    {
      formData := InitialFormData();
      errors := NoFormErrors;
      isSubmitting := false;
      submitError := None;
    }

    /**
     * handleBaseFieldChange, followed by the type-change effect when the
     * edit gave `type` a different value: the details then become that
     * type's defaults and all errors and the submit error are cleared.
     */
    method ChangeBaseField(e: BaseEdit)
      modifies this
      ensures e.EditType? && e.tag != old(formData.typeTag) ==>
        && formData == old(formData).(typeTag := e.tag, details := InitialDetails(e.tag))
        && errors == NoFormErrors && submitError == None
      ensures !(e.EditType? && e.tag != old(formData.typeTag)) ==>
        && formData == ApplyBase(old(formData), e)
        && errors == ClearError(old(errors), Top(e.Field()))
        && submitError == old(submitError)
      ensures isSubmitting == old(isSubmitting)
    {
      var previousType := formData.typeTag;
      formData := ApplyBase(formData, e);
      var key := Top(e.Field());
      if errors.At(key).Some? && errors.At(key).value != "" {
        errors := errors.Blanked(key);
      }
      if formData.typeTag != previousType {
        formData := formData.(details := InitialDetails(formData.typeTag));
        errors := NoFormErrors;
        submitError := None;
      }
    }

    /** handleDetailsFieldChange: one key of `details` is set and its error, if shown, is blanked. */
    method ChangeDetailsField(f: DetailField, v: Json)
      modifies this
      ensures formData == old(formData).(details := old(formData.details)[DetailName(f) := v])
      ensures errors == ClearError(old(errors), InDetails(f))
      ensures isSubmitting == old(isSubmitting) && submitError == old(submitError)
    {
      formData := formData.(details := formData.details[DetailName(f) := v]);
      var key := InDetails(f);
      if errors.At(key).Some? && errors.At(key).value != "" {
        errors := errors.Blanked(key);
      }
    }

    /** validateForm: every check runs, all failures are stored together; true iff there are none. */
    method ValidateForm() returns (ok: bool)
      modifies this
      ensures errors == FormErrors(formData)
      ensures ok <==> errors.IsEmpty()
      ensures formData == old(formData) && isSubmitting == old(isSubmitting) && submitError == old(submitError)
    {
      var d := formData;
      var newErrors := NoFormErrors;
      if Blank(d.setNumber) {
        newErrors := newErrors.(setNumber := Some(SetNumberRequired));
      }
      assert newErrors.setNumber == FormErrors(d).setNumber;
      if Blank(d.name) {
        newErrors := newErrors.(name := Some(NameRequired));
      }
      assert newErrors.name == FormErrors(d).name;
      if d.pieceCount <= 0.0 {
        newErrors := newErrors.(pieceCount := Some(PieceCountPositive));
      }
      assert newErrors.pieceCount == FormErrors(d).pieceCount;
      if Blank(d.ageGroup) {
        newErrors := newErrors.(ageGroup := Some(AgeGroupRequired));
      }
      assert newErrors.ageGroup == FormErrors(d).ageGroup;
      if d.price <= 0.0 {
        newErrors := newErrors.(price := Some(PricePositive));
      }
      assert newErrors.price == FormErrors(d).price;
      if d.typeTag == KindTag(Plants) {
        if AtMostZero(Get(d.details, "height")) {
          newErrors := newErrors.(height := Some(HeightPositive));
        }
      } else if d.typeTag == KindTag(Buildings) {
        if AtMostZero(Get(d.details, "floors")) {
          newErrors := newErrors.(floors := Some(FloorsPositive));
        }
      }
      errors := newErrors;
      ok := newErrors.IsEmpty();
    }

    /**
     * The synchronous part of handleSubmit: validate; when that fails
     * nothing is sent (None); otherwise the form is marked as submitting
     * and the payload to create is returned.
     */
    method BeginSubmit() returns (payload: Option<Json>)
      modifies this
      ensures formData == old(formData) && errors == FormErrors(old(formData))
      ensures payload.None? <==> !FormErrors(old(formData)).IsEmpty()
      ensures payload.None? ==> isSubmitting == old(isSubmitting) && submitError == old(submitError)
      ensures payload.Some? ==> payload.value == Payload(formData) && isSubmitting && submitError == None
    {
      var ok := ValidateForm();
      if !ok {
        return None;
      }
      isSubmitting := true;
      submitError := None;
      payload := Some(Payload(formData));
    }

    /**
     * The rest of handleSubmit once the create has settled: a created row
     * resets the form (and, when the type was not plants, the type effect
     * clears the submit error), a caught value becomes the submit error;
     * either way the form stops submitting. The callback it triggers is
     * returned.
     */
    method FinishSubmit(outcome: Outcome) returns (notice: Notice)
      modifies this
      ensures !isSubmitting
      ensures outcome.Created? ==>
        && formData == InitialFormData() && errors == NoFormErrors
        && submitError == (if old(formData.typeTag) != KindTag(Plants) then None else old(submitError))
        && notice == SuccessNotice(outcome.row)
      ensures outcome.Threw? ==>
        && formData == old(formData) && errors == old(errors)
        && submitError == Some(ErrorMessage(outcome.thrown))
        && notice == ErrorNotice(ErrorMessage(outcome.thrown))
    {
      isSubmitting := false;
      match outcome
      case Created(row) =>
        if formData.typeTag != KindTag(Plants) {
          // the reset changes `type`, so the type effect runs as well
          submitError := None;
        }
        formData := InitialFormData();
        errors := NoFormErrors;
        notice := SuccessNotice(row);
      case Threw(thrown) =>
        var message := ErrorMessage(thrown);
        submitError := Some(message);
        notice := ErrorNotice(message);
    }

    /**
     * handleSubmit against the service: `insert` stands for the store and
     * `zodText` for the message text of a ZodError. A form that fails its
     * own checks never calls the service (None).
     */
    method HandleSubmit(insert: DbRow -> Reply<Row>, zodText: Issues -> string) returns (notice: Option<Notice>)
      modifies this
      ensures notice.None? <==> !FormErrors(old(formData)).IsEmpty()
      ensures notice.None? ==>
        && formData == old(formData) && errors == FormErrors(old(formData))
        && isSubmitting == old(isSubmitting) && submitError == old(submitError)
      ensures notice.Some? ==> !isSubmitting
      ensures notice.Some? && CreateLegoSet(Payload(old(formData)), insert).Success? ==>
        && formData == InitialFormData() && errors == NoFormErrors && submitError == None
        && notice.value == SuccessNotice(CreateLegoSet(Payload(old(formData)), insert).value)
      ensures notice.Some? && CreateLegoSet(Payload(old(formData)), insert).Failure? ==>
        && formData == old(formData) && errors == FormErrors(old(formData))
        && submitError == Some(ErrorMessage(OutcomeOf(CreateLegoSet(Payload(old(formData)), insert), zodText).thrown))
        && notice.value == ErrorNotice(submitError.value)
    {
      var payload := BeginSubmit();
      if payload.None? {
        return None;
      }
      var result := CreateLegoSet(payload.value, insert);
      var n := FinishSubmit(OutcomeOf(result, zodText));
      notice := Some(n);
    }
  }
}
