/**
 * What the schema in src/features/collection/types.ts promises, proved
 * about LegoTypes.Validate: first what each zod field schema promises,
 * then how the union reports the fields of the variant it selects, then
 * the concrete rules, the defaults and the round trip.
 */
module LegoSchemaFacts {
  import opened Wrappers
  import opened JsValue
  import opened LegoTypes

  /** The issue map of a parse; empty when the parse succeeds. */
  function ValidationIssues(raw: Json): Issues {
    IssuesOf(Validate(raw))
  }

  predicate IsNonEmptyString(v: Json) {
    v.JStr? && |v.s| >= 1
  }

  predicate IsPositiveNumber(v: Json) {
    v.JNum? && v.n > 0.0
  }

  /** What the base schema accepts, field by field. */
  predicate BaseValuesOk(m: map<string, Json>) {
    && IsNonEmptyString(Get(m, "setNumber"))
    && IsNonEmptyString(Get(m, "name"))
    && IsPositiveNumber(Get(m, "pieceCount"))
    && IsNonEmptyString(Get(m, "ageGroup"))
    && IsPositiveNumber(Get(m, "price"))
    && (Get(m, "hasBuilt").JBool? || Get(m, "hasBuilt").JUndefined?)
  }

  /** What each variant's `details` schema accepts, field by field. */
  predicate DetailValuesOk(k: Kind, d: map<string, Json>) {
    match k
    case Plants =>
      && Get(d, "plantType").JStr? && Get(d, "plantType").s in PlantTypeNames
      && IsPositiveNumber(Get(d, "height"))
      && (Get(d, "vaseIncluded").JBool? || Get(d, "vaseIncluded").JUndefined?)
    case Vehicles =>
      && Get(d, "vehicleType").JStr? && Get(d, "vehicleType").s in VehicleTypeNames
      && (Get(d, "brand").JStr? || Get(d, "brand").JUndefined?)
      && (Get(d, "model").JStr? || Get(d, "model").JUndefined?)
    case Buildings =>
      && Get(d, "buildingType").JStr? && Get(d, "buildingType").s in BuildingTypeNames
      && IsPositiveNumber(Get(d, "floors"))
      && Get(d, "furnished").JBool?
  }

  // ------------------------------------------------ field schema rules

  /** `z.string().min(1, message)`: reported unless a non-empty string; "" gets the message. */
  lemma TextRule(shape: Shape, m: map<string, Json>, p: Path)
    requires p in shape && shape[p].Text?
    ensures p in ShapeIssues(shape, m) <==> !IsNonEmptyString(Get(m, p.Key()))
    ensures Get(m, p.Key()) == JStr("") ==> ShapeIssues(shape, m)[p] == shape[p].minMessage
  {
    ShapeIssueAt(shape, m, p);
  }

  /** `z.number().positive(message)`: reported unless a positive number; zero or less gets the message. */
  lemma PositiveRule(shape: Shape, m: map<string, Json>, p: Path)
    requires p in shape && shape[p].Positive?
    ensures p in ShapeIssues(shape, m) <==> !IsPositiveNumber(Get(m, p.Key()))
    ensures Get(m, p.Key()).JNum? && Get(m, p.Key()).n <= 0.0 ==>
      ShapeIssues(shape, m)[p] == shape[p].positiveMessage
  {
    ShapeIssueAt(shape, m, p);
  }

  /** `z.enum(names, { error })`: reported unless one of the names, always with the given message. */
  lemma EnumRule(shape: Shape, m: map<string, Json>, p: Path)
    requires p in shape && shape[p].Enum?
    ensures p in ShapeIssues(shape, m) <==> !(Get(m, p.Key()).JStr? && Get(m, p.Key()).s in shape[p].names)
    ensures p in ShapeIssues(shape, m) ==> ShapeIssues(shape, m)[p] == shape[p].enumMessage
  {
    ShapeIssueAt(shape, m, p);
  }

  /** `z.boolean()` has no default: an absent key is reported. */
  lemma BooleanRule(shape: Shape, m: map<string, Json>, p: Path)
    requires p in shape && shape[p].Boolean?
    ensures p in ShapeIssues(shape, m) <==> !Get(m, p.Key()).JBool?
  {
    ShapeIssueAt(shape, m, p);
  }

  /** `z.boolean().default(d)` and `z.string().optional()` accept an absent key. */
  lemma MayBeAbsentRule(shape: Shape, m: map<string, Json>, p: Path)
    requires p in shape && (shape[p].BooleanDefault? || shape[p].OptionalText?)
    ensures shape[p].BooleanDefault? ==>
      (p in ShapeIssues(shape, m) <==> !(Get(m, p.Key()).JBool? || Get(m, p.Key()).JUndefined?))
    ensures shape[p].OptionalText? ==>
      (p in ShapeIssues(shape, m) <==> !(Get(m, p.Key()).JStr? || Get(m, p.Key()).JUndefined?))
  {
    ShapeIssueAt(shape, m, p);
  }

  /** Every field of the shape accepts its value. */
  predicate FieldsClean(shape: Shape, m: map<string, Json>) {
    forall p :: p in shape ==> Issue(shape[p], Get(m, p.Key())).None?
  }

  /** `z.object(shape)` reports nothing exactly when every field accepts its value. */
  lemma ShapeCleanIff(shape: Shape, m: map<string, Json>)
    ensures ShapeIssues(shape, m) == map[] <==> FieldsClean(shape, m)
  {
    if FieldsClean(shape, m) {
      forall p | p in shape
        ensures p !in ShapeIssues(shape, m)
      {
        ShapeIssueAt(shape, m, p);
      }
      assert ShapeIssues(shape, m).Keys == {};
    } else {
      var p :| p in shape && Issue(shape[p], Get(m, p.Key())).Some?;
      ShapeIssueAt(shape, m, p);
    }
  }

  lemma BaseShapeKeys()
    ensures BaseShape.Keys == {Top(SetNumberField), Top(NameField), Top(PieceCountField),
                               Top(AgeGroupField), Top(PriceField), Top(HasBuiltField)}
  {
  }

  /** The base schema accepts exactly the objects whose six fields are acceptable. */
  lemma BaseAcceptedIff(m: map<string, Json>)
    ensures BaseIssues(m) == map[] <==> BaseValuesOk(m)
  {
    SetNumberRule(m);
    NameRule(m);
    PieceCountRule(m);
    AgeGroupRule(m);
    PriceRule(m);
    HasBuiltRule(m);
    BaseShapeKeys();
    if BaseValuesOk(m) {
      assert BaseIssues(m).Keys == {};
    }
  }

  /** Each variant's `details` schema accepts exactly the values `DetailValuesOk` lists. */
  lemma DetailAcceptedIff(k: Kind, d: map<string, Json>)
    ensures ShapeIssues(DetailShape(k), d) == map[] <==> DetailValuesOk(k, d)
  {
    match k
    case Plants => PlantsAcceptedIff(d);
    case Vehicles => VehiclesAcceptedIff(d);
    case Buildings => BuildingsAcceptedIff(d);
  }

  lemma PlantsAcceptedIff(d: map<string, Json>)
    ensures ShapeIssues(DetailShape(Plants), d) == map[] <==> DetailValuesOk(Plants, d)
  {
    PlantDetailRules(d);
    MayBeAbsentRule(DetailShape(Plants), d, InDetails(VaseIncludedField));
    var e := ShapeIssues(DetailShape(Plants), d);
    assert DetailShape(Plants).Keys == {InDetails(PlantTypeField), InDetails(HeightField), InDetails(VaseIncludedField)};
    if DetailValuesOk(Plants, d) {
      assert e.Keys == {};
    }
  }

  lemma VehiclesAcceptedIff(d: map<string, Json>)
    ensures ShapeIssues(DetailShape(Vehicles), d) == map[] <==> DetailValuesOk(Vehicles, d)
  {
    VehicleDetailRules(d);
    var e := ShapeIssues(DetailShape(Vehicles), d);
    assert DetailShape(Vehicles).Keys == {InDetails(VehicleTypeField), InDetails(BrandField), InDetails(ModelField)};
    if DetailValuesOk(Vehicles, d) {
      assert e.Keys == {};
    }
  }

  lemma BuildingsAcceptedIff(d: map<string, Json>)
    ensures ShapeIssues(DetailShape(Buildings), d) == map[] <==> DetailValuesOk(Buildings, d)
  {
    BuildingDetailRules(d);
    FurnishedRequired(d);
    var e := ShapeIssues(DetailShape(Buildings), d);
    assert DetailShape(Buildings).Keys == {InDetails(BuildingTypeField), InDetails(FloorsField), InDetails(FurnishedField)};
    if DetailValuesOk(Buildings, d) {
      assert e.Keys == {};
    }
  }

  // ------------------------------------------- how the union reports

  /**
   * With a known tag, the issues reported are those of the selected
   * variant, `VariantIssues(k, m)`, success or not. The rules below are
   * stated on `VariantIssues`.
   */
  lemma IssuesOfKnownTag(m: map<string, Json>, k: Kind)
    requires ParseKind(Get(m, "type")) == Some(k)
    ensures ValidationIssues(JObj(m)) == VariantIssues(k, m)
    ensures Validate(JObj(m)).Success? <==> VariantIssues(k, m) == map[]
  {
  }

  lemma BasePathsAreTop(p: Path)
    requires p in BaseShape
    ensures p.Top? && p.top != DetailsField && p.top != TypeField
  {
  }

  lemma DetailPathsAreInner(k: Kind, p: Path)
    requires p in DetailShape(k)
    ensures p.InDetails?
  {
  }

  lemma InnerPathNotBase(m: map<string, Json>, p: Path)
    requires p.InDetails?
    ensures p !in BaseIssues(m)
  {
  }

  /**
   * A base field is reported exactly as the base schema reports it,
   * whatever the other fields hold: all failing fields are reported in
   * one pass.
   */
  lemma BaseFieldIssue(m: map<string, Json>, k: Kind, p: Path)
    requires p in BaseShape
    ensures p in VariantIssues(k, m) <==> p in BaseIssues(m)
    ensures p in BaseIssues(m) ==> VariantIssues(k, m)[p] == BaseIssues(m)[p]
  {
    BasePathsAreTop(p);
    var d := DetailIssues(k, Get(m, "details"));
    assert p !in d;
    assert VariantIssues(k, m) == BaseIssues(m) + d;
  }

  /** With an object `details`, each detail field is reported as its variant's shape reports it. */
  lemma DetailFieldIssue(m: map<string, Json>, k: Kind, p: Path)
    requires Get(m, "details").JObj? && p in DetailShape(k)
    ensures p in VariantIssues(k, m) <==> p in ShapeIssues(DetailShape(k), Get(m, "details").fields)
    ensures p in ShapeIssues(DetailShape(k), Get(m, "details").fields) ==>
      VariantIssues(k, m)[p] == ShapeIssues(DetailShape(k), Get(m, "details").fields)[p]
  {
    DetailPathsAreInner(k, p);
    InnerPathNotBase(m, p);
    var d := DetailIssues(k, Get(m, "details"));
    assert d == ShapeIssues(DetailShape(k), Get(m, "details").fields);
    assert VariantIssues(k, m) == BaseIssues(m) + d;
  }

  /** A `details` that is not an object is reported once, at "details", and none of its fields is. */
  lemma DetailsMustBeObject(m: map<string, Json>, k: Kind)
    requires !Get(m, "details").JObj?
    ensures Top(DetailsField) in VariantIssues(k, m)
    ensures VariantIssues(k, m)[Top(DetailsField)] == TypeIssue("object", Get(m, "details"))
    ensures forall p: Path :: p.InDetails? ==> p !in VariantIssues(k, m)
  {
    forall p: Path | p.InDetails?
      ensures p !in BaseIssues(m)
    {
      InnerPathNotBase(m, p);
    }
    assert Top(DetailsField) !in BaseShape;
    assert VariantIssues(k, m) == BaseIssues(m) + map[Top(DetailsField) := TypeIssue("object", Get(m, "details"))];
  }

  /**
   * A tag outside {plants, vehicles, buildings} is rejected with one
   * issue at "type", before any other field is looked at; a value that is
   * not an object is rejected as a whole.
   */
  lemma UnknownTagRejected(raw: Json)
    requires !raw.JObj? || ParseKind(Get(raw.fields, "type")).None?
    ensures raw.JObj? ==> Validate(raw) == Failure(map[Top(TypeField) := InvalidInput])
    ensures !raw.JObj? ==> Validate(raw) == Failure(map[Whole := TypeIssue("object", raw)])
  {
  }

  /** The tag accepts only the three enumerated strings. */
  lemma TagAcceptedIff(v: Json)
    ensures ParseKind(v).Some? <==> v == JStr("plants") || v == JStr("vehicles") || v == JStr("buildings")
  {
  }

  /** A variant reports nothing exactly when its base fields and its object `details` are acceptable. */
  lemma VariantAcceptedIff(k: Kind, m: map<string, Json>)
    ensures VariantIssues(k, m) == map[] <==>
      BaseValuesOk(m) && Get(m, "details").JObj? && DetailValuesOk(k, Get(m, "details").fields)
  {
    BaseAcceptedIff(m);
    if Get(m, "details").JObj? {
      DetailAcceptedIff(k, Get(m, "details").fields);
    }
    if VariantIssues(k, m) == map[] {
      NoVariantIssues(k, m);
    } else if Get(m, "details").JObj? {
      assert DetailIssues(k, Get(m, "details")) == ShapeIssues(DetailShape(k), Get(m, "details").fields);
    }
  }

  /**
   * The union accepts exactly the objects with a known tag whose base
   * fields and whose object `details` the selected variant accepts.
   */
  lemma AcceptedIff(m: map<string, Json>)
    ensures Validate(JObj(m)).Success? <==>
      && ParseKind(Get(m, "type")).Some?
      && BaseValuesOk(m)
      && Get(m, "details").JObj?
      && DetailValuesOk(ParseKind(Get(m, "type")).value, Get(m, "details").fields)
  {
    match ParseKind(Get(m, "type"))
    case None =>
    case Some(k) =>
      IssuesOfKnownTag(m, k);
      VariantAcceptedIff(k, m);
  }

  // ------------------------------------------------------ the rules

  /**
   * The rules of baseLegoSetSchema; by `BaseFieldIssue` the selected
   * variant reports the base fields the same way.
   *
   * The three text fields: each is reported exactly when it is not a
   * non-empty string; a present but empty string gets the field's own
   * message. Lengths are counted without trimming.
   */
  lemma SetNumberRule(m: map<string, Json>)
    ensures Top(SetNumberField) in BaseIssues(m) <==> !IsNonEmptyString(Get(m, "setNumber"))
    ensures Get(m, "setNumber") == JStr("") ==> BaseIssues(m)[Top(SetNumberField)] == SetNumberRequired
  {
    TextRule(BaseShape, m, Top(SetNumberField));
  }

  lemma NameRule(m: map<string, Json>)
    ensures Top(NameField) in BaseIssues(m) <==> !IsNonEmptyString(Get(m, "name"))
    ensures Get(m, "name") == JStr("") ==> BaseIssues(m)[Top(NameField)] == NameRequired
  {
    TextRule(BaseShape, m, Top(NameField));
  }

  lemma AgeGroupRule(m: map<string, Json>)
    ensures Top(AgeGroupField) in BaseIssues(m) <==> !IsNonEmptyString(Get(m, "ageGroup"))
    ensures Get(m, "ageGroup") == JStr("") ==> BaseIssues(m)[Top(AgeGroupField)] == AgeGroupRequired
  {
    TextRule(BaseShape, m, Top(AgeGroupField));
  }

  /** A name of spaces is a non-empty string: the schema does not trim. */
  lemma BlankNameAccepted(m: map<string, Json>)
    requires Get(m, "name") == JStr("   ")
    ensures Top(NameField) !in BaseIssues(m)
  {
    NameRule(m);
  }

  /** The two numeric fields: reported unless positive; zero or less gets the field's message. */
  lemma PieceCountRule(m: map<string, Json>)
    ensures Top(PieceCountField) in BaseIssues(m) <==> !IsPositiveNumber(Get(m, "pieceCount"))
    ensures Get(m, "pieceCount").JNum? && Get(m, "pieceCount").n <= 0.0 ==>
      BaseIssues(m)[Top(PieceCountField)] == PieceCountPositive
  {
    PositiveRule(BaseShape, m, Top(PieceCountField));
  }

  lemma PriceRule(m: map<string, Json>)
    ensures Top(PriceField) in BaseIssues(m) <==> !IsPositiveNumber(Get(m, "price"))
    ensures Get(m, "price").JNum? && Get(m, "price").n <= 0.0 ==>
      BaseIssues(m)[Top(PriceField)] == PricePositive
  {
    PositiveRule(BaseShape, m, Top(PriceField));
  }

  /** `hasBuilt` may be absent or a boolean; anything else is reported. */
  lemma HasBuiltRule(m: map<string, Json>)
    ensures Top(HasBuiltField) in BaseIssues(m) <==>
      !(Get(m, "hasBuilt").JBool? || Get(m, "hasBuilt").JUndefined?)
  {
    MayBeAbsentRule(BaseShape, m, Top(HasBuiltField));
  }

  /**
   * Plant details: "details.height" is reported exactly when the height
   * is not a positive number, and an unlisted plant type is reported as
   * "Plant type is required".
   */
  lemma PlantDetailRules(d: map<string, Json>)
    ensures var e := ShapeIssues(DetailShape(Plants), d);
      && (InDetails(HeightField) in e <==> !IsPositiveNumber(Get(d, "height")))
      && (Get(d, "height").JNum? && Get(d, "height").n <= 0.0 ==> e[InDetails(HeightField)] == HeightPositive)
      && (InDetails(PlantTypeField) in e <==> !(Get(d, "plantType").JStr? && Get(d, "plantType").s in PlantTypeNames))
      && (InDetails(PlantTypeField) in e ==> e[InDetails(PlantTypeField)] == PlantTypeRequired)
  {
    PositiveRule(DetailShape(Plants), d, InDetails(HeightField));
    EnumRule(DetailShape(Plants), d, InDetails(PlantTypeField));
  }

  /**
   * Vehicle details: the vehicle type must be listed; brand and model may
   * each be absent or any string.
   */
  lemma VehicleDetailRules(d: map<string, Json>)
    ensures var e := ShapeIssues(DetailShape(Vehicles), d);
      && (InDetails(VehicleTypeField) in e <==>
           !(Get(d, "vehicleType").JStr? && Get(d, "vehicleType").s in VehicleTypeNames))
      && (InDetails(VehicleTypeField) in e ==> e[InDetails(VehicleTypeField)] == VehicleTypeRequired)
      && (InDetails(BrandField) in e <==> !(Get(d, "brand").JStr? || Get(d, "brand").JUndefined?))
      && (InDetails(ModelField) in e <==> !(Get(d, "model").JStr? || Get(d, "model").JUndefined?))
  {
    EnumRule(DetailShape(Vehicles), d, InDetails(VehicleTypeField));
    MayBeAbsentRule(DetailShape(Vehicles), d, InDetails(BrandField));
    MayBeAbsentRule(DetailShape(Vehicles), d, InDetails(ModelField));
  }

  /**
   * Building details: "details.floors" is reported exactly when floors is
   * not a positive number, and the building type must be listed.
   */
  lemma BuildingDetailRules(d: map<string, Json>)
    ensures var e := ShapeIssues(DetailShape(Buildings), d);
      && (InDetails(FloorsField) in e <==> !IsPositiveNumber(Get(d, "floors")))
      && (Get(d, "floors").JNum? && Get(d, "floors").n <= 0.0 ==> e[InDetails(FloorsField)] == FloorsPositive)
      && (InDetails(BuildingTypeField) in e <==>
           !(Get(d, "buildingType").JStr? && Get(d, "buildingType").s in BuildingTypeNames))
      && (InDetails(BuildingTypeField) in e ==> e[InDetails(BuildingTypeField)] == BuildingTypeRequired)
  {
    PositiveRule(DetailShape(Buildings), d, InDetails(FloorsField));
    EnumRule(DetailShape(Buildings), d, InDetails(BuildingTypeField));
  }

  /** `furnished` has no default: a missing or non-boolean value is reported. */
  lemma FurnishedRequired(d: map<string, Json>)
    ensures InDetails(FurnishedField) in ShapeIssues(DetailShape(Buildings), d) <==> !Get(d, "furnished").JBool?
  {
    BooleanRule(DetailShape(Buildings), d, InDetails(FurnishedField));
  }


  /**
   * Defaults: an absent `hasBuilt` parses as true, and so does an absent
   * plant `vaseIncluded`.
   */
  lemma DefaultsApplied(m: map<string, Json>)
    requires "hasBuilt" !in m
    requires Validate(JObj(m)).Success?
    ensures Validate(JObj(m)).value.hasBuilt
    ensures (Validate(JObj(m)).value.details.PlantDetails? && Get(m, "details").JObj? &&
             "vaseIncluded" !in Get(m, "details").fields) ==> Validate(JObj(m)).value.details.vaseIncluded
  {
  }

  /**
   * Every accepted object, canonical or not: the parsed base fields are the
   * object's own values, and an explicit hasBuilt is kept.
   */
  lemma {:induction false} ValidateKeepsBaseValues(m: map<string, Json>)
    requires Validate(JObj(m)).Success?
    ensures var item := Validate(JObj(m)).value;
      && Get(m, "setNumber") == JStr(item.setNumber) && Get(m, "name") == JStr(item.name)
      && Get(m, "pieceCount") == JNum(item.pieceCount) && Get(m, "ageGroup") == JStr(item.ageGroup)
      && Get(m, "price") == JNum(item.price)
      && (Get(m, "hasBuilt").JBool? ==> Get(m, "hasBuilt") == JBool(item.hasBuilt))
  {
    var k := Validate(JObj(m)).value.details.Kind();
    assert ParseKind(Get(m, "type")) == Some(k);
    NoVariantIssues(k, m);
    assert Validate(JObj(m)).value == ParseItem(k, m);
  }

  /** Every accepted object: the parsed details hold the object's own detail values. */
  lemma {:induction false} ValidateKeepsDetailValues(m: map<string, Json>)
    requires Validate(JObj(m)).Success?
    ensures Get(m, "details").JObj?
    ensures var d := Validate(JObj(m)).value.details; var dm := Get(m, "details").fields;
      && (d.PlantDetails? ==>
            Get(dm, "plantType") == JStr(PlantTypeName(d.plantType)) && Get(dm, "height") == JNum(d.height)
            && (Get(dm, "vaseIncluded").JBool? ==> Get(dm, "vaseIncluded") == JBool(d.vaseIncluded)))
      && (d.VehicleDetails? ==>
            Get(dm, "vehicleType") == JStr(VehicleTypeName(d.vehicleType))
            && (Get(dm, "brand").JStr? ==> d.brand == Some(Get(dm, "brand").s))
            && (Get(dm, "model").JStr? ==> d.model == Some(Get(dm, "model").s)))
      && (d.BuildingDetails? ==>
            Get(dm, "buildingType") == JStr(BuildingTypeName(d.buildingType)) && Get(dm, "floors") == JNum(d.floors)
            && Get(dm, "furnished") == JBool(d.furnished))
  {
    var k := Validate(JObj(m)).value.details.Kind();
    assert ParseKind(Get(m, "type")) == Some(k);
    NoVariantIssues(k, m);
    assert Validate(JObj(m)).value == ParseItem(k, m);
  }

  // ------------------------------------------------------ round trip

  /** What each key of a record's object form holds. */
  lemma EncodeReads(item: Item)
    ensures var m := Encode(item).fields;
      && Get(m, "setNumber") == JStr(item.setNumber)
      && Get(m, "name") == JStr(item.name)
      && Get(m, "pieceCount") == JNum(item.pieceCount)
      && Get(m, "ageGroup") == JStr(item.ageGroup)
      && Get(m, "price") == JNum(item.price)
      && Get(m, "hasBuilt") == JBool(item.hasBuilt)
      && Get(m, "type") == JStr(KindTag(item.details.Kind()))
      && Get(m, "details") == EncodeDetails(item.details)
  {
  }

  /** The base fields of a record that meets the constraints satisfy the base schema. */
  lemma EncodeBaseClean(item: Item)
    requires ValidItem(item)
    ensures BaseIssues(Encode(item).fields) == map[]
  {
    EncodeReads(item);
    BaseAcceptedIff(Encode(item).fields);
  }

  /** What each key of the object form of a record's details holds. */
  lemma EncodeDetailsReads(d: Details)
    ensures EncodeDetails(d).JObj?
    ensures var m := EncodeDetails(d).fields;
      match d
      case PlantDetails(t, h, vase) =>
        Get(m, "plantType") == JStr(PlantTypeName(t)) && Get(m, "height") == JNum(h) &&
        Get(m, "vaseIncluded") == JBool(vase)
      case VehicleDetails(t, brand, model) =>
        && Get(m, "vehicleType") == JStr(VehicleTypeName(t))
        && Get(m, "brand") == (if brand.Some? then JStr(brand.value) else JUndefined)
        && Get(m, "model") == (if model.Some? then JStr(model.value) else JUndefined)
      case BuildingDetails(t, f, furnished) =>
        Get(m, "buildingType") == JStr(BuildingTypeName(t)) && Get(m, "floors") == JNum(f) &&
        Get(m, "furnished") == JBool(furnished)
  {
  }

  /** Details whose numbers are positive satisfy their own variant's shape. */
  lemma EncodeDetailsClean(d: Details)
    requires d.PlantDetails? ==> d.height > 0.0
    requires d.BuildingDetails? ==> d.floors > 0.0
    ensures EncodeDetails(d).JObj?
    ensures ShapeIssues(DetailShape(d.Kind()), EncodeDetails(d).fields) == map[]
  {
    EncodedDetailsOk(d);
    DetailAcceptedIff(d.Kind(), EncodeDetails(d).fields);
  }

  lemma EncodedDetailsOk(d: Details)
    requires d.PlantDetails? ==> d.height > 0.0
    requires d.BuildingDetails? ==> d.floors > 0.0
    ensures EncodeDetails(d).JObj?
    ensures DetailValuesOk(d.Kind(), EncodeDetails(d).fields)
  {
    EncodeDetailsReads(d);
  }

  /** Parsing the encoded details gives back the details. */
  lemma ParseEncodeDetails(d: Details)
    requires d.PlantDetails? ==> d.height > 0.0
    requires d.BuildingDetails? ==> d.floors > 0.0
    ensures EncodeDetails(d).JObj? && ShapeIssues(DetailShape(d.Kind()), EncodeDetails(d).fields) == map[]
    ensures ParseDetails(d.Kind(), EncodeDetails(d)) == d
  {
    EncodeDetailsReads(d);
    EncodeDetailsClean(d);
    match d
    case PlantDetails(t, _, _) =>
      EnumNamesRoundTrip(Plants, t, Car, Residential);
    case VehicleDetails(t, _, _) =>
      EnumNamesRoundTrip(Vehicles, Rose, t, Residential);
    case BuildingDetails(t, _, _) =>
      EnumNamesRoundTrip(Buildings, Rose, Car, t);
  }

  /** The object form of a record that meets the constraints has no issue under its own variant. */
  lemma EncodeAccepted(item: Item)
    requires ValidItem(item)
    ensures VariantIssues(item.details.Kind(), Encode(item).fields) == map[]
  {
    EncodeReads(item);
    EncodeBaseClean(item);
    EncodeDetailsClean(item.details);
  }

  /** Reading the typed record back from its object form gives the record. */
  lemma ParseItemEncode(item: Item)
    requires ValidItem(item)
    ensures var m, k := Encode(item).fields, item.details.Kind();
      && BaseIssues(m) == map[]
      && Get(m, "details").JObj? && ShapeIssues(DetailShape(k), Get(m, "details").fields) == map[]
      && ParseItem(k, m) == item
  {
    EncodeReads(item);
    EncodeAccepted(item);
    NoVariantIssues(item.details.Kind(), Encode(item).fields);
    ParseEncodeDetails(item.details);
  }

  /**
   * Round trip: every record that meets the constraints parses back to
   * itself from its JavaScript object form.
   */
  lemma ValidateEncodeRoundTrip(item: Item)
    requires ValidItem(item)
    ensures Validate(Encode(item)) == Success(item)
  {
    EncodeReads(item);
    EnumNamesRoundTrip(item.details.Kind(), Rose, Car, Residential);
    EncodeAccepted(item);
    ParseItemEncode(item);
  }

  // ------------------------------------------------------ the examples

  function FlowerBouquet(): map<string, Json> {
    map[
      "setNumber" := JStr("10280"), "name" := JStr("Flower Bouquet"),
      "pieceCount" := JNum(756.0), "ageGroup" := JStr("18+"), "price" := JNum(49.99),
      "hasBuilt" := JBool(true), "type" := JStr("plants"),
      "details" := JObj(map["plantType" := JStr("rose"), "height" := JNum(30.0), "vaseIncluded" := JBool(true)])]
  }

  function FlowerBouquetItem(): Item {
    Item("10280", "Flower Bouquet", 756.0, "18+", 49.99, true, PlantDetails(Rose, 30.0, true))
  }

  /** The complete Flower Bouquet record parses to the typed record with the same values. */
  lemma FlowerBouquetAccepted()
    ensures Validate(JObj(FlowerBouquet())) == Success(FlowerBouquetItem())
  {
    FlowerBouquetIsEncoded();
    ValidateEncodeRoundTrip(FlowerBouquetItem());
  }

  /** The fixture is the object form of the typed record. */
  lemma FlowerBouquetIsEncoded()
    ensures Encode(FlowerBouquetItem()) == JObj(FlowerBouquet())
  {
  }

  /** The same record priced at 0 fails with the price issue and nothing else. */
  lemma ZeroPriceRejected()
    ensures Validate(Encode(FlowerBouquetItem().(price := 0.0))) ==
      Failure(map[Top(PriceField) := PricePositive])
  {
    var item := FlowerBouquetItem().(price := 0.0);
    EncodeReads(item);
    EnumNamesRoundTrip(Plants, Rose, Car, Residential);
    IssuesOfKnownTag(Encode(item).fields, Plants);
    ZeroPriceIssues();
  }

  lemma ZeroPriceIssues()
    ensures VariantIssues(Plants, Encode(FlowerBouquetItem().(price := 0.0)).fields) ==
      map[Top(PriceField) := PricePositive]
  {
    var item := FlowerBouquetItem().(price := 0.0);
    var m := Encode(item).fields;
    EncodeReads(item);
    EncodeDetailsClean(item.details);
    assert DetailIssues(Plants, Get(m, "details")) == map[];
    ZeroPriceBaseIssues(m);
  }

  lemma ZeroPriceBaseIssues(m: map<string, Json>)
    requires Get(m, "setNumber") == JStr("10280") && Get(m, "name") == JStr("Flower Bouquet")
    requires Get(m, "pieceCount") == JNum(756.0) && Get(m, "ageGroup") == JStr("18+")
    requires Get(m, "price") == JNum(0.0) && Get(m, "hasBuilt") == JBool(true)
    ensures BaseIssues(m) == map[Top(PriceField) := PricePositive]
  {
    SetNumberRule(m);
    NameRule(m);
    PieceCountRule(m);
    AgeGroupRule(m);
    PriceRule(m);
    HasBuiltRule(m);
    BaseShapeKeys();
    assert BaseIssues(m).Keys == {Top(PriceField)};
  }
}
