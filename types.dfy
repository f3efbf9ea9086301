/**
 * The collection item: a record with base fields and a `type` tag that
 * selects exactly one `details` shape, and the zod schema that validates a
 * raw JavaScript value into it (src/features/collection/types.ts).
 */
module LegoTypes {
  import opened Wrappers
  import opened JsValue

  // ---------------------------------------------------------------- tags

  /** LegoSetEnum: the three category tags. */
  datatype Kind = Plants | Vehicles | Buildings

  function KindTag(k: Kind): string {
    match k
    case Plants => "plants"
    case Vehicles => "vehicles"
    case Buildings => "buildings"
  }

  /** The variant a raw `type` value selects, if any. */
  function ParseKind(v: Json): (r: Option<Kind>)
    ensures r.Some? ==> v == JStr(KindTag(r.value))
  {
    if v == JStr("plants") then Some(Plants)
    else if v == JStr("vehicles") then Some(Vehicles)
    else if v == JStr("buildings") then Some(Buildings)
    else None
  }

  datatype PlantType = Rose | Sunflower | Orchid | Cactus
  datatype VehicleType = Car | Boat | Plane | Train
  datatype BuildingType = Residential | Historical | Fantasy

  function PlantTypeName(t: PlantType): string {
    match t
    case Rose => "rose"
    case Sunflower => "sunflower"
    case Orchid => "orchid"
    case Cactus => "cactus"
  }

  function VehicleTypeName(t: VehicleType): string {
    match t
    case Car => "car"
    case Boat => "boat"
    case Plane => "plane"
    case Train => "train"
  }

  function BuildingTypeName(t: BuildingType): string {
    match t
    case Residential => "residential"
    case Historical => "historical"
    case Fantasy => "fantasy"
  }

  function ParsePlantType(v: Json): (r: Option<PlantType>)
    ensures r.Some? ==> v == JStr(PlantTypeName(r.value))
  {
    if v == JStr("rose") then Some(Rose)
    else if v == JStr("sunflower") then Some(Sunflower)
    else if v == JStr("orchid") then Some(Orchid)
    else if v == JStr("cactus") then Some(Cactus)
    else None
  }

  function ParseVehicleType(v: Json): (r: Option<VehicleType>)
    ensures r.Some? ==> v == JStr(VehicleTypeName(r.value))
  {
    if v == JStr("car") then Some(Car)
    else if v == JStr("boat") then Some(Boat)
    else if v == JStr("plane") then Some(Plane)
    else if v == JStr("train") then Some(Train)
    else None
  }

  function ParseBuildingType(v: Json): (r: Option<BuildingType>)
    ensures r.Some? ==> v == JStr(BuildingTypeName(r.value))
  {
    if v == JStr("residential") then Some(Residential)
    else if v == JStr("historical") then Some(Historical)
    else if v == JStr("fantasy") then Some(Fantasy)
    else None
  }

  /** Every enumerated value is accepted under its own name, and only it. */
  lemma EnumNamesRoundTrip(k: Kind, p: PlantType, v: VehicleType, b: BuildingType)
    ensures ParseKind(JStr(KindTag(k))) == Some(k)
    ensures ParsePlantType(JStr(PlantTypeName(p))) == Some(p)
    ensures ParseVehicleType(JStr(VehicleTypeName(v))) == Some(v)
    ensures ParseBuildingType(JStr(BuildingTypeName(b))) == Some(b)
  {
    match k
    case Plants =>
    case Vehicles =>
    case Buildings =>
  }

  // ---------------------------------------------------------- the record

  /** The `details` shape; its constructor is the `type` tag. */
  datatype Details =
    | PlantDetails(plantType: PlantType, height: real, vaseIncluded: bool)
    | VehicleDetails(vehicleType: VehicleType, brand: Option<string>, model: Option<string>)
    | BuildingDetails(buildingType: BuildingType, floors: real, furnished: bool)
  {
    function Kind(): Kind {
      match this
      case PlantDetails(_, _, _) => Plants
      case VehicleDetails(_, _, _) => Vehicles
      case BuildingDetails(_, _, _) => Buildings
    }
  }

  /** LegoSetType: what a successful parse of legoSetSchema yields. */
  datatype Item = Item(
    setNumber: string,
    name: string,
    pieceCount: real,
    ageGroup: string,
    price: real,
    hasBuilt: bool,
    details: Details)

  /** The constraints of the schema, stated on the typed record. */
  predicate ValidItem(item: Item) {
    && |item.setNumber| >= 1
    && |item.name| >= 1
    && item.pieceCount > 0.0
    && |item.ageGroup| >= 1
    && item.price > 0.0
    && match item.details
       case PlantDetails(_, h, _) => h > 0.0
       case VehicleDetails(_, _, _) => true
       case BuildingDetails(_, f, _) => f > 0.0
  }

  /**
   * LegoSetRow: a row as the store returns it. Field names follow the
   * columns id, set_number, name, piece_count, age_group, price,
   * has_built, type, details, created_at, updated_at. The tag and the
   * details are kept raw: nothing re-checks what the store sends back.
   */
  datatype Row = Row(
    id: string,
    setNumber: string,
    name: string,
    pieceCount: real,
    ageGroup: string,
    price: real,
    hasBuilt: bool,
    typeTag: string,
    details: map<string, Json>,
    createdAt: string,
    updatedAt: string)

  // ------------------------------------------------------------ messages

  const SetNumberRequired := "Set number is required"
  const NameRequired := "Name is required"
  const PieceCountPositive := "Piece count must be positive"
  const AgeGroupRequired := "Age group is required"
  const PricePositive := "Price must be positive"
  const PlantTypeRequired := "Plant type is required"
  const HeightPositive := "Height must be positive"
  const VehicleTypeRequired := "Vehicle type is required"
  const BuildingTypeRequired := "Building type is required"
  const FloorsPositive := "Number of floors must be positive"
  /** zod's message when the discriminator matches no variant. */
  const InvalidInput := "Invalid input"

  /** zod's message for a value of the wrong JavaScript type. */
  function TypeIssue(expected: string, v: Json): string {
    "Invalid input: expected " + expected + ", received " + TypeName(v)
  }

  // ---------------------------------------------------------- issue paths

  /** The keys of the record itself. */
  datatype TopField =
    | TypeField | SetNumberField | NameField | PieceCountField | AgeGroupField
    | PriceField | HasBuiltField | DetailsField

  /** The keys of the three `details` shapes. */
  datatype DetailField =
    | PlantTypeField | HeightField | VaseIncludedField
    | VehicleTypeField | BrandField | ModelField
    | BuildingTypeField | FloorsField | FurnishedField

  function TopName(f: TopField): string {
    match f
    case TypeField => "type"
    case SetNumberField => "setNumber"
    case NameField => "name"
    case PieceCountField => "pieceCount"
    case AgeGroupField => "ageGroup"
    case PriceField => "price"
    case HasBuiltField => "hasBuilt"
    case DetailsField => "details"
  }

  function DetailName(f: DetailField): string {
    match f
    case PlantTypeField => "plantType"
    case HeightField => "height"
    case VaseIncludedField => "vaseIncluded"
    case VehicleTypeField => "vehicleType"
    case BrandField => "brand"
    case ModelField => "model"
    case BuildingTypeField => "buildingType"
    case FloorsField => "floors"
    case FurnishedField => "furnished"
  }

  /** Where an issue is reported: the value itself, a key of it, or a key of its `details`. */
  datatype Path = Whole | Top(top: TopField) | InDetails(inner: DetailField) {
    /** The key the issue is about, in the object that holds it. */
    function Key(): string {
      match this
      case Whole => ""
      case Top(f) => TopName(f)
      case InDetails(f) => DetailName(f)
    }

    /** zod's path, joined with ".". */
    function Text(): string {
      match this
      case Whole => ""
      case Top(f) => TopName(f)
      case InDetails(f) => "details." + DetailName(f)
    }
  }

  /** Path to message; one issue per path. */
  type Issues = map<Path, string>

  function IssuesOf<T>(r: Result<T, Issues>): Issues {
    if r.Failure? then r.error else map[]
  }

  // ------------------------------------------------- field-level schemas

  /** One zod field schema of the repository's object schemas. */
  datatype FieldSchema =
    | Text(minMessage: string)                      // z.string().min(1, minMessage)
    | OptionalText                                  // z.string().optional()
    | Positive(positiveMessage: string)             // z.number().positive(positiveMessage)
    | Boolean                                       // z.boolean()
    | BooleanDefault(fallback: bool)                // z.boolean().default(fallback)
    | Enum(names: seq<string>, enumMessage: string) // z.enum(names, { error: enumMessage })

  /** The issue one field schema reports for the value `v`, if any. */
  function Issue(schema: FieldSchema, v: Json): (r: Option<string>)
    ensures r.None? && schema.Text? ==> v.JStr? && |v.s| >= 1
    ensures r.None? && schema.Positive? ==> v.JNum? && v.n > 0.0
    ensures r.None? && schema.Enum? ==> v.JStr? && v.s in schema.names
    ensures r.Some? && schema.Enum? ==> r.value == schema.enumMessage
    ensures (schema.BooleanDefault? || schema.OptionalText?) && v.JUndefined? ==> r.None?
  {
    match schema
    case Text(message) =>
      if !v.JStr? then Some(TypeIssue("string", v))
      else if |v.s| < 1 then Some(message)
      else None
    case OptionalText =>
      if v.JUndefined? || v.JStr? then None else Some(TypeIssue("string", v))
    case Positive(message) =>
      if !v.JNum? then Some(TypeIssue("number", v))
      else if v.n <= 0.0 then Some(message)
      else None
    case Boolean =>
      if v.JBool? then None else Some(TypeIssue("boolean", v))
    case BooleanDefault(_) =>
      if v.JBool? || v.JUndefined? then None else Some(TypeIssue("boolean", v))
    case Enum(names, message) =>
      if v.JStr? && v.s in names then None else Some(message)
  }

  /**
   * A `z.object` shape: the field schema of each key, indexed by the path
   * its issues are reported under (the key read is the path's `Key()`).
   */
  type Shape = map<Path, FieldSchema>

  /** baseLegoSetSchema (types.ts lines 11-18). */
  const BaseShape: Shape := map[
    Top(SetNumberField) := Text(SetNumberRequired),
    Top(NameField) := Text(NameRequired),
    Top(PieceCountField) := Positive(PieceCountPositive),
    Top(AgeGroupField) := Text(AgeGroupRequired),
    Top(PriceField) := Positive(PricePositive),
    Top(HasBuiltField) := BooleanDefault(true)]

  const PlantTypeNames: seq<string> := ["rose", "sunflower", "orchid", "cactus"]
  const VehicleTypeNames: seq<string> := ["car", "boat", "plane", "train"]
  const BuildingTypeNames: seq<string> := ["residential", "historical", "fantasy"]

  /** The `details` object schema of each variant (types.ts lines 25-31, 37-43, 49-55). */
  function DetailShape(k: Kind): Shape {
    match k
    case Plants => map[
      InDetails(PlantTypeField) := Enum(PlantTypeNames, PlantTypeRequired),
      InDetails(HeightField) := Positive(HeightPositive),
      InDetails(VaseIncludedField) := BooleanDefault(true)]
    case Vehicles => map[
      InDetails(VehicleTypeField) := Enum(VehicleTypeNames, VehicleTypeRequired),
      InDetails(BrandField) := OptionalText,
      InDetails(ModelField) := OptionalText]
    case Buildings => map[
      InDetails(BuildingTypeField) := Enum(BuildingTypeNames, BuildingTypeRequired),
      InDetails(FloorsField) := Positive(FloorsPositive),
      InDetails(FurnishedField) := Boolean]
  }

  /** `z.object(shape)` on an object: every field is checked, every issue kept. */
  function ShapeIssues(shape: Shape, m: map<string, Json>): (e: Issues)
    ensures e.Keys <= shape.Keys
  {
    map p | p in shape && Issue(shape[p], Get(m, p.Key())).Some? :: Issue(shape[p], Get(m, p.Key())).value
  }

  /** The path `p` of a shape is reported exactly when its schema rejects the key `p` names. */
  lemma ShapeIssueAt(shape: Shape, m: map<string, Json>, p: Path)
    requires p in shape
    ensures p in ShapeIssues(shape, m) <==> Issue(shape[p], Get(m, p.Key())).Some?
    ensures p in ShapeIssues(shape, m) ==> ShapeIssues(shape, m)[p] == Issue(shape[p], Get(m, p.Key())).value
  {
  }

  /** The issues of baseLegoSetSchema. */
  function BaseIssues(m: map<string, Json>): (e: Issues)
    ensures forall p :: p in e ==> p.Top? && p.top != TypeField && p.top != DetailsField
  {
    ShapeIssues(BaseShape, m)
  }

  /**
   * The issues of the `details` field of variant `k`: one issue at
   * "details" when it is not an object, else one per bad field.
   */
  function DetailIssues(k: Kind, v: Json): (e: Issues)
    ensures forall p :: p in e ==> p.InDetails? || p == Top(DetailsField)
    ensures !v.JObj? ==> e == map[Top(DetailsField) := TypeIssue("object", v)]
    ensures v.JObj? ==> e == ShapeIssues(DetailShape(k), v.fields)
  {
    if !v.JObj? then map[Top(DetailsField) := TypeIssue("object", v)]
    else ShapeIssues(DetailShape(k), v.fields)
  }

  /** What "no issue" means for each field schema. */
  lemma NoIssue(schema: FieldSchema, v: Json)
    requires Issue(schema, v).None?
    ensures schema.Text? ==> v.JStr? && |v.s| >= 1
    ensures schema.Positive? ==> v.JNum? && v.n > 0.0
    ensures schema.Boolean? ==> v.JBool?
    ensures schema.BooleanDefault? || schema.OptionalText? ==> !v.JNum? && !v.JNull?
    ensures schema.Enum? ==> v.JStr? && v.s in schema.names
  {
  }

  /** The typed `details` of a value the variant schema accepts. */
  function ParseDetails(k: Kind, v: Json): (d: Details)
    requires v.JObj? && ShapeIssues(DetailShape(k), v.fields) == map[]
    ensures d.Kind() == k
    ensures d.PlantDetails? ==> d.height > 0.0
    ensures d.BuildingDetails? ==> d.floors > 0.0
    ensures var m := v.fields; d.PlantDetails? ==>
      && Get(m, "plantType") == JStr(PlantTypeName(d.plantType)) && Get(m, "height") == JNum(d.height)
      && (Get(m, "vaseIncluded").JBool? ==> Get(m, "vaseIncluded") == JBool(d.vaseIncluded))
      && (Get(m, "vaseIncluded").JUndefined? ==> d.vaseIncluded)
    ensures var m := v.fields; d.VehicleDetails? ==>
      && Get(m, "vehicleType") == JStr(VehicleTypeName(d.vehicleType))
      && (if Get(m, "brand").JUndefined? then d.brand.None? else d.brand.Some? && Get(m, "brand") == JStr(d.brand.value))
      && (if Get(m, "model").JUndefined? then d.model.None? else d.model.Some? && Get(m, "model") == JStr(d.model.value))
    ensures var m := v.fields; d.BuildingDetails? ==>
      && Get(m, "buildingType") == JStr(BuildingTypeName(d.buildingType)) && Get(m, "floors") == JNum(d.floors)
      && Get(m, "furnished") == JBool(d.furnished)
  {
    var m := v.fields;
    match k
    case Plants =>
      PlantFieldsClean(m);
      PlantDetails(EnumValue(ParsePlantType(Get(m, "plantType"))), Get(m, "height").n,
                   BoolOr(Get(m, "vaseIncluded"), true))
    case Vehicles =>
      VehicleFieldsClean(m);
      VehicleDetails(EnumValue(ParseVehicleType(Get(m, "vehicleType"))),
                     TextOrNone(Get(m, "brand")), TextOrNone(Get(m, "model")))
    case Buildings =>
      BuildingFieldsClean(m);
      BuildingDetails(EnumValue(ParseBuildingType(Get(m, "buildingType"))), Get(m, "floors").n,
                      BoolOr(Get(m, "furnished"), false))
  }

  lemma PlantFieldsClean(m: map<string, Json>)
    requires ShapeIssues(DetailShape(Plants), m) == map[]
    ensures ParsePlantType(Get(m, "plantType")).Some?
    ensures Get(m, "height").JNum? && Get(m, "height").n > 0.0
  {
    ShapeIssueAt(DetailShape(Plants), m, InDetails(PlantTypeField));
    ShapeIssueAt(DetailShape(Plants), m, InDetails(HeightField));
  }

  lemma VehicleFieldsClean(m: map<string, Json>)
    requires ShapeIssues(DetailShape(Vehicles), m) == map[]
    ensures ParseVehicleType(Get(m, "vehicleType")).Some?
    ensures Get(m, "brand").JStr? || Get(m, "brand").JUndefined?
    ensures Get(m, "model").JStr? || Get(m, "model").JUndefined?
  {
    ShapeIssueAt(DetailShape(Vehicles), m, InDetails(VehicleTypeField));
    ShapeIssueAt(DetailShape(Vehicles), m, InDetails(BrandField));
    ShapeIssueAt(DetailShape(Vehicles), m, InDetails(ModelField));
  }

  lemma BuildingFieldsClean(m: map<string, Json>)
    requires ShapeIssues(DetailShape(Buildings), m) == map[]
    ensures ParseBuildingType(Get(m, "buildingType")).Some?
    ensures Get(m, "floors").JNum? && Get(m, "floors").n > 0.0
    ensures Get(m, "furnished").JBool?
  {
    ShapeIssueAt(DetailShape(Buildings), m, InDetails(BuildingTypeField));
    ShapeIssueAt(DetailShape(Buildings), m, InDetails(FloorsField));
    ShapeIssueAt(DetailShape(Buildings), m, InDetails(FurnishedField));
  }

  function EnumValue<T>(parsed: Option<T>): T
    requires parsed.Some?
  {
    parsed.value
  }

  /** The output of `z.boolean().default(d)` (or `z.boolean()`, on a boolean). */
  function BoolOr(v: Json, fallback: bool): bool {
    if v.JBool? then v.b else fallback
  }

  /** The output of `z.string().optional()`. */
  function TextOrNone(v: Json): Option<string> {
    if v.JStr? then Some(v.s) else None
  }

  /** The typed record of an object the selected variant accepts. */
  function ParseItem(k: Kind, m: map<string, Json>): (item: Item)
    requires BaseIssues(m) == map[]
    requires Get(m, "details").JObj? && ShapeIssues(DetailShape(k), Get(m, "details").fields) == map[]
    ensures ValidItem(item) && item.details.Kind() == k
    ensures && Get(m, "setNumber") == JStr(item.setNumber) && Get(m, "name") == JStr(item.name)
            && Get(m, "pieceCount") == JNum(item.pieceCount) && Get(m, "ageGroup") == JStr(item.ageGroup)
            && Get(m, "price") == JNum(item.price)
    ensures Get(m, "hasBuilt").JBool? ==> Get(m, "hasBuilt") == JBool(item.hasBuilt)
    ensures Get(m, "hasBuilt").JUndefined? ==> item.hasBuilt
    ensures item.details == ParseDetails(k, Get(m, "details"))
  {
    BaseFieldsClean(m);
    Item(Get(m, "setNumber").s, Get(m, "name").s, Get(m, "pieceCount").n,
         Get(m, "ageGroup").s, Get(m, "price").n, BoolOr(Get(m, "hasBuilt"), true),
         ParseDetails(k, Get(m, "details")))
  }

  lemma BaseFieldsClean(m: map<string, Json>)
    requires BaseIssues(m) == map[]
    ensures Get(m, "setNumber").JStr? && |Get(m, "setNumber").s| >= 1
    ensures Get(m, "name").JStr? && |Get(m, "name").s| >= 1
    ensures Get(m, "pieceCount").JNum? && Get(m, "pieceCount").n > 0.0
    ensures Get(m, "ageGroup").JStr? && |Get(m, "ageGroup").s| >= 1
    ensures Get(m, "price").JNum? && Get(m, "price").n > 0.0
  {
    ShapeIssueAt(BaseShape, m, Top(SetNumberField));
    ShapeIssueAt(BaseShape, m, Top(NameField));
    ShapeIssueAt(BaseShape, m, Top(PieceCountField));
    ShapeIssueAt(BaseShape, m, Top(AgeGroupField));
    ShapeIssueAt(BaseShape, m, Top(PriceField));
  }

  /** The issues of an object whose tag selects variant `k`. */
  function VariantIssues(k: Kind, m: map<string, Json>): (e: Issues)
    ensures forall p :: p in BaseIssues(m) ==> p in e && e[p] == BaseIssues(m)[p]
    ensures forall p :: p in DetailIssues(k, Get(m, "details")) ==> p in e && e[p] == DetailIssues(k, Get(m, "details"))[p]
    ensures forall p :: p in e ==> p in BaseIssues(m) || p in DetailIssues(k, Get(m, "details"))
  {
    BaseIssues(m) + DetailIssues(k, Get(m, "details"))
  }

  lemma NoVariantIssues(k: Kind, m: map<string, Json>)
    requires VariantIssues(k, m) == map[]
    ensures BaseIssues(m) == map[]
    ensures Get(m, "details").JObj? && ShapeIssues(DetailShape(k), Get(m, "details").fields) == map[]
  {
    var d := DetailIssues(k, Get(m, "details"));
    MergeEmpty(BaseIssues(m), d);
    assert Top(DetailsField) !in d;
  }

  lemma MergeEmpty(a: Issues, b: Issues)
    requires a + b == map[]
    ensures a == map[] && b == map[]
  {
    assert forall p :: p in a ==> p in a + b;
    assert forall p :: p in b ==> p in a + b;
  }

  /**
   * `legoSetSchema.parse(raw)`: the discriminated union over `type`.
   * A non-object or an unknown tag fails before any field is looked at;
   * otherwise every field of the selected variant is checked and all
   * issues are reported together. Unknown keys are dropped.
   */
  function Validate(raw: Json): (r: Result<Item, Issues>)
    ensures r.Success? ==> ValidItem(r.value)
    ensures r.Success? ==> raw.JObj? && Get(raw.fields, "type") == JStr(KindTag(r.value.details.Kind()))
    ensures r.Failure? ==> r.error != map[]
  {
    if !raw.JObj? then
      var e := map[Whole := TypeIssue("object", raw)];
      assert Whole in e;
      Failure(e)
    else
      var m := raw.fields;
      match ParseKind(Get(m, "type"))
      case None =>
        var e := map[Top(TypeField) := InvalidInput];
        assert Top(TypeField) in e;
        Failure(e)
      case Some(k) =>
        if VariantIssues(k, m) != map[] then Failure(VariantIssues(k, m))
        else
          NoVariantIssues(k, m);
          Success(ParseItem(k, m))
  }

  // ------------------------------------------------------------ encoding

  /** The `details` object of a typed record. */
  function EncodeDetails(d: Details): Json {
    match d
    case PlantDetails(t, h, vase) =>
      JObj(map["plantType" := JStr(PlantTypeName(t)), "height" := JNum(h), "vaseIncluded" := JBool(vase)])
    case VehicleDetails(t, brand, model) =>
      var m := map["vehicleType" := JStr(VehicleTypeName(t))];
      var m := if brand.Some? then m["brand" := JStr(brand.value)] else m;
      JObj(if model.Some? then m["model" := JStr(model.value)] else m)
    case BuildingDetails(t, f, furnished) =>
      JObj(map["buildingType" := JStr(BuildingTypeName(t)), "floors" := JNum(f), "furnished" := JBool(furnished)])
  }

  /** A typed record as the JavaScript object it is at run time. */
  function Encode(item: Item): (j: Json)
    ensures j.JObj? && Get(j.fields, "type") == JStr(KindTag(item.details.Kind()))
    ensures Get(j.fields, "hasBuilt") == JBool(item.hasBuilt)
  {
    JObj(map[
      "setNumber" := JStr(item.setNumber),
      "name" := JStr(item.name),
      "pieceCount" := JNum(item.pieceCount),
      "ageGroup" := JStr(item.ageGroup),
      "price" := JNum(item.price),
      "hasBuilt" := JBool(item.hasBuilt),
      "type" := JStr(KindTag(item.details.Kind())),
      "details" := EncodeDetails(item.details)])
  }
}
