/**
 * LegoSetService (src/features/collection/services/legoSetService.ts):
 * the row mapping between the record and the store's snake_case columns,
 * validation before the store is called, and the translation of the
 * store's replies into results and error messages. The store itself is
 * not modelled: each operation takes the store's reply, or a function
 * standing for the store call, as a parameter.
 */
module LegoSetService {
  import opened Wrappers
  import opened JsValue
  import opened LegoTypes
  import opened LegoSchemaFacts

  // ------------------------------------------------------ store replies

  /** The `error` object of a store reply. */
  datatype StoreError = StoreError(code: string, message: string)

  /** A store reply: `{ data, error }` with exactly one of the two meaningful. */
  datatype Reply<T> = Ok(data: T) | Err(error: StoreError)

  /** What a service call throws: the ZodError of a rejected input, or an Error with a message. */
  datatype ServiceError = Invalid(issues: Issues) | Failed(message: string)

  /** The six operations of the service, each with its own message prefix. */
  datatype Operation = Create | FetchAll | FetchOne | Update | Delete | FetchByType

  /** Every prefix reads "Failed to …: ", so the store message follows it. */
  function Prefix(op: Operation): (p: string)
    ensures |p| > 12 && p[..10] == "Failed to " && p[|p| - 2..] == ": "
  {
    match op
    case Create => "Failed to create LEGO set: "
    case FetchAll => "Failed to fetch LEGO sets: "
    case FetchOne => "Failed to fetch LEGO set: "
    case Update => "Failed to update LEGO set: "
    case Delete => "Failed to delete LEGO set: "
    case FetchByType => "Failed to fetch LEGO sets by type: "
  }

  /** The store's "no rows" code, which `getLegoSetById` turns into null. */
  const NotFoundCode := "PGRST116"

  /** A store error becomes an Error whose message is the operation's prefix and the store's message. */
  function Wrap<T>(reply: Reply<T>, op: Operation): (r: Result<T, ServiceError>)
    ensures reply.Ok? <==> r.Success?
    ensures reply.Ok? ==> r.value == reply.data
    ensures reply.Err? ==>
      && r.error.Failed?
      && |Prefix(op)| <= |r.error.message|
      && r.error.message[..|Prefix(op)|] == Prefix(op)
      && r.error.message[|Prefix(op)|..] == reply.error.message
  {
    match reply
    case Ok(data) => Success(data)
    case Err(e) => Failure(Failed(Prefix(op) + e.message))
  }

  lemma DifferAt(p: string, q: string, m1: string, m2: string, i: nat)
    requires i < |p| && i < |q| && p[i] != q[i]
    ensures p + m1 != q + m2
  {
    assert (p + m1)[i] == p[i];
    assert (q + m2)[i] == q[i];
  }

  /** No message of one operation can be mistaken for a message of another. */
  lemma {:induction false} MessagesIdentifyOperation(a: Operation, b: Operation, m1: string, m2: string)
    requires a != b
    ensures Prefix(a) + m1 != Prefix(b) + m2
  {
    var i := if Prefix(a)[10] != Prefix(b)[10] then 10
      else if Prefix(a)[24] != Prefix(b)[24] then 24
      else 25;
    DifferAt(Prefix(a), Prefix(b), m1, m2, i);
  }

  // ------------------------------------------------------ column names

  /** The store column each record key is written to. */
  function Column(f: TopField): string {
    match f
    case TypeField => "type"
    case SetNumberField => "set_number"
    case NameField => "name"
    case PieceCountField => "piece_count"
    case AgeGroupField => "age_group"
    case PriceField => "price"
    case HasBuiltField => "has_built"
    case DetailsField => "details"
  }

  /** Exactly four keys are renamed; the others keep their names. */
  lemma RenamedColumns(f: TopField)
    ensures Column(f) != TopName(f) <==>
      f == SetNumberField || f == PieceCountField || f == AgeGroupField || f == HasBuiltField
  {
  }

  /** Distinct keys go to distinct columns, so a row can be indexed by the key whose column it fills. */
  lemma ColumnInjective(f: TopField, g: TopField)
    requires Column(f) == Column(g)
    ensures f == g
  {
    assert |Column(f)| == |Column(g)| && Column(f)[0] == Column(g)[0];
  }

  /**
   * An object written to the store (`dbData`): one cell per column, absent
   * when the object has no such key. The cell of key `f` is the value of
   * column `Column(f)`.
   */
  datatype DbRow = DbRow(
    setNumber: Option<Json>, name: Option<Json>, pieceCount: Option<Json>, ageGroup: Option<Json>,
    price: Option<Json>, hasBuilt: Option<Json>, typeTag: Option<Json>, details: Option<Json>)
  {
    function Cell(f: TopField): Option<Json> {
      match f
      case SetNumberField => setNumber
      case NameField => name
      case PieceCountField => pieceCount
      case AgeGroupField => ageGroup
      case PriceField => price
      case HasBuiltField => hasBuilt
      case TypeField => typeTag
      case DetailsField => details
    }
  }

  // ------------------------------------------------------------ create

  /** `dbData` of createLegoSet: the parsed record, every key in its column. */
  function InsertRow(item: Item): (row: DbRow)
    ensures forall f: TopField :: row.Cell(f).Some?
  {
    DbRow(
      Some(JStr(item.setNumber)), Some(JStr(item.name)), Some(JNum(item.pieceCount)),
      Some(JStr(item.ageGroup)), Some(JNum(item.price)), Some(JBool(item.hasBuilt)),
      Some(JStr(KindTag(item.details.Kind()))), Some(EncodeDetails(item.details)))
  }

  /** Each column of the insert row holds the record's value for its key, defaults applied. */
  lemma {:induction false} InsertRowCells(item: Item, f: TopField)
    ensures InsertRow(item).Cell(f) == Some(Get(Encode(item).fields, TopName(f)))
  {
    EncodeReads(item);
    match f
    case TypeField =>
    case SetNumberField =>
    case NameField =>
    case PieceCountField =>
    case AgeGroupField =>
    case PriceField =>
    case HasBuiltField =>
    case DetailsField =>
  }

  /**
   * createLegoSet: the input is parsed first; only a parsed record reaches
   * the store, and the store's reply is wrapped with the create prefix.
   */
  function CreateLegoSet(raw: Json, insert: DbRow -> Reply<Row>): (r: Result<Row, ServiceError>)
    ensures Validate(raw).Failure? ==> r == Failure(Invalid(Validate(raw).error))
    ensures Validate(raw).Success? ==> r == Wrap(insert(InsertRow(Validate(raw).value)), Create)
  {
    match Validate(raw)
    case Failure(issues) => Failure(Invalid(issues))
    case Success(item) => Wrap(insert(InsertRow(item)), Create)
  }

  /** An input the schema rejects gets the same answer whatever the store would do: the store is not consulted. */
  lemma {:induction false} InvalidNeverReachesStore(raw: Json, s1: DbRow -> Reply<Row>,
                                                    s2: DbRow -> Reply<Row>)
    requires Validate(raw).Failure?
    ensures CreateLegoSet(raw, s1) == CreateLegoSet(raw, s2)
    ensures CreateLegoSet(raw, s1).Failure? && CreateLegoSet(raw, s1).error.Invalid?
  {
  }

  /** A successful create means the input was a valid record and the store was sent its row. */
  lemma {:induction false} CreatedOnlyFromValid(raw: Json, insert: DbRow -> Reply<Row>)
    requires CreateLegoSet(raw, insert).Success?
    ensures Validate(raw).Success? && ValidItem(Validate(raw).value)
    ensures insert(InsertRow(Validate(raw).value)) == Ok(CreateLegoSet(raw, insert).value)
  {
  }

  // -------------------------------------------------------------- reads

  /** The list default `data || []`: no data and no error is the empty list. */
  function ListOrEmpty(reply: Reply<Option<seq<Row>>>, op: Operation): (r: Result<seq<Row>, ServiceError>)
    ensures reply.Ok? <==> r.Success?
    ensures reply == Ok(None) ==> r == Success([])
    ensures reply.Ok? && reply.data.Some? ==> r.value == reply.data.value
    ensures reply.Err? ==> r == Failure(Failed(Prefix(op) + reply.error.message))
  {
    match reply
    case Ok(data) => Success(data.GetOr([]))
    case Err(e) => Failure(Failed(Prefix(op) + e.message))
  }

  /** getAllLegoSets: the rows of the ordered query, [] when it returns none, or the fetch-all error. */
  function GetAllLegoSets(reply: Reply<Option<seq<Row>>>): (r: Result<seq<Row>, ServiceError>)
    ensures r.Success? <==> reply.Ok?
    ensures r.Success? ==> r.value == reply.data.GetOr([])
    ensures r.Failure? ==> r.error == Failed(Prefix(FetchAll) + reply.error.message)
  {
    ListOrEmpty(reply, FetchAll)
  }

  /**
   * getLegoSetsByType: the query is asked for the rows whose type equals
   * `tag`, which is passed on unchecked (any string, not only the three
   * kinds); its answer is defaulted to [].
   */
  function GetLegoSetsByType(tag: string, query: string -> Reply<Option<seq<Row>>>): (r: Result<seq<Row>, ServiceError>)
    ensures r.Success? <==> query(tag).Ok?
    ensures r.Success? ==> r.value == query(tag).data.GetOr([])
    ensures r.Failure? ==> r.error == Failed(Prefix(FetchByType) + query(tag).error.message)
  {
    ListOrEmpty(query(tag), FetchByType)
  }

  /** An empty list answer is never an error. */
  lemma {:induction false} NoDataIsEmptyList(op: Operation)
    ensures ListOrEmpty(Ok(None), op) == Success([])
    ensures ListOrEmpty(Ok(Some([])), op) == Success([])
  {
  }

  /** getLegoSetById: the "no rows" error is null; any other error is thrown with the prefix. */
  function GetLegoSetById(reply: Reply<Row>): (r: Result<Option<Row>, ServiceError>)
    ensures r.Success? <==> reply.Ok? || reply.error.code == NotFoundCode
    ensures r.Success? && r.value.Some? <==> reply.Ok?
    ensures reply.Ok? ==> r.value == Some(reply.data)
    ensures r.Failure? ==> r.error == Failed(Prefix(FetchOne) + reply.error.message)
  {
    match reply
    case Ok(row) => Success(Some(row))
    case Err(e) =>
      if e.code == NotFoundCode then Success(None)
      else Failure(Failed(Prefix(FetchOne) + e.message))
  }

  /** Exactly the not-found code is mapped to null; its message is ignored. */
  lemma {:induction false} NotFoundIsNull(code: string, message: string)
    ensures GetLegoSetById(Err(StoreError(code, message))) == Success(None) <==> code == NotFoundCode
  {
  }

  // ------------------------------------------------------------ update

  /** Whether updateLegoSet copies the key into the update row: truthy, or for hasBuilt, defined. */
  predicate Kept(f: TopField, v: Json) {
    if f == HasBuiltField then !v.JUndefined? else Truthy(v)
  }

  /**
   * The update row of a partial record: the column of each kept key holds
   * that key's value, every other column is left out.
   */
  function UpdateRow(partial: map<string, Json>): (row: DbRow)
    ensures forall f: TopField :: row.Cell(f).Some? ==> row.Cell(f).value == Get(partial, TopName(f))
    ensures forall f: TopField :: row.Cell(f).Some? && f != HasBuiltField ==> Truthy(row.Cell(f).value)
  {
    DbRow(
      if Truthy(Get(partial, "setNumber")) then Some(Get(partial, "setNumber")) else None,
      if Truthy(Get(partial, "name")) then Some(Get(partial, "name")) else None,
      if Truthy(Get(partial, "pieceCount")) then Some(Get(partial, "pieceCount")) else None,
      if Truthy(Get(partial, "ageGroup")) then Some(Get(partial, "ageGroup")) else None,
      if Truthy(Get(partial, "price")) then Some(Get(partial, "price")) else None,
      if Get(partial, "hasBuilt") != JUndefined then Some(Get(partial, "hasBuilt")) else None,
      if Truthy(Get(partial, "type")) then Some(Get(partial, "type")) else None,
      if Truthy(Get(partial, "details")) then Some(Get(partial, "details")) else None)
  }

  /** A column of the update row is present exactly when its key is kept, and then holds the key's value. */
  lemma {:induction false} UpdateRowCells(partial: map<string, Json>, f: TopField)
    ensures UpdateRow(partial).Cell(f).Some? <==> Kept(f, Get(partial, TopName(f)))
    ensures UpdateRow(partial).Cell(f).Some? ==> UpdateRow(partial).Cell(f).value == Get(partial, TopName(f))
  {
    match f
    case TypeField =>
    case SetNumberField =>
    case NameField =>
    case PieceCountField =>
    case AgeGroupField =>
    case PriceField =>
    case HasBuiltField =>
    case DetailsField =>
  }

  /** `dbData` of updateLegoSet, one conditional assignment per key. */
  method BuildUpdateRow(partial: map<string, Json>) returns (row: DbRow)
    ensures row == UpdateRow(partial)
  {
    row := DbRow(None, None, None, None, None, None, None, None);
    if Truthy(Get(partial, "setNumber")) { row := row.(setNumber := Some(Get(partial, "setNumber"))); }
    if Truthy(Get(partial, "name")) { row := row.(name := Some(Get(partial, "name"))); }
    if Truthy(Get(partial, "pieceCount")) { row := row.(pieceCount := Some(Get(partial, "pieceCount"))); }
    if Truthy(Get(partial, "ageGroup")) { row := row.(ageGroup := Some(Get(partial, "ageGroup"))); }
    if Truthy(Get(partial, "price")) { row := row.(price := Some(Get(partial, "price"))); }
    if Get(partial, "hasBuilt") != JUndefined { row := row.(hasBuilt := Some(Get(partial, "hasBuilt"))); }
    if Truthy(Get(partial, "type")) { row := row.(typeTag := Some(Get(partial, "type"))); }
    if Truthy(Get(partial, "details")) { row := row.(details := Some(Get(partial, "details"))); }
  }

  /** Zero, the empty string and false are dropped, except that hasBuilt = false is written. */
  lemma {:induction false} FalsyValuesDropped(partial: map<string, Json>)
    ensures Get(partial, "price") == JNum(0.0) ==> UpdateRow(partial).price.None?
    ensures Get(partial, "name") == JStr("") ==> UpdateRow(partial).name.None?
    ensures Get(partial, "pieceCount") == JNum(0.0) ==> UpdateRow(partial).pieceCount.None?
    ensures Get(partial, "hasBuilt") == JBool(false) ==> UpdateRow(partial).hasBuilt == Some(JBool(false))
  {
    UpdateRowCells(partial, PriceField);
    UpdateRowCells(partial, NameField);
    UpdateRowCells(partial, PieceCountField);
    UpdateRowCells(partial, HasBuiltField);
  }

  /** Whether updateLegoSet runs the full schema on the partial record, and it rejects it. */
  predicate UpdateRejected(partial: map<string, Json>) {
    Truthy(Get(partial, "type")) && Validate(JObj(partial)).Failure?
  }

  /**
   * updateLegoSet: when the partial record carries a truthy `type`, the
   * partial record itself must pass the full schema; otherwise it is not
   * checked at all. `sent` is what the store was asked to write (None:
   * the store was not called).
   */
  method UpdateLegoSet(id: string, partial: map<string, Json>,
                       update: (string, DbRow) -> Reply<Row>)
    returns (r: Result<Row, ServiceError>, sent: Option<DbRow>)
    ensures sent.None? <==> UpdateRejected(partial)
    ensures sent.None? ==> r == Failure(Invalid(Validate(JObj(partial)).error))
    ensures sent.Some? ==> sent.value == UpdateRow(partial) && r == Wrap(update(id, sent.value), Update)
  {
    if Truthy(Get(partial, "type")) {
      var parsed := Validate(JObj(partial));
      if parsed.Failure? {
        return Failure(Invalid(parsed.error)), None;
      }
    }
    var row := BuildUpdateRow(partial);
    r := Wrap(update(id, row), Update);
    sent := Some(row);
  }

  /** A partial record without a type is never checked: even a negative price goes to the store. */
  lemma {:induction false} UntypedPartialUnchecked(partial: map<string, Json>)
    requires "type" !in partial
    ensures !UpdateRejected(partial)
    ensures Get(partial, "price") == JNum(-1.0) ==> UpdateRow(partial).price == Some(JNum(-1.0))
  {
    UpdateRowCells(partial, PriceField);
  }

  /** A partial record with a type must be complete: without a set number it is rejected. */
  lemma {:induction false} TypedPartialMustBeComplete(partial: map<string, Json>)
    requires Truthy(Get(partial, "type")) && "setNumber" !in partial
    ensures UpdateRejected(partial)
  {
    match ParseKind(Get(partial, "type"))
    case None =>
      UnknownTagRejected(JObj(partial));
    case Some(k) =>
      SetNumberRule(partial);
      BaseFieldIssue(partial, k, Top(SetNumberField));
      IssuesOfKnownTag(partial, k);
  }

  // ------------------------------------------------------------ delete

  /** deleteLegoSet: the store's error, if any, is thrown with the delete prefix. */
  function DeleteLegoSet(error: Option<StoreError>): (r: Result<(), ServiceError>)
    ensures r.Success? <==> error.None?
    ensures error.Some? ==> r.error == Failed(Prefix(Delete) + error.value.message)
  {
    if error.Some? then Failure(Failed(Prefix(Delete) + error.value.message)) else Success(())
  }
}
