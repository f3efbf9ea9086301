/**
 * The collection view (src/features/collection/components/LegoSetList.tsx):
 * which of its four screens is shown, and the text of each card. Markup
 * and styling are not modelled; a view is the text and the chip colours it
 * shows. How a number is printed is the parameter `show`.
 */
module LegoSetList {
  import Wrappers
  import opened JsValue
  import opened Text
  import opened LegoTypes

  // ------------------------------------------------------- interpolation

  /** `${v}`: the text a template literal gives a value; numbers are printed by `show`. */
  function Interpolate(v: Json, show: real -> string): string
    decreases v
  {
    match v
    case JUndefined => "undefined"
    case JNull => "null"
    case JBool(b) => if b then "true" else "false"
    case JNum(n) => show(n)
    case JStr(s) => s
    case JArr(items) => JoinItems(items, show)
    case JObj(_) => "[object Object]"
  }

  /** `Array.prototype.join(",")`, where null and undefined elements print as nothing. */
  function JoinItems(items: seq<Json>, show: real -> string): string
    decreases items
  {
    if items == [] then ""
    else
      var first := if items[0].JUndefined? || items[0].JNull? then "" else Interpolate(items[0], show);
      if |items| == 1 then first else first + "," + JoinItems(items[1..], show)
  }

  // ---------------------------------------------------------------- chips

  /** The MUI palette names the chips use. */
  datatype ChipColor = Success | Primary | Warning | Default

  /** getTypeColor */
  function TypeColor(tag: string): (c: ChipColor)
    ensures c == Default <==> ParseKind(JStr(tag)).None?
  {
    if tag == KindTag(Plants) then Success
    else if tag == KindTag(Vehicles) then Primary
    else if tag == KindTag(Buildings) then Warning
    else Default
  }

  /** Each type has its own colour, and only a tag outside the three gets the default one. */
  lemma {:induction false} TypeColorDistinct(tag: string)
    ensures TypeColor(tag) == Default <==> ParseKind(JStr(tag)).None?
    ensures TypeColor(KindTag(Plants)) == Success
    ensures TypeColor(KindTag(Vehicles)) == Primary
    ensures TypeColor(KindTag(Buildings)) == Warning
  {
    var k := ParseKind(JStr(tag));
    if k.Some? {
      assert tag == KindTag(k.value);
    }
  }

  const BuiltText := "Built"
  const NotBuiltText := "Not Built"

  function BuiltLabel(hasBuilt: bool): string {
    if hasBuilt then BuiltText else NotBuiltText
  }

  function BuiltColor(hasBuilt: bool): ChipColor {
    if hasBuilt then Success else Default
  }

  // -------------------------------------------------------------- details

  /** formatDetails */
  function FormatDetails(tag: string, details: map<string, Json>, show: real -> string): (line: string)
    ensures ParseKind(JStr(tag)).None? ==> line == ""
  {
    if tag == KindTag(Plants) then
      Interpolate(Get(details, "plantType"), show) + " (" + Interpolate(Get(details, "height"), show) + "cm)"
    else if tag == KindTag(Vehicles) then
      Interpolate(Get(details, "vehicleType"), show)
        + (if Truthy(Get(details, "brand")) then " - " + Interpolate(Get(details, "brand"), show) else "")
    else if tag == KindTag(Buildings) then
      Interpolate(Get(details, "buildingType"), show) + " (" + Interpolate(Get(details, "floors"), show) + " floors)"
    else ""
  }

  /** A vehicle line is its type, followed by " - brand" exactly when a brand is given. */
  lemma {:induction false} VehicleLine(details: map<string, Json>, show: real -> string)
    requires Get(details, "vehicleType").JStr?
    requires Get(details, "brand").JStr? || Get(details, "brand").JUndefined?
    ensures var line := FormatDetails(KindTag(Vehicles), details, show);
      && (Get(details, "brand").JUndefined? || Get(details, "brand") == JStr("") ==>
           line == Get(details, "vehicleType").s)
      && (Get(details, "brand").JStr? && Get(details, "brand").s != "" ==>
           line == Get(details, "vehicleType").s + " - " + Get(details, "brand").s)
  {
  }

  /** A plant line is its type followed by the height in centimetres. */
  lemma {:induction false} PlantLine(details: map<string, Json>, show: real -> string)
    requires Get(details, "plantType").JStr? && Get(details, "height").JNum?
    ensures FormatDetails(KindTag(Plants), details, show)
      == Get(details, "plantType").s + " (" + show(Get(details, "height").n) + "cm)"
  {
  }

  /** A building line is its type followed by the number of floors. */
  lemma {:induction false} BuildingLine(details: map<string, Json>, show: real -> string)
    requires Get(details, "buildingType").JStr? && Get(details, "floors").JNum?
    ensures FormatDetails(KindTag(Buildings), details, show)
      == Get(details, "buildingType").s + " (" + show(Get(details, "floors").n) + " floors)"
  {
  }

  /** A tag outside the three kinds gets an empty details line. */
  lemma UnknownTagNoDetails(tag: string, details: map<string, Json>, show: real -> string)
    requires ParseKind(JStr(tag)).None?
    ensures FormatDetails(tag, details, show) == ""
  {
    TypeColorDistinct(tag);
  }

  lemma SunflowerLine(show: real -> string)
    requires show(25.0) == "25"
    ensures FormatDetails("plants", map["plantType" := JStr("sunflower"), "height" := JNum(25.0)], show)
      == "sunflower (25cm)"
  {
    var d := map["plantType" := JStr("sunflower"), "height" := JNum(25.0)];
    assert Get(d, "plantType") == JStr("sunflower") && Get(d, "height") == JNum(25.0);
  }

  lemma CarLine(show: real -> string)
    ensures FormatDetails("vehicles", map["vehicleType" := JStr("car"), "brand" := JStr("Ford")], show)
      == "car - Ford"
  {
    var d := map["vehicleType" := JStr("car"), "brand" := JStr("Ford")];
    assert Get(d, "vehicleType") == JStr("car") && Get(d, "brand") == JStr("Ford");
  }

  lemma ResidentialLine(show: real -> string)
    requires show(3.0) == "3"
    ensures FormatDetails("buildings", map["buildingType" := JStr("residential"), "floors" := JNum(3.0)], show)
      == "residential (3 floors)"
  {
    var d := map["buildingType" := JStr("residential"), "floors" := JNum(3.0)];
    assert Get(d, "buildingType") == JStr("residential") && Get(d, "floors") == JNum(3.0);
  }

  // ---------------------------------------------------------------- cards

  /** What one card shows, top to bottom. */
  datatype Card = Card(
    title: string,
    typeLabel: string,
    typeColor: ChipColor,
    setLine: string,
    detailsLine: string,
    piecesLine: string,
    priceLine: string,
    ageLine: string,
    builtLabel: string,
    builtColor: ChipColor)

  /** One card: the default colour and an empty details line go exactly with unknown tags. */
  function CardOf(row: Row, show: real -> string): (c: Card)
    ensures c.typeColor == Default <==> ParseKind(JStr(row.typeTag)).None?
    ensures ParseKind(JStr(row.typeTag)).None? ==> c.detailsLine == ""
    ensures c.builtLabel == BuiltText <==> row.hasBuilt
  {
    Card(
      row.name,
      row.typeTag,
      TypeColor(row.typeTag),
      "Set #" + row.setNumber,
      FormatDetails(row.typeTag, row.details, show),
      show(row.pieceCount) + " pieces",
      show(row.price) + " NOK",
      "Age: " + row.ageGroup,
      BuiltLabel(row.hasBuilt),
      BuiltColor(row.hasBuilt))
  }

  /** A card says "Built", in the success colour, exactly when the set is built. */
  lemma BuiltChip(row: Row, show: real -> string)
    ensures CardOf(row, show).builtLabel == BuiltText <==> row.hasBuilt
    ensures CardOf(row, show).builtColor == Success <==> row.hasBuilt
  {
  }

  /** `legoSets.map(...)`: one card per set, in the list's order. */
  function Cards(sets: seq<Row>, show: real -> string): (cards: seq<Card>)
    ensures |cards| == |sets|
    ensures forall i :: 0 <= i < |sets| ==> cards[i] == CardOf(sets[i], show)
  {
    if sets == [] then [] else [CardOf(sets[0], show)] + Cards(sets[1..], show)
  }

  // ----------------------------------------------------------------- view

  const LoadErrorPrefix := "Failed to load LEGO sets: "
  const EmptyTitle := "No LEGO sets in your collection yet."
  const EmptyHint := "Add your first set using the form above!"
  const HeaderStart := "Your LEGO Collection ("
  const HeaderEnd := " sets)"

  datatype View =
    | Spinner
    | LoadFailed(alert: string)
    | EmptyCollection(title: string, hint: string)
    | Collection(header: string, cards: seq<Card>)

  /**
   * The component's early returns: loading, then a load error (the hook's
   * `error.message`), then an empty list, then the collection.
   */
  function ChooseView(isLoading: bool, error: Wrappers.Option<string>, sets: seq<Row>, show: real -> string): (v: View)
    ensures v.Spinner? <==> isLoading
    ensures v.Collection? ==> sets != [] && |v.cards| == |sets|
  {
    if isLoading then Spinner
    else if error.Some? then LoadFailed(LoadErrorPrefix + error.value)
    else if |sets| == 0 then EmptyCollection(EmptyTitle, EmptyHint)
    else Collection(HeaderStart + NatText(|sets|) + HeaderEnd, Cards(sets, show))
  }

  /** Exactly one screen is chosen, by that priority; the collection screen needs a non-empty list. */
  lemma ViewPriority(isLoading: bool, error: Wrappers.Option<string>, sets: seq<Row>, show: real -> string)
    ensures ChooseView(isLoading, error, sets, show).Spinner? <==> isLoading
    ensures ChooseView(isLoading, error, sets, show).LoadFailed? <==> !isLoading && error.Some?
    ensures ChooseView(isLoading, error, sets, show).EmptyCollection? <==> !isLoading && error.None? && sets == []
    ensures ChooseView(isLoading, error, sets, show).Collection? <==> !isLoading && error.None? && sets != []
  {
  }

  /**
   * The header shows the number of sets in decimal, and those digits read
   * back as that number; there is one card per set, in order.
   */
  lemma {:induction false} HeaderCountsSets(sets: seq<Row>, show: real -> string)
    requires sets != []
    ensures var v := ChooseView(false, Wrappers.None, sets, show);
      && v.Collection?
      && v.header == HeaderStart + NatText(|sets|) + HeaderEnd
      && DigitsValue(NatText(|sets|)) == |sets|
      && |v.cards| == |sets|
  {
    NatTextRoundTrip(|sets|);
  }
}
