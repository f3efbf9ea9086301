# LEGO collection: schema, form, service mapping, list cache and list view

This project is a Dafny model of the domain layer of a small LEGO collection
application. It models five parts.

- The zod schema of a set (`types.ts`). A set has base fields, a `type` tag
  (plants, vehicles or buildings) and a `details` object. The tag chooses the
  shape of the details. `LegoTypes.Validate` is a total validator that goes
  from a raw JavaScript value to a typed item or a map of issues.
- The entry form (`LegoSetForm.tsx`). It is a class whose fields are the
  React state: `formData`, `errors`, `isSubmitting` and `submitError`.
  Its methods are the change handlers, the type-change effect, the form's
  own validation and the steps of a submit.
- The service (`legoSetService.ts`). It covers the insert mapping from
  camelCase to snake_case and the partial-update mapping, which keys off
  truthiness. It also covers the not-found rule and the error prefix of each
  operation. The store's reply is an input value.
- The list cache of the `useLegoSets` hook. It has three pure list
  transforms and a class that holds the cached list.
- The collection view (`LegoSetList.tsx`). It chooses one of four screens and
  builds the text of each card.

Files:

| file | module | contents |
|---|---|---|
| wrappers.dfy | `Wrappers` | `Option`, `Result` |
| json.dfy | `JsValue` | untyped JavaScript values, property read, truthiness, `<= 0` |
| text.dfy | `Text` | `trim`, white space, printing and reading decimal numbers |
| types.dfy | `LegoTypes` | enums, typed items, rows, paths, field schemas, `Validate`, `Encode` |
| schema_facts.dfy | `LegoSchemaFacts` | what the schema accepts and rejects, field by field; round trip |
| service.dfy | `LegoSetService` | store replies, error wrapping, insert and update rows |
| form.dfy | `LegoForm` | the form class and its validation |
| cache.dfy | `LegoSetCache` | the list transforms and the cache class |
| list.dfy | `LegoSetList` | colours, detail lines, cards and the screen choice |

Numbers are `real`. The schema uses `z.number()`, so 1.5 pieces is
accepted. The code only compares numbers with 0, and NaN and infinities are
not modelled.

When an update carries a truthy `type`, `updateLegoSet` runs the full schema
on the partial object (`legoSetService.ts:81-83`), not only on the keys it
holds. `LegoSetService.TypedPartialMustBeComplete` shows the consequence: a
typed partial update without `setNumber` is always rejected.

## Model

| member | source | states |
|---|---|---|
| `LegoTypes.ParseKind` | src/features/collection/types.ts:4-8 | a parsed kind is exactly the tag string it was read from |
| `LegoTypes.EnumNamesRoundTrip` | src/features/collection/types.ts:4-8 | every kind, plant type, vehicle type and building type parses back from its own name |
| `LegoTypes.ShapeIssues` | src/features/collection/types.ts:11-18 | issues are reported only on paths of the shape |
| `LegoTypes.ShapeIssueAt` | src/features/collection/types.ts:11-18 | a shape's path is reported iff its field schema rejects the value at that key, and the message is that schema's |
| `LegoTypes.NoIssue` | src/features/collection/types.ts:12-17 | a value a field schema accepts has that schema's type, and length ≥ 1, positivity or enum membership |
| `LegoTypes.Issue` | src/features/collection/types.ts:12-54 | no issue means the length, positivity or enum membership holds; an enum issue carries the enum's message; optional and defaulted fields accept an absent key |
| `LegoTypes.DetailIssues` | src/features/collection/types.ts:25-55 | a non-object `details` yields one issue at `details`; otherwise the variant's field issues, which lie only inside details |
| `LegoTypes.ParseDetails` | src/features/collection/types.ts:25-55 | accepted details become typed details of the same kind that hold the object's own type names, height, floors, brand, model and flags; an absent vaseIncluded becomes true |
| `LegoTypes.PlantFieldsClean` | src/features/collection/types.ts:25-31 | accepted plant details have a known plant type and a positive numeric height |
| `LegoTypes.VehicleFieldsClean` | src/features/collection/types.ts:37-43 | accepted vehicle details have a known vehicle type |
| `LegoTypes.BuildingFieldsClean` | src/features/collection/types.ts:49-55 | accepted building details have a known building type and a positive numeric floor count |
| `LegoTypes.BaseFieldsClean` | src/features/collection/types.ts:11-18 | accepted base fields are non-empty strings and positive numbers |
| `LegoTypes.BaseIssues` | src/features/collection/types.ts:11-18 | base issues lie only on top-level keys other than `type` and `details` |
| `LegoTypes.ParseItem` | src/features/collection/types.ts:59-63 | an object with no base or detail issues becomes a valid item of the tag's kind holding the object's own base values; an explicit hasBuilt is kept and an absent one becomes true |
| `LegoTypes.NoVariantIssues` | src/features/collection/types.ts:23-56 | a variant with no issues has clean base fields and clean object details |
| `LegoTypes.VariantIssues` | src/features/collection/types.ts:23-56 | every base issue and every details issue is reported with its own message, and nothing else is |
| `LegoTypes.Validate` | src/features/collection/types.ts:59-63 | success yields a valid item whose kind is the raw `type` tag; a failure always carries issues |
| `LegoTypes.Encode` | src/features/collection/types.ts:59-63 | an item encodes to an object whose `type` names its kind and whose `hasBuilt` is its flag; `LegoSchemaFacts.ValidateEncodeRoundTrip` states the round trip |
| `LegoSchemaFacts.TextRule` | src/features/collection/types.ts:12-15 | `z.string().min(1)` reports a path iff the value is not a non-empty string, with its message for "" |
| `LegoSchemaFacts.PositiveRule` | src/features/collection/types.ts:14-16 | `z.number().positive` reports a path iff the value is not a positive number, with its message for a number ≤ 0 |
| `LegoSchemaFacts.EnumRule` | src/features/collection/types.ts:26-28 | an enum field is reported iff its value is not one of the names, always with the enum's message |
| `LegoSchemaFacts.BooleanRule` | src/features/collection/types.ts:54 | `z.boolean()` reports a path iff the value is not a boolean |
| `LegoSchemaFacts.MayBeAbsentRule` | src/features/collection/types.ts:17-42 | defaulted booleans and optional strings accept an absent key |
| `LegoSchemaFacts.ShapeCleanIff` | src/features/collection/types.ts:11-56 | a shape reports nothing iff every one of its fields is clean |
| `LegoSchemaFacts.BaseShapeKeys` | src/features/collection/types.ts:11-18 | the base shape has exactly the six base fields |
| `LegoSchemaFacts.BaseAcceptedIff` | src/features/collection/types.ts:11-18 | the base schema accepts exactly non-empty setNumber, name and ageGroup, positive pieceCount and price, and a boolean or absent hasBuilt |
| `LegoSchemaFacts.DetailAcceptedIff` | src/features/collection/types.ts:25-55 | each variant's details schema accepts exactly what its field rules list |
| `LegoSchemaFacts.PlantsAcceptedIff` | src/features/collection/types.ts:25-31 | plant details are accepted iff the type is known, height > 0 and vaseIncluded is boolean or absent |
| `LegoSchemaFacts.VehiclesAcceptedIff` | src/features/collection/types.ts:37-43 | vehicle details are accepted iff the type is known and brand and model are strings or absent |
| `LegoSchemaFacts.BuildingsAcceptedIff` | src/features/collection/types.ts:49-55 | building details are accepted iff the type is known, floors > 0 and furnished is a boolean |
| `LegoSchemaFacts.IssuesOfKnownTag` | src/features/collection/types.ts:59-63 | with a known tag, validation reports exactly that variant's issues, and succeeds iff there are none |
| `LegoSchemaFacts.BasePathsAreTop` | src/features/collection/types.ts:11-18 | base issues are on top-level keys other than `type` and `details` |
| `LegoSchemaFacts.DetailPathsAreInner` | src/features/collection/types.ts:25-55 | detail shape paths lie inside `details` |
| `LegoSchemaFacts.InnerPathNotBase` | src/features/collection/types.ts:11-18 | the base schema never reports a path inside `details` |
| `LegoSchemaFacts.BaseFieldIssue` | src/features/collection/types.ts:23-56 | a base path is reported by a variant iff the base schema reports it, with the same message |
| `LegoSchemaFacts.DetailFieldIssue` | src/features/collection/types.ts:25-55 | a details path is reported by a variant iff its details schema reports it |
| `LegoSchemaFacts.DetailsMustBeObject` | src/features/collection/types.ts:25-55 | non-object details yield an object-type issue at `details` and no inner issue |
| `LegoSchemaFacts.UnknownTagRejected` | src/features/collection/types.ts:59-63 | a non-object gives one issue at the root; an unknown tag gives only "Invalid input" at `type` |
| `LegoSchemaFacts.TagAcceptedIff` | src/features/collection/types.ts:4-8 | a tag is known iff it is one of the three strings |
| `LegoSchemaFacts.VariantAcceptedIff` | src/features/collection/types.ts:23-56 | a variant accepts iff base fields and details are accepted and details is an object |
| `LegoSchemaFacts.AcceptedIff` | src/features/collection/types.ts:59-63 | an object is accepted iff its tag is known and the chosen variant accepts it |
| `LegoSchemaFacts.SetNumberRule` | src/features/collection/types.ts:12 | setNumber is reported iff not a non-empty string; "" gives "Set number is required" |
| `LegoSchemaFacts.NameRule` | src/features/collection/types.ts:13 | name is reported iff not a non-empty string; "" gives "Name is required" |
| `LegoSchemaFacts.AgeGroupRule` | src/features/collection/types.ts:15 | ageGroup is reported iff not a non-empty string; "" gives "Age group is required" |
| `LegoSchemaFacts.BlankNameAccepted` | src/features/collection/types.ts:13 | the schema does not trim: a name of three spaces passes |
| `LegoSchemaFacts.PieceCountRule` | src/features/collection/types.ts:14 | pieceCount is reported iff not a positive number; zero or less gives "Piece count must be positive" |
| `LegoSchemaFacts.PriceRule` | src/features/collection/types.ts:16 | price is reported iff not a positive number; zero or less gives "Price must be positive" |
| `LegoSchemaFacts.HasBuiltRule` | src/features/collection/types.ts:17 | hasBuilt is reported iff present and not a boolean |
| `LegoSchemaFacts.PlantDetailRules` | src/features/collection/types.ts:26-30 | the plant type, height and vaseIncluded issues and their messages |
| `LegoSchemaFacts.VehicleDetailRules` | src/features/collection/types.ts:38-42 | the vehicle type issue; brand and model are reported only when present and not strings |
| `LegoSchemaFacts.BuildingDetailRules` | src/features/collection/types.ts:50-54 | the building type and floors issues and their messages |
| `LegoSchemaFacts.FurnishedRequired` | src/features/collection/types.ts:54 | furnished has no default: it is reported iff it is not a boolean, absent included |
| `LegoSchemaFacts.DefaultsApplied` | src/features/collection/types.ts:17-30 | an absent hasBuilt becomes true, and an absent plant vaseIncluded becomes true |
| `LegoSchemaFacts.ValidateKeepsBaseValues` | src/features/collection/types.ts:11-18 | for every accepted object the item's base fields are the object's values, extra keys being dropped, and an explicit hasBuilt is kept |
| `LegoSchemaFacts.ValidateKeepsDetailValues` | src/features/collection/types.ts:25-55 | for every accepted object the item's details are the object's detail values: type name, height, floors, given brand and model, furnished and an explicit vaseIncluded |
| `LegoSchemaFacts.EncodeReads` | src/features/collection/types.ts:11-63 | the encoded object holds each item field under its schema key |
| `LegoSchemaFacts.EncodeBaseClean` | src/features/collection/types.ts:11-18 | the encoding of a valid item passes the base schema |
| `LegoSchemaFacts.EncodeDetailsReads` | src/features/collection/types.ts:25-55 | encoded details hold each detail field under its key |
| `LegoSchemaFacts.EncodeDetailsClean` | src/features/collection/types.ts:25-55 | encoded valid details pass their variant's details schema |
| `LegoSchemaFacts.EncodedDetailsOk` | src/features/collection/types.ts:25-55 | encoded valid details satisfy the field rules of their kind |
| `LegoSchemaFacts.ParseEncodeDetails` | src/features/collection/types.ts:25-55 | parsing encoded valid details gives them back |
| `LegoSchemaFacts.EncodeAccepted` | src/features/collection/types.ts:23-56 | the encoding of a valid item has no variant issues |
| `LegoSchemaFacts.ParseItemEncode` | src/features/collection/types.ts:59-63 | parsing the encoding of a valid item gives it back |
| `LegoSchemaFacts.ValidateEncodeRoundTrip` | src/features/collection/types.ts:59-63 | validating the encoding of any valid item succeeds with that item |
| `LegoSchemaFacts.FlowerBouquetAccepted` | src/features/collection/types.ts:23-32 | a concrete plant set validates to the expected item |
| `LegoSchemaFacts.FlowerBouquetIsEncoded` | src/features/collection/types.ts:23-32 | that item encodes to the same object |
| `LegoSchemaFacts.ZeroPriceRejected` | src/features/collection/types.ts:16 | the same set with price 0 fails with exactly "Price must be positive" at `price` |
| `LegoSchemaFacts.ZeroPriceIssues` | src/features/collection/types.ts:16 | its variant issues are exactly that one |
| `LegoSchemaFacts.ZeroPriceBaseIssues` | src/features/collection/types.ts:11-18 | base fields that are otherwise good, with price 0, give exactly the price issue |
| `Text.TrimStart` | src/features/collection/components/LegoSetForm.tsx:129 | the result is a suffix of the input, the dropped prefix is all white space, and the result does not start with white space |
| `Text.TrimEnd` | src/features/collection/components/LegoSetForm.tsx:129 | the result is a prefix of the input, the dropped suffix is all white space, and the result does not end with white space |
| `Text.Trim` | src/features/collection/components/LegoSetForm.tsx:129 | the result is a slice `s[i..j]` of the input with only white space cut off on either side, and it starts and ends with no white space; `Text.TrimEmptyIff` states when it is empty |
| `Text.TrimStartEmpty` | src/features/collection/components/LegoSetForm.tsx:129 | trimming the start leaves nothing iff the string is all white space |
| `Text.TrimEndEmpty` | src/features/collection/components/LegoSetForm.tsx:129 | trimming the end leaves nothing iff the string is all white space |
| `Text.TrimEmptyIff` | src/features/collection/components/LegoSetForm.tsx:129-140 | `s.trim()` is empty iff `s` is all white space, "" included |
| `Text.TrimNonEmptyHasLength` | src/features/collection/components/LegoSetForm.tsx:129-140 | a string that survives trimming has length ≥ 1 |
| `Text.NatText` | src/features/collection/components/LegoSetList.tsx:83 | a count prints as at least one decimal digit, with no leading zero; it starts with "0" only for 0 |
| `Text.NatTextRoundTrip` | src/features/collection/components/LegoSetList.tsx:83 | the printed digits read back as the count |
| `JsValue.Get` | src/features/collection/services/legoSetService.ts:88-95 | a missing key reads as undefined, a present key reads as its value |
| `JsValue.Truthy` | src/features/collection/services/legoSetService.ts:88-94 | the falsy values are exactly undefined, null, false, 0 and "" |
| `LegoSetService.Wrap` | src/features/collection/services/legoSetService.ts:30-34 | an Ok reply succeeds with its data; an error fails with the operation's prefix followed by the store message |
| `LegoSetService.Prefix` | src/features/collection/services/legoSetService.ts:31-138 | each prefix reads "Failed to …: "; `LegoSetService.MessagesIdentifyOperation` shows they differ |
| `LegoSetService.MessagesIdentifyOperation` | src/features/collection/services/legoSetService.ts:31-138 | two different operations never produce the same failure message, whatever the store messages |
| `LegoSetService.RenamedColumns` | src/features/collection/services/legoSetService.ts:13-22 | exactly setNumber, pieceCount, ageGroup and hasBuilt get a new column name |
| `LegoSetService.ColumnInjective` | src/features/collection/services/legoSetService.ts:13-22 | different fields go to different columns |
| `LegoSetService.InsertRow` | src/features/collection/services/legoSetService.ts:13-22 | every column is sent; `LegoSetService.InsertRowCells` states each cell's value |
| `LegoSetService.InsertRowCells` | src/features/collection/services/legoSetService.ts:13-22 | every column of the insert row holds the validated value of its field |
| `LegoSetService.CreateLegoSet` | src/features/collection/services/legoSetService.ts:8-35 | invalid input fails with the validation issues; valid input gives the wrapped store reply to its insert row |
| `LegoSetService.InvalidNeverReachesStore` | src/features/collection/services/legoSetService.ts:10-24 | for invalid input the result does not depend on the store at all |
| `LegoSetService.CreatedOnlyFromValid` | src/features/collection/services/legoSetService.ts:10-34 | a successful create came from input that validates |
| `LegoSetService.ListOrEmpty` | src/features/collection/services/legoSetService.ts:46-141 | a list reply succeeds iff Ok, with no data read as the empty list; errors get the prefix |
| `LegoSetService.GetAllLegoSets` | src/features/collection/services/legoSetService.ts:40-51 | succeeds iff the reply is Ok, with no data read as the empty list; fails with "Failed to fetch LEGO sets: " and the message |
| `LegoSetService.GetLegoSetsByType` | src/features/collection/services/legoSetService.ts:128-142 | succeeds iff the query of the `type` string, passed on unchecked (any string), is Ok, with no data read as the empty list; fails with "Failed to fetch LEGO sets by type: " and the message |
| `LegoSetService.NoDataIsEmptyList` | src/features/collection/services/legoSetService.ts:50-141 | a list reply with no data and no error is the empty list, not a failure |
| `LegoSetService.GetLegoSetById` | src/features/collection/services/legoSetService.ts:56-71 | an Ok reply gives the row; error code PGRST116 gives null; any other error fails with the prefix |
| `LegoSetService.NotFoundIsNull` | src/features/collection/services/legoSetService.ts:63-68 | a result is null iff the store's code is PGRST116 |
| `LegoSetService.UpdateRow` | src/features/collection/services/legoSetService.ts:86-95 | a column that is sent holds its key's value unchanged, and that value is truthy except for hasBuilt |
| `LegoSetService.UpdateRowCells` | src/features/collection/services/legoSetService.ts:86-95 | a column is sent iff its field is truthy (hasBuilt: iff defined), and then with the given value |
| `LegoSetService.BuildUpdateRow` | src/features/collection/services/legoSetService.ts:86-95 | the row built one conditional assignment at a time is exactly the specified update row |
| `LegoSetService.FalsyValuesDropped` | src/features/collection/services/legoSetService.ts:90-93 | price 0, name "" and pieceCount 0 are not sent; hasBuilt false is sent |
| `LegoSetService.UpdateLegoSet` | src/features/collection/services/legoSetService.ts:76-109 | the store is skipped iff a truthy `type` comes with a partial that fails the schema; otherwise the update row is sent and the reply wrapped |
| `LegoSetService.UntypedPartialUnchecked` | src/features/collection/services/legoSetService.ts:81-95 | without `type` nothing is checked: a price of -1 is sent to the store |
| `LegoSetService.TypedPartialMustBeComplete` | src/features/collection/services/legoSetService.ts:81-83 | a typed partial without setNumber is always rejected |
| `LegoSetService.DeleteLegoSet` | src/features/collection/services/legoSetService.ts:114-123 | succeeds iff the store reports no error; else fails with "Failed to delete LEGO set: " and the message |
| `LegoForm.InitialDetails` | src/features/collection/components/LegoSetForm.tsx:35-98 | vehicles and buildings get their defaults; every other value gets the plant defaults |
| `LegoForm.PlantDefaultKeys` | src/features/collection/components/LegoSetForm.tsx:35-39 | the plant defaults hold a detail key iff the plant schema has that field |
| `LegoForm.VehicleDefaultKeys` | src/features/collection/components/LegoSetForm.tsx:41-45 | the same for vehicles |
| `LegoForm.BuildingDefaultKeys` | src/features/collection/components/LegoSetForm.tsx:47-51 | the same for buildings |
| `LegoForm.DefaultKeysMatchSchema` | src/features/collection/components/LegoSetForm.tsx:87-98 | every type's defaults hold a detail key iff that type's schema has the field |
| `LegoForm.DefaultKeysAreFields` | src/features/collection/components/LegoSetForm.tsx:87-98 | every default key is a field of that type's schema |
| `LegoForm.ApplyBase` | src/features/collection/components/LegoSetForm.tsx:100-104 | a base edit writes its value under its key and never touches details |
| `LegoForm.ApplyBaseFrame` | src/features/collection/components/LegoSetForm.tsx:100-104 | a base edit sets its own key to its value and leaves every other key alone |
| `LegoForm.BlankIsTrimEmpty` | src/features/collection/components/LegoSetForm.tsx:129-140 | the form's blank test is exactly `!s.trim()` |
| `LegoForm.EmptyIsNoFormErrors` | src/features/collection/components/LegoSetForm.tsx:163 | an errors object with no keys is the empty one |
| `LegoForm.ClearError` | src/features/collection/components/LegoSetForm.tsx:106-122 | a shown error at the key becomes ""; an absent key stays absent |
| `LegoForm.ClearErrorFrame` | src/features/collection/components/LegoSetForm.tsx:106-122 | clearing one key leaves every other key as it was |
| `LegoForm.FormErrors` | src/features/collection/components/LegoSetForm.tsx:125-164 | no errors means no text field is all white space and piece count and price are positive; vehicles get no detail error |
| `LegoForm.InitialFormErrors` | src/features/collection/components/LegoSetForm.tsx:125-164 | the untouched form reports all five base messages and the plant height, and nothing for floors |
| `LegoForm.WhitespaceRejected` | src/features/collection/components/LegoSetForm.tsx:129-140 | a setNumber, name or ageGroup made only of white space is an error |
| `LegoForm.NonBlankHasLength` | src/features/collection/components/LegoSetForm.tsx:125-164 | text the form accepts is non-empty, and its piece count and price are positive |
| `LegoForm.DetailChecksByType` | src/features/collection/components/LegoSetForm.tsx:146-161 | height is checked only for plants and floors only for buildings; vehicles get no detail error |
| `LegoForm.Payload` | src/features/collection/components/LegoSetForm.tsx:178 | the payload is an object holding every form field under its schema key |
| `LegoForm.FormAcceptedBaseAccepted` | src/features/collection/components/LegoSetForm.tsx:125-176 | a form that passes its own checks sends base fields the schema accepts |
| `LegoForm.ErrorMessage` | src/features/collection/components/LegoSetForm.tsx:189-192 | an Error gives its message; anything else gives "An unexpected error occurred" |
| `LegoForm.OutcomeOf` | src/features/collection/components/LegoSetForm.tsx:176-192 | the create finishes iff the service succeeded; a failure is always thrown as an Error |
| `LegoForm.LegoSetForm.constructor` | src/features/collection/components/LegoSetForm.tsx:67-85 | the form starts with the initial data, no errors, not submitting and no submit error |
| `LegoForm.LegoSetForm.ChangeBaseField` | src/features/collection/components/LegoSetForm.tsx:78-109 | an edit sets one field and clears one error; a new type also replaces the details with its defaults and clears all errors and the submit error |
| `LegoForm.LegoSetForm.ChangeDetailsField` | src/features/collection/components/LegoSetForm.tsx:111-123 | one details key is set, and only error key `details.<f>` is cleared |
| `LegoForm.LegoSetForm.ValidateForm` | src/features/collection/components/LegoSetForm.tsx:125-165 | the errors become every failing check at once; the result is true iff there are none |
| `LegoForm.LegoSetForm.BeginSubmit` | src/features/collection/components/LegoSetForm.tsx:167-179 | an invalid form sends nothing; a valid one starts submitting and hands over the form data as payload |
| `LegoForm.LegoSetForm.FinishSubmit` | src/features/collection/components/LegoSetForm.tsx:78-198 | a created row resets the form and reports success, and the submit error is cleared when the reset changes the type; a caught value becomes the submit error and is reported; submitting ends |
| `LegoForm.LegoSetForm.HandleSubmit` | src/features/collection/components/LegoSetForm.tsx:167-199 | the service is called iff the form is valid, and an invalid form changes only the errors; success resets the form, clears the submit error and reports the created row; failure keeps the data and the form errors, and shows `ErrorMessage` of the thrown value as submit error and notice |
| `LegoSetCache.Prepend` | src/features/collection/hooks/useLegoSets.ts:21-24 | an add makes the list one longer |
| `LegoSetCache.PrependShape` | src/features/collection/hooks/useLegoSets.ts:21-24 | the new row comes first and the old list follows in order |
| `LegoSetCache.ReplaceById` | src/features/collection/hooks/useLegoSets.ts:40-46 | an update keeps the length |
| `LegoSetCache.ReplaceByIdAt` | src/features/collection/hooks/useLegoSets.ts:40-46 | at each position a matching row is replaced by the update and every other row stays |
| `LegoSetCache.ReplaceMissingId` | src/features/collection/hooks/useLegoSets.ts:40-46 | an update for an id not in the list changes nothing |
| `LegoSetCache.RemoveById` | src/features/collection/hooks/useLegoSets.ts:59-62 | a delete never makes the list longer |
| `LegoSetCache.RemovedIdGone` | src/features/collection/hooks/useLegoSets.ts:59-62 | no row with the deleted id remains |
| `LegoSetCache.RemoveKeepsOthers` | src/features/collection/hooks/useLegoSets.ts:59-62 | every other row is kept as often as it occurred |
| `LegoSetCache.RemoveByIdAppend` | src/features/collection/hooks/useLegoSets.ts:59-62 | removal distributes over concatenation, so kept rows keep their order |
| `LegoSetCache.RemoveMissingId` | src/features/collection/hooks/useLegoSets.ts:59-62 | deleting an id not in the list changes nothing |
| `LegoSetCache.LegoSetsCache.constructor` | src/features/collection/hooks/useLegoSets.ts:8-15 | the cache starts with no data and no refetch requested |
| `LegoSetCache.LegoSetsCache.Loaded` | src/features/collection/hooks/useLegoSets.ts:5-15 | a settled fetch stores its rows |
| `LegoSetCache.LegoSetsCache.LegoSets` | src/features/collection/hooks/useLegoSets.ts:71 | the exposed list is the cached list, or empty when nothing is loaded |
| `LegoSetCache.LegoSetsCache.AddLegoSet` | src/features/collection/hooks/useLegoSets.ts:17-31 | the result is the service's; success puts the new row in front; failure leaves the list and asks for a refetch |
| `LegoSetCache.LegoSetsCache.UpdateLegoSet` | src/features/collection/hooks/useLegoSets.ts:33-53 | the result is the service's; success replaces the rows with that id; failure leaves the list and asks for a refetch |
| `LegoSetCache.LegoSetsCache.DeleteLegoSet` | src/features/collection/hooks/useLegoSets.ts:55-67 | the result is the service's; success drops the rows with that id; failure leaves the list and asks for a refetch |
| `LegoSetList.TypeColorDistinct` | src/features/collection/components/LegoSetList.tsx:52-63 | plants, vehicles and buildings get success, primary and warning; the default colour goes exactly to unknown tags |
| `LegoSetList.TypeColor` | src/features/collection/components/LegoSetList.tsx:52-63 | the default colour goes exactly to tags outside the three kinds |
| `LegoSetList.VehicleLine` | src/features/collection/components/LegoSetList.tsx:69-72 | a vehicle line is its type, with " - brand" added exactly when the brand is non-empty |
| `LegoSetList.PlantLine` | src/features/collection/components/LegoSetList.tsx:67-68 | a plant line is its type followed by " (" the height "cm)" |
| `LegoSetList.BuildingLine` | src/features/collection/components/LegoSetList.tsx:73-74 | a building line is its type followed by " (" the floor count " floors)" |
| `LegoSetList.FormatDetails` | src/features/collection/components/LegoSetList.tsx:65-78 | an unknown tag gets an empty line; `PlantLine`, `VehicleLine` and `BuildingLine` state the other cases |
| `LegoSetList.UnknownTagNoDetails` | src/features/collection/components/LegoSetList.tsx:75-76 | an unknown tag gets an empty details line |
| `LegoSetList.SunflowerLine` | src/features/collection/components/LegoSetList.tsx:67-68 | a sunflower of height 25 shows "sunflower (25cm)" |
| `LegoSetList.CarLine` | src/features/collection/components/LegoSetList.tsx:69-72 | a Ford car shows "car - Ford" |
| `LegoSetList.ResidentialLine` | src/features/collection/components/LegoSetList.tsx:73-74 | a residential building with 3 floors shows "residential (3 floors)" |
| `LegoSetList.BuiltChip` | src/features/collection/components/LegoSetList.tsx:151-160 | a card says "Built" in the success colour iff the set is built |
| `LegoSetList.CardOf` | src/features/collection/components/LegoSetList.tsx:86-165 | the default colour and an empty details line go with unknown tags; "Built" shows iff the set is built |
| `LegoSetList.Cards` | src/features/collection/components/LegoSetList.tsx:86-165 | one card per set, in the list's order |
| `LegoSetList.ChooseView` | src/features/collection/components/LegoSetList.tsx:19-86 | the spinner shows iff loading; the collection screen needs a non-empty list and has one card per set |
| `LegoSetList.ViewPriority` | src/features/collection/components/LegoSetList.tsx:19-50 | exactly one screen is chosen: loading, then error, then empty, then the collection |
| `LegoSetList.HeaderCountsSets` | src/features/collection/components/LegoSetList.tsx:80-86 | the header shows the number of sets in decimal, and there is one card per set |

## Left out

- Network and store: the database calls are not modelled. Their replies are inputs: a reply value, or a function from the row sent to the reply. The store's ordering by `created_at` is not modelled, and neither are ids and timestamps the server assigns.
- SWR: fetch scheduling and revalidation are not modelled. A bare `mutate()` only sets `refetchRequested`. Async sequencing is not modelled: a submit is `BeginSubmit`, then the service call, then `FinishSubmit`, so the time while `isSubmitting` is true cannot be observed.
- Rendering: React and MUI markup and the `onChange` wiring are not modelled, and neither is `Number(e.target.value)` input parsing. A form edit carries the value the input would pass.
- Number display: the text JavaScript prints for a number is not modelled. It is the parameter `show`, which covers the "49.99 NOK" price line, the piece count and the numbers in a details line.
- LegoForm.OutcomeOf: the text of a ZodError's message is not modelled. It is the parameter `zodText`.
- LegoTypes.TypeIssue: zod's generic type-error wording ("Invalid input: expected string, received number") is approximated. The messages the schema defines itself are exact.
- JsValue.AtMostZero: JavaScript's `v <= 0` is exact for numbers, booleans, null and undefined. Strings, arrays and objects are treated as NaN (false), because `Number()` conversion is not modelled.
- LegoForm.FormErrorMap: the form's `errors` dictionary is a record with one optional message per key that validation can write: the five base fields, `details.height` and `details.floors`. No other key is ever set. Clearing any other key does nothing in the source, and does nothing here.
- LegoSetService.DbRow: a store row to write is a record with one optional cell per column, named by `Column`. It is not a dictionary keyed by column strings.
- Issue paths are the `Path` datatype, not joined strings. `Path.Text()` gives zod's joined form.
- Numbers are `real`, so piece counts and floor counts are not restricted to integers. The schema accepts any positive number for them.
- The theme, the UI components, the app shell, the fixtures, the tests and the configuration files are not part of this model.
