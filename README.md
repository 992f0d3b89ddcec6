# Tool editor dialog, modelled in Dafny

This project models the editing core of a tool-definition editor. A *tool* is
one of three things:

- a client tool, with a JSON-Schema `parameters` object;
- a knowledge (RAG) server tool, with a list of document folder ids;
- a webhook server tool, with URL, method, headers, query parameters, body
  parameters and an `awaitResponse` flag.

The dialog edits a tool in one of two modes: a structured form, or a raw JSON
text buffer. It converts between the two, validates the tool and hands it to
an `onSave` callback. The two builder components shown inside the form are
modelled too:

- the headers builder, a list of header rows;
- the body-parameters builder, a list of JSON-Schema property rows with enum
  values.

## Structure

| Module | Models |
|---|---|
| `Wrappers` | `Option` |
| `JsText` | JavaScript strings: `.trim()`, UTF-16 `.length`, decimal keys |
| `Json` | JSON values, objects whose keys follow JavaScript's own order (array-index keys first, ascending, then the others in creation order; a write to `__proto__` goes to the prototype and adds no member), `JSON.stringify`'s writing of NaN and the infinities as `null`, `Object.entries`, and the codec (`JSON.parse`, `JSON.stringify`, `String()`) as a parameter with the laws it is expected to keep |
| `JsonWitness` | a codec that keeps every law, so that no lemma assuming them is vacuous |
| `ToolName` | `validateToolName` |
| `ToolFields` | `validateUrl`, `validateJsonString`, the three per-kind validators |
| `ToolTypes` | the `Tool` union and the JSON object each variant becomes |
| `ToolActions` | `validateFolderOwnership` |
| `HeadersBuilder` | the headers builder: a class over its row list |
| `BodyParamsBuilder` | the body-parameters builder: a class over its rows and pending enum inputs, with the schema-building loop |
| `EditorState` | the dialog's draft record and the specification functions of its handlers (reset, `formToJson`, `jsonToForm`, switching, both save paths, folder toggles) |
| `EditorDialog` | the dialog as a class with one `draft` field; each handler is a method proved equal to its specification function |
| `EditorProperties`, `ExampleProperties`, `SwitchProperties`, `SaveProperties`, `FolderProperties` | lemmas relating the handlers to one another |

The collaborators the model cannot see become parameters:

- the JSON codec: `JsonCodec`, with one predicate per law: `ReadsBackCompact` and
  `ReadsBackPretty` (a well-formed value reads back from its print with its
  non-finite numbers as `null`), `PrintsNonFiniteAsNull`, `ParsesWellFormed`,
  `RefusesBlank` and `StringsAsText`; each lemma requires only the laws it uses,
  and `Lawful` is their conjunction;
- URL parsing: `UrlParser`, which returns the protocol or `None` where
  `new URL` throws;
- the ownership server action: `OwnershipService`;
- `onSave`: `Persistence`, which resolves or rejects with a message;
- random row ids: an `ids` function or a `freshId` argument.

## Model

| member | source | states |
|---|---|---|
| JsText.Trim | components/body-params-builder.tsx:103 | the result is the input with whitespace removed at both ends and nowhere else; it neither starts nor ends with whitespace, and it is empty exactly when the input is blank |
| JsText.TrimStart | lib/validation/tool-name.ts:3 | the result is a suffix of the input, everything dropped is whitespace, and the result does not start with whitespace |
| JsText.TrimEnd | lib/validation/tool-name.ts:3 | the result is a prefix of the input, everything dropped is whitespace, and the result does not end with whitespace |
| JsText.JsLength | lib/validation/tool-name.ts:7 | a string's UTF-16 length lies between its code-point count and twice that, and equals the count when every character is in the Basic Multilingual Plane |
| JsText.NatToString | components/headers-builder.tsx:27 | the key `Object.entries` gives an array element is the canonical decimal spelling of its index: digits only, no leading zero, and its value is the index |
| Json.Put | components/headers-builder.tsx:40-48 | writing a member sets that key and leaves every other key's value as it was |
| Json.Get | components/tool-editor-dialog.tsx:264-311 | reading `parsed.key`: an object's own member, nothing for any other value (its properties: `Json.NulledGet`, `Json.Falsiness`) |
| Json.Truthy | components/tool-editor-dialog.tsx:273-292 | JavaScript truthiness of a member that may be missing: `undefined`, `null`, `false`, `0`, NaN and `""` are falsy (stated by `Json.Falsiness`) |
| Json.Nullish | components/tool-editor-dialog.tsx:292 | `v ?? d` falls back exactly on `undefined` and `null` (stated by `Json.Falsiness`, `EditorState.AwaitOr`) |
| Json.Falsiness | components/tool-editor-dialog.tsx:273-278 | a nullish member is never truthy, a string is truthy exactly when non-empty, and an array or object is truthy even when empty (also lines 286, 292) |
| Json.PutOpt | components/tool-editor-dialog.tsx:232-240 | an undefined value leaves the object unchanged; a defined one is written |
| Json.PutWellFormed | components/headers-builder.tsx:40-48 | writing a well-formed value into a well-formed object keeps the keys distinct and listed |
| Json.Entries | components/headers-builder.tsx:27 | `Object.entries` of an object lists its members in key order; a boolean or a number has no entries |
| Json.IndexEntries | components/headers-builder.tsx:27 | `Object.entries` of an array pairs each element with its decimal index |
| Json.CharEntries | components/headers-builder.tsx:27 | `Object.entries` of a string pairs each character with its decimal index, one member per character |
| Json.Texts | components/tool-editor-dialog.tsx:286 | `String()` is applied to every element, in order |
| Json.StrArray | components/tool-editor-dialog.tsx:243 | a list of strings becomes a JSON array of the same strings in the same order |
| Json.TextOr | components/tool-editor-dialog.tsx:274-275 | the `or` fallback for a text field: a truthy member as text, otherwise the default (stated by `EditorProperties.TextRead`) |
| Json.TextListOr | components/tool-editor-dialog.tsx:287 | the `or []` fallback for a list of folder ids: the elements of a truthy array as text, otherwise none (stated by `Json.TextsOfStrArray`) |
| Json.TextsOfStrArray | components/tool-editor-dialog.tsx:243-244 | reading back an array of folder ids gives the same ids (also line 286) |
| Json.WellFormedStrArray | components/tool-editor-dialog.tsx:243 | an array of strings is a value `JSON.parse` could produce |
| Json.InsertKey | components/headers-builder.tsx:40-48 | creating a member adds exactly that key |
| Json.InsertIndex | components/headers-builder.tsx:40-48 | an array-index key is placed among the keys, which gain exactly that one |
| Json.InsertIndexOrdered | components/headers-builder.tsx:40-48 | creating an array-index member keeps the keys distinct and in JavaScript's order: index keys first, ascending |
| Json.InsertKeyOrdered | components/headers-builder.tsx:40-48 | creating any new member keeps the keys distinct and in JavaScript's order |
| Json.InsertKeyAppends | components/headers-builder.tsx:40-48 | a new key that is not an array index goes last |
| Json.InsertIndexAppends | components/headers-builder.tsx:40-48 | a new index key larger than every key, all of them indices, goes last |
| Json.Assign | components/headers-builder.tsx:43 | `acc[key] = value` sets the key, keeps the other values, and writing `__proto__` adds no member |
| Json.Nulled | components/tool-editor-dialog.tsx:261 | `JSON.stringify` writes NaN and the infinities as `null`: the result has none, a value without them is unchanged, and the shape and the keys are kept |
| Json.NulledFields | components/tool-editor-dialog.tsx:261 | the members of a nulled object are the nulled members |
| Json.NulledOpt | components/tool-editor-dialog.tsx:261 | a missing member stays missing |
| Json.NulledTwice | components/tool-editor-dialog.tsx:261 | nulling twice is nulling once |
| Json.NulledGet | components/tool-editor-dialog.tsx:261 | reading a member of a nulled object is nulling the member read |
| Json.NulledStrArray | components/tool-editor-dialog.tsx:243 | an array of strings has nothing to null |
| ToolName.ValidateToolName | lib/validation/tool-name.ts:2-18 | valid exactly when the name has 1 to 64 characters, all in `[A-Za-z0-9_.-]`; a failure carries one of the three messages; "Name is required" exactly for blank names |
| ToolName.MatchesNamePattern | lib/validation/tool-name.ts:12-13 | `/^[a-zA-Z0-9_.-]+$/`: one or more characters, all from the allowed class (stated by `ToolName.PatternIsAsciiNotBlank` and the contract of `ToolName.ValidateToolName`) |
| ToolName.PatternIsAsciiNotBlank | lib/validation/tool-name.ts:12-15 | a name matching the pattern is not blank and its UTF-16 length is its character count |
| ToolName.LengthBeforePattern | lib/validation/tool-name.ts:7-9 | a non-blank name over 64 UTF-16 units reports the length error, whatever its characters |
| ToolName.PatternReported | lib/validation/tool-name.ts:12-15 | a non-blank name within the limit that holds a character outside the class reports the pattern error |
| ToolName.ExampleGetWeather | lib/validation/tool-name.ts:12-17 | `get_weather` is valid |
| ToolName.ExampleDotted | lib/validation/tool-name.ts:12-17 | `a.b-c_1` is valid |
| ToolName.ExampleBadName | lib/validation/tool-name.ts:12-15 | `bad name!` reports the pattern error |
| ToolName.ExampleEmpty | lib/validation/tool-name.ts:3-5 | the empty and the all-space name report "Name is required" |
| ToolName.LongNameWithSpace | lib/validation/tool-name.ts:3-15 | 64 letters and a space report the length error, not the pattern error |
| ToolFields.FirstError | components/tool-editor-dialog.tsx:388 | the message `find` picks is the first failing field's, in the error record's field order; there is one exactly when some field failed (also lines 404, 433) |
| ToolFields.ValidateUrl | lib/validation/tool-fields.ts:15-29 | "URL is required" exactly for blank input; text that does not parse is malformed; parsed text is valid exactly when its protocol is `http:` or `https:` |
| ToolFields.UrlExamples | lib/validation/tool-fields.ts:20-25 | `ftp://x.com` is refused for its protocol; `https://api.x.com` is accepted |
| ToolFields.ValidateJsonString | lib/validation/tool-fields.ts:31-42 | valid exactly when the text is blank or parses; the only failure is the syntax message |
| ToolFields.OptionalJson | lib/validation/tool-fields.ts:59-64 | an optional JSON field fails exactly when it is not blank and does not parse |
| ToolFields.Verdict | lib/validation/tool-fields.ts:66-69 | `valid` is true exactly when no error was recorded |
| ToolFields.Required | lib/validation/tool-fields.ts:50-56 | a blank value gives the message and any other none |
| ToolFields.ValidateClientTool | lib/validation/tool-fields.ts:44-70 | every failing field is reported at once; name and description errors exactly for blank fields; a parameters error exactly for non-blank text that does not parse; no other key; valid exactly when nothing is reported |
| ToolFields.ValidateRagTool | lib/validation/tool-fields.ts:72-95 | name and description errors exactly for blank fields; a folders error exactly for an empty folder list; no other key; valid exactly when nothing is reported |
| ToolFields.ValidateWebhookTool | lib/validation/tool-fields.ts:97-145 | the URL error is the URL check's; each JSON field is reported exactly when it is non-blank and does not parse, independently of the others; no folder key; valid exactly when nothing is reported |
| ToolFields.BlankJsonPassesButDoesNotParse | lib/validation/tool-fields.ts:32-34 | whitespace-only text passes the JSON check, yet a parser that refuses blank text rejects it |
| ToolFields.PrintedJsonIsValid | lib/validation/tool-fields.ts:31-42 | the compact text of a well-formed value passes the JSON check, so a re-printed sub-field never fails it |
| ToolTypes.ClientJson | lib/types/session.ts:4-9 | a client tool's object is typed `client`, has no subtype, and carries the name, description and parameters |
| ToolTypes.KnowledgeJson | lib/types/session.ts:11-17 | a knowledge tool's object is typed `server`/`knowledge` and carries the name, description and folder ids |
| ToolTypes.WebhookJson | lib/types/session.ts:19-30 | a webhook tool's object is typed `server`/`webhook` and carries every field; optional members only when defined |
| ToolTypes.WebhookHead | lib/types/session.ts:19-25 | the webhook members always present, with no optional member yet |
| ToolTypes.ClientHead | components/tool-editor-dialog.tsx:518-523 | a client tool's object is typed `client`, has no subtype and no parameters yet, and carries the name and description |
| ToolTypes.KnowledgeHead | components/tool-editor-dialog.tsx:547-553 | a knowledge tool's object is typed `server`/`knowledge`, carries the name and description, and has no folder list yet |
| ToolTypes.WebhookOptions | lib/types/session.ts:26-29 | the optional webhook members are written exactly when defined, and nothing else changes |
| ToolTypes.ToolJson | lib/types/session.ts:2-30 | every tool's object carries its name and description and is typed `client` or `server` by variant |
| ToolActions.ValidateFolderOwnership | lib/actions/tools.ts:4-18 | an empty folder list is refused with its message, without asking the server; otherwise the server's answer is returned |
| HeadersBuilder.RowsOf | components/headers-builder.tsx:27-32 | one `static` row per entry, in order, named by the key and holding the value |
| HeadersBuilder.Write | components/headers-builder.tsx:42-44 | a row with a name sets that member and keeps the others; a row without one changes nothing |
| HeadersBuilder.HeadersObject | components/headers-builder.tsx:40-48 | the rows fold into an object (its members: `HeadersBuilder.EmittedNames`, `HeadersBuilder.LaterRowWins`, `HeadersBuilder.RowsRebuildObject`) |
| HeadersBuilder.InitialHeaders | components/headers-builder.tsx:23-36 | empty or unparseable text gives no rows; a parsed object gives a row per member in key order |
| HeadersBuilder.EmittedNames | components/headers-builder.tsx:40-48 | a name is emitted exactly when some row has that non-empty name |
| HeadersBuilder.LaterRowWins | components/headers-builder.tsx:40-48 | among rows with the same name, the last one's value is emitted |
| HeadersBuilder.EmittedWellFormed | components/headers-builder.tsx:40-48 | rows holding well-formed values emit a well-formed object |
| HeadersBuilder.BlankRowEmitsNothing | components/headers-builder.tsx:42 | appending a row with no name leaves the emitted object as it was |
| HeadersBuilder.RowsRebuildObject | components/headers-builder.tsx:27-32 | the rows read from a well-formed object with non-empty keys serialise back to exactly that object, key order included (also lines 40-48) |
| HeadersBuilder.NulledEmittedPart | components/headers-builder.tsx:40-48 | dropping the members the fold skips and turning non-finite numbers into `null` can be done in either order |
| HeadersBuilder.EmittedPartMaps | components/headers-builder.tsx:40-48 | dropping the skipped members commutes with any change applied member by member |
| HeadersBuilder.HeadersTextRoundTrip | components/headers-builder.tsx:23-49 | the builder opened on the printed text of a well-formed object emits the printed text of its emittable members (every member but those under the empty name and `__proto__`), even where `JSON.stringify` turned numbers into `null` |
| HeadersBuilder.AuthorizationRoundTrip | components/headers-builder.tsx:23-49 | `{"Authorization": "Bearer x"}` survives opening and emitting |
| HeadersBuilder.WithoutId | components/headers-builder.tsx:62-64 | exactly the rows without that id survive |
| HeadersBuilder.WithoutIdConcat | components/headers-builder.tsx:62-64 | removal keeps the order of the remaining rows |
| HeadersBuilder.WithoutUnknownId | components/headers-builder.tsx:62-64 | removing an id no row has changes nothing |
| HeadersBuilder.Apply | components/headers-builder.tsx:66-68 | an edit writes one field of a row and keeps the others |
| HeadersBuilder.Updated | components/headers-builder.tsx:66-68 | rows with the id are edited and every other row is kept, in place |
| HeadersBuilder.HeadersBuilderState.constructor | components/headers-builder.tsx:23-36 | the builder starts with the rows read from its value |
| HeadersBuilder.HeadersBuilderState.UpdateHeaders | components/headers-builder.tsx:38-50 | keeps the new rows and emits their printed object |
| HeadersBuilder.HeadersBuilderState.AddHeader | components/headers-builder.tsx:52-60 | appends one empty `secret` row; the emitted object is unchanged |
| HeadersBuilder.HeadersBuilderState.RemoveHeader | components/headers-builder.tsx:62-64 | drops the rows with that id and emits the rest |
| HeadersBuilder.HeadersBuilderState.UpdateHeader | components/headers-builder.tsx:66-68 | edits the rows with that id and emits the result |
| BodyParamsBuilder.ListedAsRequired | components/body-params-builder.tsx:37 | a missing `required` means not required; an array means listed-or-not; any other value except a string has no `includes` |
| BodyParamsBuilder.ParamOf | components/body-params-builder.tsx:33-41 | a property becomes a row named by its key, with type defaulting to `string`, description to empty text, enum to none, required as listed, and value type `llm_prompt` |
| BodyParamsBuilder.ParamsOf | components/body-params-builder.tsx:33-41 | one row per property, in key order |
| BodyParamsBuilder.InitialParams | components/body-params-builder.tsx:28-47 | empty or unparseable text, or a document that is not an object schema, gives no rows; an object schema whose properties and `required` list can be read gives one row per property, in key order, each marked required as listed |
| BodyParamsBuilder.EnumOf | components/body-params-builder.tsx:40 | `val.enum`, or none: the elements of an array, nothing for any other value (stated by the contract of `BodyParamsBuilder.ParamOf`) |
| BodyParamsBuilder.ParamSchema | components/body-params-builder.tsx:58-62 | a row's property carries its type and description, `enum` only when non-empty, and no builder-only field |
| BodyParamsBuilder.Schema | components/body-params-builder.tsx:69-73 | the schema is typed `object`, holds the properties, and has `required` only when non-empty |
| BodyParamsBuilder.PropertyEmitted | components/body-params-builder.tsx:56-58 | a property is emitted exactly when some row has that non-empty identifier |
| BodyParamsBuilder.LaterParamWins | components/body-params-builder.tsx:58 | among rows with the same identifier, the last one is emitted |
| BodyParamsBuilder.RequiredListed | components/body-params-builder.tsx:63-64 | an identifier is listed as required exactly when a flagged row with that non-empty identifier exists |
| BodyParamsBuilder.RequiredInRowOrder | components/body-params-builder.tsx:56-67 | `required` lists identifiers in row order |
| BodyParamsBuilder.UnnamedRowKeepsSchema | components/body-params-builder.tsx:57 | a row with no identifier leaves the schema as it was |
| BodyParamsBuilder.PropertiesStep | components/body-params-builder.tsx:56-58 | one more row writes its own property when its identifier is emittable, and nothing else |
| BodyParamsBuilder.PropertiesOf | components/body-params-builder.tsx:55-66 | the `properties` object the `forEach` fills is always an object (its members: `BodyParamsBuilder.PropertyEmitted`, `BodyParamsBuilder.LaterParamWins`) |
| BodyParamsBuilder.RequiredOf | components/body-params-builder.tsx:62-64 | the `required` list the `forEach` pushes onto (stated by `BodyParamsBuilder.RequiredListed`, `BodyParamsBuilder.RequiredInRowOrder`) |
| BodyParamsBuilder.FindParam | components/body-params-builder.tsx:106 | the first row with that id, or none exactly when no row has it |
| BodyParamsBuilder.WithoutParam | components/body-params-builder.tsx:92 | exactly the rows without that id survive; a single row survives exactly when its id differs |
| BodyParamsBuilder.WithoutParamConcat | components/body-params-builder.tsx:92 | the filter keeps the other rows in their order and number: it distributes over concatenation |
| BodyParamsBuilder.ApplyEdit | components/body-params-builder.tsx:98-100 | an edit writes one field of a row and keeps the others |
| BodyParamsBuilder.UpdatedParams | components/body-params-builder.tsx:98-100 | rows with the id are edited and every other row is kept, in place |
| BodyParamsBuilder.WithoutValue | components/body-params-builder.tsx:119 | exactly the other values survive; a single value survives exactly when it differs |
| BodyParamsBuilder.PendingInput | components/body-params-builder.tsx:104 | the row's pending input trimmed, a missing one read as empty |
| BodyParamsBuilder.AddsEnumValue | components/body-params-builder.tsx:104-111 | `addEnumValue` acts exactly for a non-empty trimmed input, a row with that id and a value the row does not hold yet (stated by the contracts of `BodyParamsBuilder.EnumAdded` and `BodyParamsBuilder.BodyParamsBuilderState.AddEnumValue`) |
| BodyParamsBuilder.WithoutValueConcat | components/body-params-builder.tsx:119 | the filter keeps the other values in their order and number: it distributes over concatenation |
| BodyParamsBuilder.WithoutMissingValue | components/body-params-builder.tsx:119 | removing an absent enum value keeps the list |
| BodyParamsBuilder.EnumAdded | components/body-params-builder.tsx:102-111 | a blank input or a duplicate changes nothing (the input stays pending); otherwise the pending input is cleared |
| BodyParamsBuilder.EnumAddedAppends | components/body-params-builder.tsx:106-110 | an accepted value is the trimmed input, appended to the row's enum values |
| BodyParamsBuilder.EnumAddedTwice | components/body-params-builder.tsx:102-111 | adding the same pending value twice is the same as adding it once |
| BodyParamsBuilder.EnumRemoved | components/body-params-builder.tsx:113-122 | an unknown row id changes nothing |
| BodyParamsBuilder.FoundIsOnly | components/body-params-builder.tsx:106 | with distinct ids, the row found is the one with that id (also line 114) |
| BodyParamsBuilder.EnumRemovedIsGone | components/body-params-builder.tsx:113-122 | after removal the row no longer holds the value |
| BodyParamsBuilder.EnumRemovedMissing | components/body-params-builder.tsx:113-122 | removing a value the row does not hold changes no row |
| BodyParamsBuilder.BodyParamsBuilderState.constructor | components/body-params-builder.tsx:28-49 | the builder starts with the rows read from its value and no pending input |
| BodyParamsBuilder.BodyParamsBuilderState.BuildSchema | components/body-params-builder.tsx:51-73 | the `forEach` loop builds exactly the schema of the rows |
| BodyParamsBuilder.BodyParamsBuilderState.UpdateParams | components/body-params-builder.tsx:51-76 | keeps the new rows and emits their printed schema |
| BodyParamsBuilder.BodyParamsBuilderState.AddParam | components/body-params-builder.tsx:78-89 | appends one empty row; the emitted schema is unchanged |
| BodyParamsBuilder.BodyParamsBuilderState.RemoveParam | components/body-params-builder.tsx:91-96 | drops the rows with that id and their pending input |
| BodyParamsBuilder.BodyParamsBuilderState.UpdateParam | components/body-params-builder.tsx:98-100 | edits the rows with that id and keeps the pending inputs |
| BodyParamsBuilder.BodyParamsBuilderState.SetEnumInput | components/body-params-builder.tsx:212 | records the pending text of one row's enum input and nothing else |
| BodyParamsBuilder.BodyParamsBuilderState.AddEnumValue | components/body-params-builder.tsx:102-111 | the new rows and inputs are those `EnumAdded` describes, and something is emitted exactly when a value was added |
| BodyParamsBuilder.BodyParamsBuilderState.AppendEnumValue | components/body-params-builder.tsx:108-109 | writes the extended enum list into the row and clears its pending input |
| BodyParamsBuilder.BodyParamsBuilderState.RemoveEnumValue | components/body-params-builder.tsx:113-122 | removes the value from the row, and emits exactly when the row exists |
| EditorState.InitialKind | components/tool-editor-dialog.tsx:127 | `forceRagType` forces the knowledge kind; otherwise the initial type when one is given, and webhook when none is |
| EditorState.Mounted | components/tool-editor-dialog.tsx:69-96 | the dialog mounts on an empty form of the initial kind, in form mode, not saving, with POST, an awaited response, an empty buffer and no folders |
| EditorState.Seeded | components/tool-editor-dialog.tsx:99-121 | opening on a tool fills in its name, description and kind, the buffer with its printed object, and that variant's own fields |
| EditorState.Reopened | components/tool-editor-dialog.tsx:98-148 | every open returns to form mode with no JSON error, keeping only the saving flag, the search text and the advanced toggle from before |
| EditorState.KindNamed | components/tool-editor-dialog.tsx:649-659 | exactly the four kind names are recognised, each as the kind the selector shows under that name |
| EditorState.KindValue | components/tool-editor-dialog.tsx:661-663 | the selector shows each kind under one of the four names (also lines 817, 826, 835, 844) |
| EditorState.NameErrorFor | components/tool-editor-dialog.tsx:150-158 | the name error is cleared exactly when the name is valid |
| EditorState.UrlErrorFor | components/tool-editor-dialog.tsx:160-172 | a blank URL shows no error; otherwise none exactly when the URL is valid |
| EditorState.ClientExample | components/tool-editor-dialog.tsx:178-197 | the client example is typed `client` and has an example schema as parameters |
| EditorState.ExampleSchema | components/tool-editor-dialog.tsx:184-193 | the example schema is typed `object` with the single property `param1` |
| EditorState.NullReadMessage | components/tool-editor-dialog.tsx:266-271 | the engine's message for reading a member of `null` names the member read (also line 355) |
| EditorState.NotAFunctionMessage | components/tool-editor-dialog.tsx:366 | the engine's message for `trim` of a non-string value starts with the call that failed (also lines 380-439) |
| EditorState.AwaitOr | components/tool-editor-dialog.tsx:292 | `?? true`: a missing or `null` value reads as on, an explicit `false` stays off |
| EditorState.KnowledgeExample | components/tool-editor-dialog.tsx:198-209 | the knowledge example is typed `server`/`knowledge` |
| EditorState.WebhookExample | components/tool-editor-dialog.tsx:210-223 | the webhook example is typed `server`/`webhook` |
| EditorState.WebhookJsonFields | components/tool-editor-dialog.tsx:252-258 | the sub-fields are written in order until the first that does not parse: that one and every later one keep the object's value; each written sub-field is its parsed value, or the object's value when its text is empty; no other member changes |
| EditorState.ParsedOrRaw | components/tool-editor-dialog.tsx:234-240 | the client parameters as parsed when they parse, as the raw text when they do not, left out when the text is empty (stated by `EditorProperties.ParsedOrRawWellFormed`, `EditorProperties.ClientDocumentMembers`) |
| EditorState.FormDocument | components/tool-editor-dialog.tsx:175-259 | the object `formToJson` prints: its kind's example for an empty form of any kind but system, otherwise the current fields (stated by `SwitchProperties.EmptyFormPrintsExample`, `SwitchProperties.FilledDocumentWellFormed`) |
| EditorState.ExampleDocument | components/tool-editor-dialog.tsx:175-224 | each kind's example document (its members: `ExampleProperties.ClientExampleFields`, `ExampleProperties.KnowledgeExampleFields`, `ExampleProperties.WebhookExampleFields`) |
| EditorState.FilledDocument | components/tool-editor-dialog.tsx:227-259 | the current fields in the order `formToJson` assigns them (stated by `EditorProperties.FilledFormDocument`) |
| EditorState.ClientDocument | components/tool-editor-dialog.tsx:232-240 | the client members after the name and description (stated by `EditorProperties.ClientDocumentMembers`) |
| EditorState.KnowledgeDocument | components/tool-editor-dialog.tsx:241-244 | the knowledge members after the name and description (stated by `EditorProperties.KnowledgeDocumentMembers`) |
| EditorState.WebhookDocument | components/tool-editor-dialog.tsx:245-258 | the webhook head followed by the parsed sub-fields (stated by `EditorProperties.WebhookDocumentMembers`) |
| EditorState.FormToJson | components/tool-editor-dialog.tsx:174-262 | the pretty print of the form's document (its read-back: `SwitchProperties.SwitchedBufferParses`) |
| EditorState.PrettyOr | components/tool-editor-dialog.tsx:99-117 | `v ? JSON.stringify(v, null, 2) : ""` for a sub-field being opened (stated by `EditorProperties.PrettyOrNulled`) |
| EditorState.NamedObject | components/tool-editor-dialog.tsx:227-230 | the object starts with exactly the name and the description |
| EditorState.WebhookFormHead | components/tool-editor-dialog.tsx:245-250 | a webhook form writes its tag, URL, method and `awaitResponse`, and nothing else |
| EditorState.SwitchedToJson | components/tool-editor-dialog.tsx:313-317 | the buffer takes the pretty print of the form's document, the mode becomes JSON, and no other field changes |
| EditorState.InvalidSubtypeMessage | components/tool-editor-dialog.tsx:296-298 | an unknown subtype always shows a message |
| EditorState.InvalidTypeMessage | components/tool-editor-dialog.tsx:300-302 | an unknown type always shows a message |
| EditorState.JsonToForm | components/tool-editor-dialog.tsx:264-311 | a load succeeds only on text that parses, and then clears the JSON error; it never writes the mode, the buffer, the saving flag or the error fields |
| EditorState.LoadDocument | components/tool-editor-dialog.tsx:266-306 | success exactly when no JSON error remains; a typed document's name and description are written first |
| EditorState.LoadServer | components/tool-editor-dialog.tsx:280-302 | reading a server document keeps the name and description already read |
| EditorState.LoadWebhook | components/tool-editor-dialog.tsx:288-295 | reading a webhook document never fails |
| EditorState.OwnershipMessage | components/tool-editor-dialog.tsx:332 | a refused ownership check always shows a message |
| EditorState.SwitchedToForm | components/tool-editor-dialog.tsx:319-345 | switching to the form keeps the buffer and the saving flag, and either reaches form mode or stays in the current mode |
| EditorState.JsonSavePlan | components/tool-editor-dialog.tsx:348-449 | a JSON-mode save goes on only with the parsed buffer (the message of each refusal is stated by the lemmas of `SaveProperties`) |
| EditorState.DocumentPlan | components/tool-editor-dialog.tsx:355-375 | the plan carries the parsed document itself (the messages: `SaveProperties.DocumentRefusals`) |
| EditorState.KindPlan | components/tool-editor-dialog.tsx:377-449 | the plan carries the parsed document itself (the messages: `SaveProperties.KindRefusals`, `SaveProperties.ValidatorRefusals`) |
| EditorState.WebhookPlan | components/tool-editor-dialog.tsx:422-439 | a webhook document is submitted as parsed and never goes to the ownership check |
| EditorState.FirstMessage | components/tool-editor-dialog.tsx:388-389 | the refusal shows the validator's first message, or "Validation failed" when there is none (also lines 404-405, 433-434) |
| EditorState.FormSavePlan | components/tool-editor-dialog.tsx:474-610 | only the system kind is unsupported; a planned tool carries the form's name and description, passed the name format and is of the form's kind; a knowledge tool carries the selected, non-empty folders |
| EditorState.ClientFormPlan | components/tool-editor-dialog.tsx:486-523 | a client save is refused by the validator, then by the name format, then by unparseable parameters (stated by the contract of `EditorState.FormSavePlan` and by `SaveProperties.FormModeSends`) |
| EditorState.KnowledgeFormPlan | components/tool-editor-dialog.tsx:524-553 | a knowledge save is refused by the validator, then by the name format (stated by the contract of `EditorState.FormSavePlan`) |
| EditorState.WebhookFormPlan | components/tool-editor-dialog.tsx:554-606 | a webhook save is refused by the validator, then by the name format, then by a sub-field that does not parse (stated by the contract of `EditorState.FormSavePlan` and by `SaveProperties.WebhookFieldErrorsShown`) |
| EditorState.CompactOr | components/tool-editor-dialog.tsx:384 | `v ? JSON.stringify(v) : ""` for the sub-fields handed to the validators (its text always passes the JSON check: `ToolFields.PrintedJsonIsValid`) |
| EditorState.ClearedErrors | components/tool-editor-dialog.tsx:474-481 | the eight field errors become empty; the inputs, the saving flag and the JSON error stay |
| EditorState.ShowErrors | components/tool-editor-dialog.tsx:493-496 | the name and description errors show the validator's messages; the parameter, folder, URL, headers, query and body-parameter errors show theirs for the kind that has them and stay as they were for the others; inputs, saving flag and JSON error stay (also lines 531-534, 564-570) |
| EditorState.Submitted | components/tool-editor-dialog.tsx:451-464 | the tool is handed over once; the dialog closes exactly when `onSave` resolves; the saving flag is cleared afterwards; no input changes (also lines 612-621) |
| EditorState.Refused | components/tool-editor-dialog.tsx:349-353 | a refused save hands nothing over, does not close, and changes nothing more (also lines 358-362) |
| EditorState.Save | components/tool-editor-dialog.tsx:347-622 | a save hands over at most one tool, closes only when it did and `onSave` resolved, clears the saving flag, and never changes an input |
| EditorState.JsonModeSave | components/tool-editor-dialog.tsx:347-472 | the same, for the JSON-mode branch |
| EditorState.JsonOutcome | components/tool-editor-dialog.tsx:410-471 | the same, for a planned JSON-mode save |
| EditorState.FormModeSave | components/tool-editor-dialog.tsx:474-622 | the same, for the form-mode branch |
| EditorState.FormOutcome | components/tool-editor-dialog.tsx:486-621 | the same, for a planned form-mode save |
| EditorState.SubmitToolOutcome | components/tool-editor-dialog.tsx:612-621 | a form-mode tool that passed every check reaches `onSave` as its JSON object, and the form is not reloaded |
| EditorState.Without | components/tool-editor-dialog.tsx:633 | exactly the other values survive, and the list does not grow (order and multiplicity: `FolderProperties.WithoutConcat`, `FolderProperties.WithoutCounts`; also line 642) |
| EditorState.Dedup | components/tool-editor-dialog.tsx:644 | dropping repeats keeps every value and leaves no repeat (first occurrences in order: `FolderProperties.DedupFirstOccurrence`) |
| EditorState.DedupAfter | components/tool-editor-dialog.tsx:644 | dropping repeats after a repeat-free prefix keeps that prefix in front, keeps every value and leaves no repeat |
| EditorState.TotalFiles | components/tool-editor-dialog.tsx:629 | the number of documents in all folders (stated by `FolderProperties.TotalFilesConcat`, `FolderProperties.TotalFilesAtLeast`, `FolderProperties.TotalFilesAtMost`) |
| EditorState.ShouldShowSearch | components/tool-editor-dialog.tsx:630 | more than five folders holding more than ten documents (stated by `FolderProperties.SearchThresholds`, `FolderProperties.SearchStaysShown`) |
| EditorState.ToggleExpanded | components/tool-editor-dialog.tsx:632-634 | the folder's membership flips and no other folder's changes |
| EditorState.ToggleSelected | components/tool-editor-dialog.tsx:640-647 | the folder's membership flips, no other folder's changes, and a selection stays free of repeats |
| EditorDialog.WebhookPlanSubmits | components/tool-editor-dialog.tsx:595-621 | a webhook form that passed every check submits its tool |
| EditorDialog.WebhookPlanIsTool | components/tool-editor-dialog.tsx:595-606 | a webhook form that passed every check plans to save the tool built from its fields |
| EditorDialog.ToolEditorDialog.constructor | components/tool-editor-dialog.tsx:69-96 | the dialog mounts with the initial values, of the initial kind |
| EditorDialog.ToolEditorDialog.Reopen | components/tool-editor-dialog.tsx:98-148 | the reset effect produces the reopened draft |
| EditorDialog.ToolEditorDialog.Seed | components/tool-editor-dialog.tsx:99-121 | the field writes for a tool produce the seeded draft |
| EditorDialog.ToolEditorDialog.Reset | components/tool-editor-dialog.tsx:122-144 | the field writes without a tool return every field to its mount value except the saving flag, the search text and the advanced toggle |
| EditorDialog.ToolEditorDialog.HandleNameChange | components/tool-editor-dialog.tsx:150-158 | writes the name and its live error only |
| EditorDialog.ToolEditorDialog.HandleUrlChange | components/tool-editor-dialog.tsx:160-172 | writes the URL and its live error only |
| EditorDialog.ToolEditorDialog.EditDescription | components/tool-editor-dialog.tsx:918-921 | writes the description and clears its error only |
| EditorDialog.ToolEditorDialog.EditRawJson | components/tool-editor-dialog.tsx:788-791 | writes the buffer and clears the JSON error only |
| EditorDialog.ToolEditorDialog.EditClientParameters | components/tool-editor-dialog.tsx:954-957 | writes the parameters and clears their error only |
| EditorDialog.ToolEditorDialog.EditHeaders | components/tool-editor-dialog.tsx:1263-1266 | writes the headers and clears their error only |
| EditorDialog.ToolEditorDialog.EditQueryParams | components/tool-editor-dialog.tsx:1274-1277 | writes the query parameters and clears their error only |
| EditorDialog.ToolEditorDialog.EditWebhookParameters | components/tool-editor-dialog.tsx:1285-1288 | writes the body parameters and clears their error only |
| EditorDialog.ToolEditorDialog.HandleSwitchToJson | components/tool-editor-dialog.tsx:313-317 | writes the switched-to-JSON draft: the printed document in the buffer, the JSON mode, every other field unchanged |
| EditorDialog.ToolEditorDialog.JsonToForm | components/tool-editor-dialog.tsx:264-311 | the step-by-step writes and early returns give the load's draft and verdict |
| EditorDialog.ToolEditorDialog.LoadDocument | components/tool-editor-dialog.tsx:266-302 | the same, for a parsed document |
| EditorDialog.ToolEditorDialog.LoadServer | components/tool-editor-dialog.tsx:280-302 | the same, for a server document |
| EditorDialog.ToolEditorDialog.HandleSwitchToForm | components/tool-editor-dialog.tsx:319-345 | writes the switched-to-form draft |
| EditorDialog.ToolEditorDialog.HandleSave | components/tool-editor-dialog.tsx:347-622 | the save's draft, handed-over tool and close flag are the specified ones, and the dialog can save again afterwards |
| EditorDialog.ToolEditorDialog.CanSave | components/tool-editor-dialog.tsx:1302-1307 | Save and Cancel are enabled exactly while no save is in flight (kept by the contract of `EditorDialog.ToolEditorDialog.HandleSave`) |
| EditorDialog.ToolEditorDialog.Submit | components/tool-editor-dialog.tsx:451-464 | hands the tool over, closes on success, shows a JSON-mode rejection and clears the saving flag (also lines 612-621) |
| EditorDialog.ToolEditorDialog.SaveJson | components/tool-editor-dialog.tsx:348-472 | the JSON-mode branch gives the specified outcome |
| EditorDialog.ToolEditorDialog.SaveDocument | components/tool-editor-dialog.tsx:355-471 | the checks on a parsed document give the planned outcome |
| EditorDialog.ToolEditorDialog.SaveKind | components/tool-editor-dialog.tsx:377-449 | the type and subtype dispatch gives the planned outcome |
| EditorDialog.ToolEditorDialog.SaveWebhookKind | components/tool-editor-dialog.tsx:422-439 | the webhook branch gives the planned outcome |
| EditorDialog.ToolEditorDialog.SaveClientJson | components/tool-editor-dialog.tsx:380-394 | the client branch gives the planned outcome |
| EditorDialog.ToolEditorDialog.SaveKnowledgeJson | components/tool-editor-dialog.tsx:396-421 | the knowledge branch, ownership check included, gives the planned outcome |
| EditorDialog.ToolEditorDialog.SaveWebhookJson | components/tool-editor-dialog.tsx:422-439 | the webhook validation gives the planned outcome |
| EditorDialog.ToolEditorDialog.SaveForm | components/tool-editor-dialog.tsx:474-622 | the form-mode branch gives the specified outcome |
| EditorDialog.ToolEditorDialog.SaveClientForm | components/tool-editor-dialog.tsx:486-523 | the client form's checks give the planned outcome |
| EditorDialog.ToolEditorDialog.SaveKnowledgeForm | components/tool-editor-dialog.tsx:524-553 | the knowledge form's checks give the planned outcome |
| EditorDialog.ToolEditorDialog.SubmitClientForm | components/tool-editor-dialog.tsx:502-523 | once the validator passes, the name check, the parameters parse and the hand-off to `onSave` give the planned outcome |
| EditorDialog.ToolEditorDialog.SubmitKnowledgeForm | components/tool-editor-dialog.tsx:540-553 | once the validator passes, the name check and the hand-off to `onSave` give the planned outcome |
| EditorDialog.ToolEditorDialog.SaveWebhookForm | components/tool-editor-dialog.tsx:554-606 | the webhook form's checks give the planned outcome |
| EditorDialog.ToolEditorDialog.SubmitWebhookForm | components/tool-editor-dialog.tsx:576-606 | the same, once the validator passed |
| EditorDialog.ToolEditorDialog.SendWebhookForm | components/tool-editor-dialog.tsx:583-606 | the same, once the name format also passed |
| EditorDialog.ToolEditorDialog.SubmitParsedWebhook | components/tool-editor-dialog.tsx:595-621 | the same, once every sub-field parsed |
| EditorDialog.ToolEditorDialog.ToggleFolder | components/tool-editor-dialog.tsx:632-634 | flips one folder's expansion and nothing else |
| EditorDialog.ToolEditorDialog.ToggleFolderSelection | components/tool-editor-dialog.tsx:640-647 | flips one folder's selection and nothing else |
| EditorDialog.ToolEditorDialog.IsFolderSelected | components/tool-editor-dialog.tsx:636-638 | a folder shows as selected exactly when its id is in the selection (a reading of the state, without a contract of its own) |
| EditorDialog.ToolEditorDialog.ClickFolder | components/tool-editor-dialog.tsx:1119-1132 | flips one folder's selection and clears the folder error |
| EditorDialog.ToolEditorDialog.HandleToolTypeChange | components/tool-editor-dialog.tsx:649-659 | a known kind name sets the kind, and the selector then shows that very name; any other value changes nothing |
| EditorProperties.PutOptWellFormed | components/tool-editor-dialog.tsx:232-258 | writing an optional well-formed member keeps an object well formed |
| EditorProperties.TextObjectWellFormed | lib/types/session.ts:19-25 | an object of distinct, listed string members is well formed |
| EditorProperties.WebhookHeadWellFormed | lib/types/session.ts:19-25 | the always-present webhook members form a well-formed object |
| EditorProperties.ClientHeadWellFormed | components/tool-editor-dialog.tsx:518-521 | the always-present client members form a well-formed object |
| EditorProperties.KnowledgeHeadWellFormed | components/tool-editor-dialog.tsx:547-551 | the always-present knowledge members form a well-formed object |
| EditorProperties.WebhookOptionsWellFormed | lib/types/session.ts:26-29 | adding well-formed optional members keeps a webhook object well formed |
| EditorProperties.ToolJsonWellFormed | lib/types/session.ts:2-30 | the object of a tool holding well-formed values is well formed |
| EditorProperties.PrettyOrNulled | components/tool-editor-dialog.tsx:99-117 | a sub-field shows the same text opened from the tool or from its `JSON.stringify` form, except a top-level infinity, which opens as the print of `null` but as empty text once nulled (also line 261) |
| EditorProperties.NulledTool | components/tool-editor-dialog.tsx:99-117 | the tool the JSON text describes keeps the name and description |
| EditorProperties.NulledToolSeedsSame | components/tool-editor-dialog.tsx:99-117 | without a top-level infinity, the nulled tool opens into the same fields, the buffer aside |
| EditorProperties.ReopenWithoutToolForgets | components/tool-editor-dialog.tsx:122-147 | opening without a tool gives the same draft whatever was edited before: empty form of the initial kind, POST, awaited response, no folders |
| EditorProperties.ReopenWithToolKeepsRest | components/tool-editor-dialog.tsx:98-121 | opening on a tool keeps the error messages, the expanded folders and the other variants' fields |
| EditorProperties.KindSelection | components/tool-editor-dialog.tsx:649-663 | the selector's values and the kinds correspond one to one: each kind is selected by exactly the value it is shown under |
| EditorProperties.SeededDocumentLoadsBack | components/tool-editor-dialog.tsx:98-121 | the buffer an open stored loads back into exactly the fields opening on the tool as its JSON text describes it would set, non-finite numbers read back as `null` (also lines 264-311) |
| EditorProperties.SeededToolReloadsUnchanged | components/tool-editor-dialog.tsx:98-121 | with no top-level infinity, the stored buffer loads back into exactly the fields the open set (also lines 264-311) |
| EditorProperties.InfiniteParametersReadBackEmpty | components/tool-editor-dialog.tsx:99-105 | client parameters of `Infinity` show as the print of `Infinity` on opening and come back from the buffer empty (also lines 276-278) |
| EditorProperties.SeededClientLoadsBack | components/tool-editor-dialog.tsx:99-105 | the same, for a client tool (also lines 273-278) |
| EditorProperties.SeededKnowledgeLoadsBack | components/tool-editor-dialog.tsx:107-109 | the same, for a knowledge tool (also lines 280-287) |
| EditorProperties.SeededWebhookLoadsBack | components/tool-editor-dialog.tsx:110-117 | the same, for a webhook tool (also lines 288-295) |
| EditorProperties.ClientNulledTextLoads | components/tool-editor-dialog.tsx:273-278 | the print of a client document naming the form's name and description loads its nulled parameters |
| EditorProperties.KnowledgeNulledTextLoads | components/tool-editor-dialog.tsx:280-287 | the print of a knowledge document carrying the form's fields loads without changing them |
| EditorProperties.WebhookNulledTextLoads | components/tool-editor-dialog.tsx:288-295 | the print of a webhook document carrying the form's fields loads its nulled sub-fields |
| EditorProperties.SeededNulledWebhook | components/tool-editor-dialog.tsx:110-117 | the nulled webhook opens into the nulled sub-fields and nothing else differs |
| EditorProperties.AwaitOfNulled | components/tool-editor-dialog.tsx:292 | the response switch reads the same from a boolean, or from nothing, before and after nulling |
| EditorProperties.WebhookMembersNulled | components/tool-editor-dialog.tsx:288-295 | reading a member of a nulled webhook document is nulling that member |
| EditorProperties.TextRead | components/tool-editor-dialog.tsx:273-274 | a string member reads back as itself, and a non-empty one also where POST is the default (also lines 290-291) |
| EditorProperties.ClientTextLoads | components/tool-editor-dialog.tsx:273-278 | a parsed client document naming the form's name and description loads into the form with its parameters printed |
| EditorProperties.KnowledgeTextLoads | components/tool-editor-dialog.tsx:280-287 | a parsed knowledge document carrying the form's fields loads without changing them |
| EditorProperties.WebhookTextLoads | components/tool-editor-dialog.tsx:288-295 | a parsed webhook document carrying the form's fields loads its sub-fields printed |
| EditorProperties.NamedObjectWellFormed | components/tool-editor-dialog.tsx:227-230 | the name-and-description start is well formed |
| EditorProperties.ParsedOrRawWellFormed | components/tool-editor-dialog.tsx:232-240 | the client parameters written, parsed or raw, are well formed |
| EditorProperties.ParsedOptWellFormed | components/tool-editor-dialog.tsx:252-258 | a parsed sub-field is well formed |
| EditorProperties.ClientFormRoundTrip | components/tool-editor-dialog.tsx:227-240 | a filled-in client form shown as JSON and read back keeps every field, with the parameters re-printed from what `JSON.stringify` made of them (also lines 273-278) |
| EditorProperties.FilledFormDocument | components/tool-editor-dialog.tsx:174-176 | a form with a name or a description prints its own fields, by kind (also lines 227-258) |
| EditorProperties.ClientDocumentWellFormed | components/tool-editor-dialog.tsx:232-240 | a client form's document is well formed |
| EditorProperties.ClientDocumentMembers | components/tool-editor-dialog.tsx:232-240 | a client form's document is typed `client` and carries the name, description and the parameters parsed or raw |
| EditorProperties.KnowledgeFormRoundTrip | components/tool-editor-dialog.tsx:241-244 | a filled-in knowledge form survives the JSON editor unchanged (also lines 285-287) |
| EditorProperties.KnowledgeDocumentWellFormed | components/tool-editor-dialog.tsx:241-244 | a knowledge form's document is well formed |
| EditorProperties.KnowledgeDocumentMembers | components/tool-editor-dialog.tsx:227-230 | a knowledge form's document is tagged as one and carries the name, description and folders (also lines 241-244) |
| EditorProperties.WebhookFormRoundTrip | components/tool-editor-dialog.tsx:245-258 | a filled-in webhook form with a method, whose sub-fields parse, survives the JSON editor, each sub-field re-printed from what `JSON.stringify` made of it (also lines 288-295) |
| EditorProperties.WebhookDocumentMembers | components/tool-editor-dialog.tsx:245-258 | a webhook form's document carries every field, and each sub-field exactly when non-empty |
| EditorProperties.FormHeadMembers | components/tool-editor-dialog.tsx:227-230 | the webhook head keeps the name and description and has no sub-field yet (also lines 245-250) |
| EditorProperties.FormHeadKeeps | components/tool-editor-dialog.tsx:245-250 | the webhook head leaves the name, description and sub-fields as they were |
| EditorProperties.JsonFieldsMembers | components/tool-editor-dialog.tsx:252-258 | sub-fields that all parse are written exactly when non-empty |
| EditorProperties.WebhookDocumentWellFormed | components/tool-editor-dialog.tsx:245-258 | a webhook form's document is well formed |
| EditorProperties.FormHeadWellFormed | components/tool-editor-dialog.tsx:245-250 | the webhook head of a well-formed object is well formed |
| EditorProperties.WebhookHeadKeysDistinct | components/tool-editor-dialog.tsx:245-250 | the six keys the webhook head writes, name and description included, are distinct (also lines 227-230) |
| EditorProperties.JsonFieldsWellFormed | components/tool-editor-dialog.tsx:252-258 | writing the sub-fields keeps the object well formed |
| EditorProperties.WebhookLoadReads | components/tool-editor-dialog.tsx:273-295 | a webhook document loads by reading its name and description and then its webhook members |
| EditorProperties.SystemFormDoesNotLoadBack | components/tool-editor-dialog.tsx:227-230 | a system form's document has no type, so reading it back fails with the missing-type message (also lines 268-271) |
| EditorProperties.SystemDocumentIsNamedObject | components/tool-editor-dialog.tsx:174-176 | a system form prints only its name and description, even when both are empty (also lines 227-230) |
| EditorProperties.SystemFilledIsNamedObject | components/tool-editor-dialog.tsx:227-230 | a system form's fields print as the name and description alone |
| EditorProperties.SystemDocumentLoads | components/tool-editor-dialog.tsx:268-271 | a document with only a name and description fails to load |
| EditorProperties.PrintedDocumentParses | components/tool-editor-dialog.tsx:261 | what the editor prints, pretty or compact, parses back to the value with its non-finite numbers as `null` (also line 384) |
| ExampleProperties.SchemaIsPlain | components/tool-editor-dialog.tsx:184-193 | the client example's parameter schema is a well-formed value with only finite numbers |
| ExampleProperties.ClientIsPlain | components/tool-editor-dialog.tsx:180-194 | the client example is a well-formed value with only finite numbers |
| ExampleProperties.KnowledgeIsPlain | components/tool-editor-dialog.tsx:200-206 | the knowledge example is a well-formed value with only finite numbers |
| ExampleProperties.WebhookIsPlain | components/tool-editor-dialog.tsx:212-220 | the webhook example is a well-formed value with only finite numbers |
| ExampleProperties.PlainReadsBack | components/tool-editor-dialog.tsx:179-197 | a well-formed value with only finite numbers reads back from its pretty print unchanged |
| ExampleProperties.ClientExampleReadsBack | components/tool-editor-dialog.tsx:179-197 | the printed client example parses back to the example itself |
| ExampleProperties.KnowledgeExampleReadsBack | components/tool-editor-dialog.tsx:199-209 | the printed knowledge example parses back to the example itself |
| ExampleProperties.WebhookExampleReadsBack | components/tool-editor-dialog.tsx:211-223 | the printed webhook example parses back to the example itself |
| ExampleProperties.ClientExampleFields | components/tool-editor-dialog.tsx:181-193 | the client example is typed `client` and carries its name, description and parameter schema |
| ExampleProperties.KnowledgeExampleFields | components/tool-editor-dialog.tsx:201-205 | the knowledge example is a knowledge document with its name and description and no folders |
| ExampleProperties.WebhookExampleFields | components/tool-editor-dialog.tsx:213-219 | the webhook example is a webhook document with its name, description, URL, POST and an awaited response |
| SwitchProperties.ClientSwitchRoundTrip | components/tool-editor-dialog.tsx:313-345 | a filled-in client form switched to JSON and back returns to form mode with every field kept, the parameters re-printed from what `JSON.stringify` made of them |
| SwitchProperties.ClientSwitchBack | components/tool-editor-dialog.tsx:319-345 | a client form whose buffer holds its own document switches back |
| SwitchProperties.ClientTextParses | components/tool-editor-dialog.tsx:232-240 | a filled-in client form's text parses to its document as `JSON.stringify` left it (also line 261) |
| SwitchProperties.ClientDocumentIsClient | components/tool-editor-dialog.tsx:232-240 | a client form's document is not a knowledge document (also line 328) |
| SwitchProperties.FilledDocumentIgnoresBuffer | components/tool-editor-dialog.tsx:174-262 | a filled-in form's document depends on its fields only, not on the buffer or the mode |
| SwitchProperties.KnowledgeSwitchRoundTrip | components/tool-editor-dialog.tsx:313-345 | a filled-in knowledge form switched to JSON and back returns unchanged, unless the ownership check refuses its folders; then it stays in JSON mode with that message |
| SwitchProperties.KnowledgeSwitchBack | components/tool-editor-dialog.tsx:319-345 | a knowledge form whose buffer holds its own document switches back as the ownership check allows |
| SwitchProperties.KnowledgeBufferParses | components/tool-editor-dialog.tsx:241-244 | a knowledge form's text parses to a knowledge document naming the form's folders (also lines 328-329) |
| SwitchProperties.KnowledgeTextParses | components/tool-editor-dialog.tsx:241-244 | a filled-in knowledge form's text parses to its document as `JSON.stringify` left it (also line 261) |
| SwitchProperties.KnowledgeDocumentFolders | components/tool-editor-dialog.tsx:286 | a knowledge document is recognised and names exactly its folders (also lines 328-329) |
| SwitchProperties.WebhookSwitchRoundTrip | components/tool-editor-dialog.tsx:313-345 | a filled-in webhook form with a method, whose sub-fields parse, switched to JSON and back returns to form mode, each sub-field re-printed from what `JSON.stringify` made of it |
| SwitchProperties.WebhookSwitchBack | components/tool-editor-dialog.tsx:319-345 | a webhook form whose buffer holds its own document switches back |
| SwitchProperties.WebhookTextParses | components/tool-editor-dialog.tsx:245-258 | a filled-in webhook form's text parses to its document as `JSON.stringify` left it (also line 261) |
| SwitchProperties.WebhookBufferParses | components/tool-editor-dialog.tsx:319-329 | a filled-in webhook form's buffer is not blank and parses to a document that is not a knowledge one |
| SwitchProperties.NulledNotKnowledge | components/tool-editor-dialog.tsx:328 | a document whose subtype is not `knowledge` is not a knowledge document once nulled |
| SwitchProperties.WebhookDocumentSubtype | components/tool-editor-dialog.tsx:245-250 | whatever its sub-fields, a webhook form's document has the webhook subtype |
| SwitchProperties.ParsedTextIsNotBlank | components/tool-editor-dialog.tsx:320-321 | text that parses is not blank |
| SwitchProperties.OtherDocumentSwitches | components/tool-editor-dialog.tsx:325-344 | a loaded document that is not a knowledge document reaches form mode at once |
| SwitchProperties.KnowledgeDocumentSwitches | components/tool-editor-dialog.tsx:328-344 | a loaded knowledge document reaches form mode unless its non-empty folders fail the ownership check |
| SwitchProperties.FilledDocumentWellFormed | components/tool-editor-dialog.tsx:227-261 | a filled-in form, or a system form, prints a well-formed document |
| SwitchProperties.SwitchedBufferParses | components/tool-editor-dialog.tsx:313-317 | after a filled-in or system form is switched to JSON, the buffer parses to the form's document as `JSON.stringify` left it, and is not blank |
| SwitchProperties.EmptyFormPrintsExample | components/tool-editor-dialog.tsx:174-224 | an empty form of any kind but system shows its kind's example in the buffer |
| SwitchProperties.EmptyClientFormTakesExample | components/tool-editor-dialog.tsx:178-197 | an empty client form switched to JSON and back holds the example's name, description and pretty-printed schema, in form mode (also lines 313-345) |
| SwitchProperties.EmptyKnowledgeFormTakesExample | components/tool-editor-dialog.tsx:198-209 | an empty knowledge form switched to JSON and back holds the example's name and description and no folders, in form mode (also lines 313-345) |
| SwitchProperties.EmptyWebhookFormTakesExample | components/tool-editor-dialog.tsx:210-223 | an empty webhook form switched to JSON and back holds the example's name, description and URL, POST, an awaited response and empty sub-fields, in form mode (also lines 313-345) |
| SwitchProperties.ClientTextOverwrites | components/tool-editor-dialog.tsx:273-278 | a client document replaces the name, description, kind and parameter text, whatever the form held |
| SwitchProperties.KnowledgeTextOverwrites | components/tool-editor-dialog.tsx:280-287 | a knowledge document replaces the name, description, kind and folders, whatever the form held |
| SwitchProperties.WebhookTextOverwrites | components/tool-editor-dialog.tsx:288-295 | a webhook document replaces the name, description, kind and every webhook field, whatever the form held |
| SwitchProperties.SwitchStaysOnFailure | components/tool-editor-dialog.tsx:319-345 | form mode is reached exactly from a blank buffer, or from a clean load that is not a knowledge document whose non-empty folders the ownership check refuses; staying in JSON mode keeps the buffer and shows a message unless the parser's own was empty |
| SwitchProperties.EarlyLoadFailureOnlySetsError | components/tool-editor-dialog.tsx:264-271 | a syntax error, `null`, or a missing type fails and changes nothing but the JSON error (also lines 307-310) |
| SwitchProperties.LoadRefusals | components/tool-editor-dialog.tsx:264-302 | each refusal of the load has its message: `null`, a missing type, an unknown type, a server document without a subtype or with an unknown one; once the type is truthy the name and description are overwritten even though the load fails |
| SwitchProperties.TypedDocumentOverwritesName | components/tool-editor-dialog.tsx:273-274 | once the type is read, the name and description are overwritten, whether or not the rest loads |
| SwitchProperties.ClientLoadTouchesOnlyItsFields | components/tool-editor-dialog.tsx:273-278 | a client document writes only the name, description, kind and parameters (also lines 305-306) |
| SwitchProperties.ServerWithoutSubtypeClearsName | components/tool-editor-dialog.tsx:273-283 | `{"type": "server"}` fails for its missing subtype and leaves an empty name and description |
| SaveProperties.JsonSaveChecks | components/tool-editor-dialog.tsx:348-449 | a JSON-mode save goes on only with a non-blank parsed buffer that has a text name in the name format, a truthy text description and a known type; only a knowledge document, with its non-empty folder list, goes to the ownership check |
| SaveProperties.KindPlanChecks | components/tool-editor-dialog.tsx:378-449 | a JSON-mode save goes on only after the kind's validator passed on the document's members |
| SaveProperties.MissingNameReportedFirst | components/tool-editor-dialog.tsx:358-362 | a document without a truthy name is refused for the name, whatever else it lacks |
| SaveProperties.SyntaxErrorReported | components/tool-editor-dialog.tsx:465-470 | a buffer that does not parse is refused with the parser's own message |
| SaveProperties.DocumentRefusals | components/tool-editor-dialog.tsx:355-375 | each check before the type, when it is the first to fail, gives its message: `null`, the missing description, `trim` of a name that is not text, the name format |
| SaveProperties.KindRefusals | components/tool-editor-dialog.tsx:377-449 | after the name checks, an unknown type, a server document with an unknown or missing subtype, and a description that is not text are refused with their messages |
| SaveProperties.ValidatorRefusals | components/tool-editor-dialog.tsx:378-439 | a well-named document of a known kind is refused exactly when its kind's validator fails, with the first message; a webhook also for a URL that is not text |
| SaveProperties.JsonModeSends | components/tool-editor-dialog.tsx:347-472 | a JSON-mode save hands over exactly the parsed buffer, exactly when every check and the ownership check passed; a refused ownership check shows its message and clears the saving flag |
| SaveProperties.FormValidation | components/tool-editor-dialog.tsx:486-610 | the system kind has no validator to fail |
| SaveProperties.FormModeSends | components/tool-editor-dialog.tsx:474-621 | a form-mode save hands over a tool exactly when the kind is not system, the validator and the name format passed and every non-empty sub-field parses; the tool carries the form's name and description |
| SaveProperties.SystemKindNeverSaves | components/tool-editor-dialog.tsx:607-610 | the system kind is never saved from the form |
| SaveProperties.FieldErrorsShown | components/tool-editor-dialog.tsx:474-500 | a rejected form is not saved and shows every reported error; name and description errors exactly for blank fields |
| SaveProperties.KindFieldErrorsShown | components/tool-editor-dialog.tsx:493-496 | the folder, URL and client-parameter errors show exactly when those checks fail (also lines 531-534, 564-570; the webhook sub-fields: `WebhookFieldErrorsShown`) |
| SaveProperties.WebhookFieldErrorsShown | components/tool-editor-dialog.tsx:564-570 | a webhook's headers, query and body-parameter errors show exactly when that non-blank text does not parse |
| SaveProperties.ShownMessage | components/tool-editor-dialog.tsx:494-496 | a cleared field shows a message exactly when one was reported |
| SaveProperties.NameFormatCheckedAfterValidator | components/tool-editor-dialog.tsx:502-507 | a form the validator accepts but whose name breaks the format shows only the format error (also lines 540-545, 576-581) |
| SaveProperties.WhitespaceClientParametersRefused | lib/validation/tool-fields.ts:32-34 | whitespace-only client parameters pass the validator but fail the save with the syntax message |
| SaveProperties.ClientTextRefused | components/tool-editor-dialog.tsx:509-516 | blank client parameters that fail to parse stop the save with the syntax message |
| SaveProperties.WhitespaceWebhookJsonRefusedSilently | components/tool-editor-dialog.tsx:583-593 | a whitespace-only webhook sub-field passes the validator but fails the save, and no field shows an error |
| SaveProperties.WebhookTextRefused | components/tool-editor-dialog.tsx:583-593 | a webhook sub-field that fails to parse stops the save with no field error |
| FolderProperties.WithoutAbsent | components/tool-editor-dialog.tsx:633 | removing an absent folder changes nothing |
| FolderProperties.WithoutLast | components/tool-editor-dialog.tsx:633 | removing the folder just appended gives the list back (also line 642) |
| FolderProperties.WithoutKeepsDistinct | components/tool-editor-dialog.tsx:642 | removing a folder keeps a selection free of repeats |
| FolderProperties.DedupAfterDistinct | components/tool-editor-dialog.tsx:644 | dropping repeats from a repeat-free list changes nothing |
| FolderProperties.WithoutConcat | components/tool-editor-dialog.tsx:633 | the filter keeps the other folders in their order: it distributes over concatenation (also line 642) |
| FolderProperties.WithoutCounts | components/tool-editor-dialog.tsx:633 | the filter removes every occurrence of the folder and keeps every other one as often as before (also line 642) |
| FolderProperties.DedupAfterConcat | components/tool-editor-dialog.tsx:644 | dropping repeats from two lists in turn is dropping them from the joined list |
| FolderProperties.DedupAfterSingleton | components/tool-editor-dialog.tsx:644 | one more value is appended exactly when it has not been seen |
| FolderProperties.DedupFirstOccurrence | components/tool-editor-dialog.tsx:644 | `new Set` keeps the first occurrence of each value, in order: a new value goes last, a repeat is dropped |
| FolderProperties.ExpandTwiceRestores | components/tool-editor-dialog.tsx:632-634 | expanding a folder appends it, and collapsing it again restores the list |
| FolderProperties.SelectTwiceRestores | components/tool-editor-dialog.tsx:640-647 | selecting a folder appends it, and deselecting it again restores the selection |
| FolderProperties.SelectionStaysDistinct | components/tool-editor-dialog.tsx:640-647 | toggling keeps the selection free of repeats |
| FolderProperties.SearchThresholds | components/tool-editor-dialog.tsx:629-630 | at most five folders never show the search; more than five folders of at least two documents each always do; at most ten folders of at most one document each never do |
| FolderProperties.TotalFilesConcat | components/tool-editor-dialog.tsx:629 | the document total of two folder lists is the sum of their totals |
| FolderProperties.TotalFilesAtLeast | components/tool-editor-dialog.tsx:629 | folders of at least `lo` documents each hold at least `lo` per folder in total |
| FolderProperties.TotalFilesAtMost | components/tool-editor-dialog.tsx:629 | folders of at most `hi` documents each hold at most `hi` per folder in total |
| FolderProperties.SearchStaysShown | components/tool-editor-dialog.tsx:630 | a search shown for some folders stays shown when more folders are added |

## Left out

- The codec, URL parsing, the ownership action and `onSave` are parameters. `JSON.parse`, `JSON.stringify`, `new URL` and the server are not modelled; the codec laws stand for the behaviour the model relies on, and `JsonWitness` shows that they can all hold at once.
- The mock ownership action accepts every non-empty list; the model keeps only its empty-list rule and takes the server's answer as a parameter.
- Async interleaving is not modelled. A save runs to completion in one call. The buttons that prevent a second save while one is in flight become the precondition `CanSave`.
- React batches the writes of one handler; the model writes them in order to one draft record, and a stale read of state inside a handler reads the draft as it was at entry.
- Error toasts, the router, the console, tooltips and all rendering are left out. Where a refusal is only notified by a toast, the model shows that no field changed.
- `components/schema-builder.tsx`, `app/page.tsx` and the query-parameters builder are not part of this model; the query parameters are edited as text.
- Row ids from `Math.random` and `Date.now` are parameters.
- JavaScript keeps a non-string member where a string was expected; the model reads such members through `String()`. The same holds for `awaitResponse`, which the model reads as a boolean.
- A `documentFolderIds` or `enum` member that is not an array is read as an empty list.
- A member whose value is `undefined` is left out of the object, as `JSON.stringify` would.
- The form-mode knowledge save does not call the ownership check in the source, and the model follows the code.
- SeededDocumentLoadsBack: requires a webhook to name a non-empty method, because an empty method reads back as POST.
- WebhookFormRoundTrip: requires a non-empty method, for the same reason.
- WebhookSwitchRoundTrip: requires a non-empty method, for the same reason.
- EditorDialog.ToolEditorDialog.HandleSave: requires that no save is in flight, which the source enforces only through the disabled buttons.
- Numbers are decimal values with NaN and the two infinities; floating-point arithmetic is not modelled, and `-0` is not told apart from `0`, so the sign `JSON.stringify` drops is not tracked.
- CharEntries: keys a string's members by code point, not by UTF-16 unit, so a character outside the Basic Multilingual Plane counts once where JavaScript counts two.
- Seeded: the buffer holds the print of the tool's own JSON form, in `ToolJson`'s key order, not of the caller's object with its own key order and any extra members it carries.
- SwitchedBufferParses: covers filled-in forms and the system kind; an empty form of the other kinds shows an example instead, which the three `Empty*FormTakesExample` lemmas cover.
