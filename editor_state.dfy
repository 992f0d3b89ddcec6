/**
 * The state of components/tool-editor-dialog.tsx as one draft record, and
 * the pure parts of its handlers: the document the form shows in JSON mode
 * (`formToJson`), how a JSON document is read back into the form
 * (`jsonToForm`), the switch back to the form, and the checks that decide
 * what a save hands to the persistence collaborator.
 */
module EditorState {
  import opened Wrappers
  import opened JsText
  import opened Json
  import opened ToolName
  import opened ToolFields
  import opened ToolTypes
  import opened ToolActions

  datatype ToolKind = ClientKind | KnowledgeKind | WebhookKind | SystemKind

  datatype EditMode = FormMode | JsonMode

  /** Every `useState` field of the dialog. */
  datatype Draft = Draft(
    toolType: ToolKind,
    name: string,
    nameError: string,
    description: string,
    descriptionError: string,
    isSaving: bool,
    url: string,
    urlError: string,
    httpMethod: string,
    headers: string,
    headersError: string,
    queryParams: string,
    queryParamsError: string,
    webhookParameters: string,
    webhookParametersError: string,
    awaitResponse: bool,
    clientParameters: string,
    clientParametersError: string,
    selectedDocuments: seq<string>,
    foldersError: string,
    searchQuery: string,
    expandedFolders: seq<string>,
    isAdvancedExpanded: bool,
    editMode: EditMode,
    rawJson: string,
    jsonError: string)

  /** `forceRagType ? "knowledge" : initialToolType || "webhook"`. */
  function InitialKind(forceRagType: bool, initialToolType: Option<ToolKind>): (k: ToolKind)
    ensures forceRagType ==> k == KnowledgeKind
    ensures !forceRagType && initialToolType.None? ==> k == WebhookKind
    ensures !forceRagType && initialToolType.Some? ==> k == initialToolType.value
  {
    if forceRagType then KnowledgeKind else if initialToolType.Some? then initialToolType.value else WebhookKind
  }

  /** The initial values of the `useState` calls. */
  function Mounted(kind: ToolKind): (d: Draft)
    ensures d.toolType == kind && FormIsEmpty(d) && d.editMode == FormMode && !d.isSaving
    ensures d.httpMethod == "POST" && d.awaitResponse && d.rawJson == "" && d.jsonError == ""
    ensures d.selectedDocuments == [] && d.expandedFolders == [] && !d.isAdvancedExpanded
  {
    Draft(kind, "", "", "", "", false, "", "", "POST", "", "", "", "", "", "", true, "", "", [], "", "", [], false,
          FormMode, "", "")
  }

  // ---------------------------------------------------------------- opening

  /** The draft an existing tool seeds: its fields and its pretty-printed JSON. */
  function Seeded(c: JsonCodec, d: Draft, t: Tool): (r: Draft)
    ensures r.name == t.name && r.description == t.description && r.rawJson == c.pretty(ToolJson(t))
    ensures r.toolType == (match t
                           case ClientTool(_, _, _) => ClientKind
                           case KnowledgeTool(_, _, _) => KnowledgeKind
                           case WebhookTool(_, _, _, _, _, _, _, _) => WebhookKind)
    ensures t.ClientTool? ==> r.clientParameters == PrettyOr(c, t.parameters)
    ensures t.KnowledgeTool? ==> r.selectedDocuments == t.documentFolderIds
    ensures t.WebhookTool? ==>
      && r.url == t.url && r.httpMethod == t.httpMethod
      && r.headers == PrettyOr(c, t.headers) && r.queryParams == PrettyOr(c, t.queryParameters)
      && r.webhookParameters == PrettyOr(c, t.parameters)
      && r.awaitResponse == (if t.awaitResponse.Some? then t.awaitResponse.value else true)
  {
    var d := d.(name := t.name, description := t.description);
    var d := match t
      case ClientTool(_, _, parameters) => d.(toolType := ClientKind, clientParameters := PrettyOr(c, parameters))
      case KnowledgeTool(_, _, ids) => d.(toolType := KnowledgeKind, selectedDocuments := ids)
      case WebhookTool(_, _, url, httpMethod, headers, queryParameters, parameters, awaitResponse) =>
        d.(toolType := WebhookKind, url := url, httpMethod := httpMethod, headers := PrettyOr(c, headers),
           queryParams := PrettyOr(c, queryParameters), webhookParameters := PrettyOr(c, parameters),
           awaitResponse := if awaitResponse.Some? then awaitResponse.value else true);
    d.(rawJson := c.pretty(ToolJson(t)))
  }

  /**
   * The reset effect that runs whenever the dialog opens: an existing tool is
   * loaded over the current draft; otherwise every field goes back to its
   * initial value except the search text, the advanced-section toggle and the
   * saving flag. Either way the dialog opens on the form with no JSON error.
   */
  function Reopened(c: JsonCodec, d: Draft, tool: Option<Tool>, forceRagType: bool,
                    initialToolType: Option<ToolKind>): (r: Draft)
    ensures r.editMode == FormMode && r.jsonError == ""
    ensures r.isSaving == d.isSaving && r.searchQuery == d.searchQuery && r.isAdvancedExpanded == d.isAdvancedExpanded
  {
    if tool.Some? then Seeded(c, d, tool.value).(editMode := FormMode, jsonError := "")
    else Mounted(InitialKind(forceRagType, initialToolType)).(isSaving := d.isSaving, searchQuery := d.searchQuery,
                                                         isAdvancedExpanded := d.isAdvancedExpanded)
  }

  /** `getCurrentSelectionValue`: the select value each kind is shown under. */
  function KindValue(k: ToolKind): (value: string)
    ensures value in {"client", "knowledge", "webhook", "system"}
  {
    match k
    case ClientKind => "client"
    case KnowledgeKind => "knowledge"
    case WebhookKind => "webhook"
    case SystemKind => "system"
  }

  /** `handleToolTypeChange`: the four kinds by their select values; any other value is ignored. */
  function KindNamed(value: string): (k: Option<ToolKind>)
    ensures k.Some? <==> value in {"client", "knowledge", "webhook", "system"}
    ensures k.Some? ==> KindValue(k.value) == value
  {
    if value == "client" then Some(ClientKind)
    else if value == "knowledge" then Some(KnowledgeKind)
    else if value == "webhook" then Some(WebhookKind)
    else if value == "system" then Some(SystemKind)
    else None
  }

  /** `handleNameChange`: the name's error is the validator's message, or none. */
  function NameErrorFor(value: string): (m: string)
    ensures m == "" <==> ValidateToolName(value).Pass?
  {
    match ValidateToolName(value)
    case Pass => ""
    case Fail(e) => e
  }

  /** `handleUrlChange`: blank text clears the error; other text shows the URL validator's message. */
  function UrlErrorFor(urls: UrlParser, value: string): (m: string)
    ensures IsBlank(value) ==> m == ""
    ensures !IsBlank(value) ==> (m == "" <==> ValidateUrl(urls, value).Pass?)
  {
    if IsBlank(value) then ""
    else match ValidateUrl(urls, value)
      case Pass => ""
      case Fail(e) => e
  }

  // ---------------------------------------------------------------- formToJson

  function Str(s: string): Json { JStr(s) }

  /** The example shown for an empty client form. */
  function ClientExample(): (j: Json)
    ensures Get(j, "type") == Some(JStr("client"))
    ensures Get(j, "parameters") == Some(ExampleSchema())
  {
    JObj(["type", "name", "description", "parameters"],
         map["type" := Str("client"), "name" := Str("my_client_tool"),
             "description" := Str("Describe when the AI should call this client-side function"),
             "parameters" := ExampleSchema()])
  }

  /** The parameter schema of the client example: one required string parameter. */
  function ExampleSchema(): (j: Json)
    ensures Get(j, "type") == Some(JStr("object"))
    ensures Get(j, "properties").Some? && Get(j, "properties").value.JObj?
    ensures Get(j, "properties").value.keys == ["param1"]
  {
    JObj(["type", "properties", "required"],
         map["type" := Str("object"), "properties" := JObj(["param1"], map["param1" := ExampleParameter()]),
             "required" := JArr([Str("param1")])])
  }

  /** The one parameter of the client example: a described string. */
  function ExampleParameter(): Json
  {
    JObj(["type", "description"], map["type" := Str("string"), "description" := Str("Description of parameter")])
  }

  /** The example shown for an empty knowledge form. */
  function KnowledgeExample(): (j: Json)
    ensures Get(j, "type") == Some(JStr("server")) && Get(j, "subtype") == Some(JStr("knowledge"))
  {
    JObj(["type", "subtype", "name", "description", "documentFolderIds"],
         map["type" := Str("server"), "subtype" := Str("knowledge"), "name" := Str("search_knowledge"),
             "description" := Str("Search the knowledge base when the user asks for information"),
             "documentFolderIds" := JArr([])])
  }

  /** The example shown for an empty webhook form. */
  function WebhookExample(): (j: Json)
    ensures Get(j, "type") == Some(JStr("server")) && Get(j, "subtype") == Some(JStr("webhook"))
  {
    JObj(["type", "subtype", "name", "description", "url", "method", "awaitResponse"],
         map["type" := Str("server"), "subtype" := Str("webhook"), "name" := Str("call_api"),
             "description" := Str("Call an external API when the user requests specific action"),
             "url" := Str("https://api.example.com/endpoint"), "method" := Str("POST"),
             "awaitResponse" := JBool(true)])
  }

  /** `if (s) toolConfig.parameters = JSON.parse(s)`, keeping the raw text when it does not parse. */
  function ParsedOrRaw(c: JsonCodec, s: string): Option<Json>
  {
    if s == "" then None
    else match c.parse(s)
      case Parsed(v) => Some(v)
      case SyntaxError(_) => Some(JStr(s))
  }

  /**
   * The three webhook sub-fields are parsed one after the other inside one
   * `try`: the first that fails to parse leaves out itself and every later one.
   */
  function WebhookJsonFields(c: JsonCodec, o: Json, headers: string, queryParams: string, parameters: string)
    : (r: Json)
    requires o.JObj?
    ensures r.JObj?
    ensures forall k :: k != "headers" && k != "queryParameters" && k != "parameters" ==> Get(r, k) == Get(o, k)
    ensures FailsToParse(c, headers) ==> r == o
    ensures !FailsToParse(c, headers) ==>
      Get(r, "headers") == (if ParsedOpt(c, headers).Some? then ParsedOpt(c, headers) else Get(o, "headers"))
    ensures !FailsToParse(c, headers) && !FailsToParse(c, queryParams) ==>
      Get(r, "queryParameters") ==
        (if ParsedOpt(c, queryParams).Some? then ParsedOpt(c, queryParams) else Get(o, "queryParameters"))
    ensures FailsToParse(c, headers) || FailsToParse(c, queryParams) ==>
      Get(r, "queryParameters") == Get(o, "queryParameters")
    ensures !FailsToParse(c, headers) && !FailsToParse(c, queryParams) && !FailsToParse(c, parameters) ==>
      Get(r, "parameters") == (if ParsedOpt(c, parameters).Some? then ParsedOpt(c, parameters) else Get(o, "parameters"))
    ensures FailsToParse(c, headers) || FailsToParse(c, queryParams) || FailsToParse(c, parameters) ==>
      Get(r, "parameters") == Get(o, "parameters")
  {
    if FailsToParse(c, headers) then o
    else
      var o := PutOpt(o, "headers", ParsedOpt(c, headers));
      if FailsToParse(c, queryParams) then o
      else
        var o := PutOpt(o, "queryParameters", ParsedOpt(c, queryParams));
        if FailsToParse(c, parameters) then o
        else PutOpt(o, "parameters", ParsedOpt(c, parameters))
  }

  /** `!name && !description`. */
  predicate FormIsEmpty(d: Draft)
  {
    d.name == "" && d.description == ""
  }

  /** The object `formToJson` prints: an example for an empty form, otherwise the current fields. */
  function FormDocument(c: JsonCodec, d: Draft): Json
  {
    if d.toolType != SystemKind && FormIsEmpty(d) then ExampleDocument(d.toolType) else FilledDocument(c, d)
  }

  /** The example each kind but the system kind shows for an empty form. */
  function ExampleDocument(k: ToolKind): Json
    requires k != SystemKind
  {
    match k
    case ClientKind => ClientExample()
    case KnowledgeKind => KnowledgeExample()
    case WebhookKind => WebhookExample()
  }

  /** `{ name, description }`, the members every document of a filled-in form starts with. */
  function NamedObject(name: string, description: string): (o: Json)
    ensures o.JObj? && Get(o, "name") == Some(JStr(name)) && Get(o, "description") == Some(JStr(description))
    ensures forall k :: k != "name" && k != "description" ==> Get(o, k).None?
  {
    JObj(["name", "description"], map["name" := JStr(name), "description" := JStr(description)])
  }

  /** The current fields, in the order `formToJson` assigns them. */
  function FilledDocument(c: JsonCodec, d: Draft): Json
  {
    var o := NamedObject(d.name, d.description);
    match d.toolType
    case ClientKind => ClientDocument(c, o, d.clientParameters)
    case KnowledgeKind => KnowledgeDocument(o, d.selectedDocuments)
    case WebhookKind => WebhookDocument(c, o, d)
    case SystemKind => o
  }

  function ClientDocument(c: JsonCodec, o: Json, parameters: string): Json
    requires o.JObj?
  {
    PutOpt(Put(o, "type", JStr("client")), "parameters", ParsedOrRaw(c, parameters))
  }

  function KnowledgeDocument(o: Json, ids: seq<string>): Json
    requires o.JObj?
  {
    Put(Put(Put(o, "type", JStr("server")), "subtype", JStr("knowledge")), "documentFolderIds", StrArray(ids))
  }

  function WebhookDocument(c: JsonCodec, o: Json, d: Draft): Json
    requires o.JObj?
  {
    WebhookJsonFields(c, WebhookFormHead(o, d), d.headers, d.queryParams, d.webhookParameters)
  }

  /** The members a webhook form always writes, after the name and description. */
  function WebhookFormHead(o: Json, d: Draft): (r: Json)
    requires o.JObj?
    ensures r.JObj?
    ensures Get(r, "type") == Some(JStr("server")) && Get(r, "subtype") == Some(JStr("webhook"))
    ensures Get(r, "url") == Some(JStr(d.url)) && Get(r, "method") == Some(JStr(d.httpMethod))
    ensures Get(r, "awaitResponse") == Some(JBool(d.awaitResponse))
    ensures forall k :: k != "type" && k != "subtype" && k != "url" && k != "method" && k != "awaitResponse" ==>
      Get(r, k) == Get(o, k)
  {
    var o := Put(Put(Put(Put(o, "type", JStr("server")), "subtype", JStr("webhook")), "url", JStr(d.url)),
                 "method", JStr(d.httpMethod));
    Put(o, "awaitResponse", JBool(d.awaitResponse))
  }

  /** The text `formToJson` returns. */
  function FormToJson(c: JsonCodec, d: Draft): string
  {
    c.pretty(FormDocument(c, d))
  }

  /**
   * `handleSwitchToJson`: the buffer takes the printed form and the mode
   * becomes JSON; no other field changes.
   */
  function SwitchedToJson(c: JsonCodec, d: Draft): (r: Draft)
    ensures r.editMode == JsonMode && r.rawJson == c.pretty(FormDocument(c, d))
    ensures r.(rawJson := d.rawJson, editMode := d.editMode) == d
  {
    d.(rawJson := FormToJson(c, d), editMode := JsonMode)
  }

  // ---------------------------------------------------------------- jsonToForm

  const MissingTypeMessage := "Missing required field: \"type\""
  const MissingSubtypeMessage := "Server tools must have a \"subtype\" field"

  function InvalidSubtypeMessage(subtype: string): (m: string)
    ensures m != ""
  {
    "Invalid subtype: \"" + subtype + "\". Must be \"knowledge\" or \"webhook\""
  }

  function InvalidTypeMessage(kind: string): (m: string)
    ensures m != ""
  {
    "Invalid type: \"" + kind + "\". Must be \"client\" or \"server\""
  }

  /** The engine's message for reading a property of `null` (its wording is the engine's, not the editor's). */
  function NullReadMessage(key: string): (m: string)
    ensures |key| + 2 <= |m| && m[|m| - |key| - 2..|m| - 2] == key
  {
    "Cannot read properties of null (reading '" + key + "')"
  }

  /** The engine's message for calling `trim` on a value that is not a string. */
  function NotAFunctionMessage(callee: string): (m: string)
    ensures |callee| <= |m| && m[..|callee|] == callee
  {
    callee + " is not a function"
  }

  /** `v ? JSON.stringify(v, null, 2) : ""`. */
  function PrettyOr(c: JsonCodec, v: Option<Json>): string
  {
    if Truthy(v) then c.pretty(v.value) else ""
  }

  /** `v ?? true`, read as a switch position. */
  function AwaitOr(v: Option<Json>): (b: bool)
    ensures Nullish(v) ==> b
    ensures v == Some(JBool(false)) ==> !b
    ensures v == Some(JBool(true)) ==> b
  {
    if Nullish(v) then true else Truthy(v)
  }

  datatype Loaded = Loaded(draft: Draft, ok: bool)

  /** The buffer, the mode and the saving flag: what loading a document never touches. */
  predicate SameFrame(a: Draft, b: Draft)
  {
    a.rawJson == b.rawJson && a.editMode == b.editMode && a.isSaving == b.isSaving
  }

  /**
   * `jsonToForm(text)`. The name and description are written before the type
   * and subtype are examined, so the late failures leave them overwritten.
   */
  function JsonToForm(c: JsonCodec, d: Draft, text: string): (r: Loaded)
    ensures r.ok ==> c.parse(text).Parsed? && r.draft.jsonError == ""
    ensures SameFrame(r.draft, d)
  {
    match c.parse(text)
    case SyntaxError(m) => Loaded(d.(jsonError := m), false)
    case Parsed(p) => LoadDocument(c, d, p)
  }

  /** The part of `jsonToForm` after `JSON.parse` succeeded. */
  function LoadDocument(c: JsonCodec, d: Draft, p: Json): (r: Loaded)
    ensures r.ok <==> r.draft.jsonError == ""
    ensures SameFrame(r.draft, d)
    ensures !p.JNull? && Truthy(Get(p, "type")) ==>
      r.draft.name == TextOr(c, Get(p, "name"), "") && r.draft.description == TextOr(c, Get(p, "description"), "")
  {
    if p.JNull? then Loaded(d.(jsonError := NullReadMessage("type")), false)
    else
      var kind := Get(p, "type");
      if !Truthy(kind) then Loaded(d.(jsonError := MissingTypeMessage), false)
      else
        var d := d.(name := TextOr(c, Get(p, "name"), ""), description := TextOr(c, Get(p, "description"), ""));
        if kind.value == JStr("client") then
          Loaded(d.(toolType := ClientKind, clientParameters := PrettyOr(c, Get(p, "parameters")), jsonError := ""), true)
        else if kind.value == JStr("server") then LoadServer(c, d, p)
        else Loaded(d.(jsonError := InvalidTypeMessage(c.text(kind.value))), false)
  }

  /** A server document: the subtype decides which fields are read. */
  function LoadServer(c: JsonCodec, d: Draft, p: Json): (r: Loaded)
    ensures r.ok <==> r.draft.jsonError == ""
    ensures SameFrame(r.draft, d) && r.draft.name == d.name && r.draft.description == d.description
  {
    var subtype := Get(p, "subtype");
    if !Truthy(subtype) then Loaded(d.(jsonError := MissingSubtypeMessage), false)
    else if subtype.value == JStr("knowledge") then
      Loaded(d.(toolType := KnowledgeKind, selectedDocuments := TextListOr(c, Get(p, "documentFolderIds")),
                jsonError := ""), true)
    else if subtype.value == JStr("webhook") then Loaded(LoadWebhook(c, d, p), true)
    else Loaded(d.(jsonError := InvalidSubtypeMessage(c.text(subtype.value))), false)
  }

  /** The webhook fields of a document, with the form's defaults for missing ones. */
  function LoadWebhook(c: JsonCodec, d: Draft, p: Json): (r: Draft)
    ensures r.jsonError == "" && SameFrame(r, d)
  {
    d.(toolType := WebhookKind,
       url := TextOr(c, Get(p, "url"), ""),
       httpMethod := TextOr(c, Get(p, "method"), "POST"),
       awaitResponse := AwaitOr(Get(p, "awaitResponse")),
       headers := PrettyOr(c, Get(p, "headers")),
       queryParams := PrettyOr(c, Get(p, "queryParameters")),
       webhookParameters := PrettyOr(c, Get(p, "parameters")),
       jsonError := "")
  }

  // ---------------------------------------------------------------- handleSwitchToForm

  const InvalidFolderIds := "Invalid folder IDs"

  /** `folderValidation.error || "Invalid folder IDs"`. */
  function OwnershipMessage(o: Ownership): (m: string)
    ensures m != ""
  {
    if o.error.Some? && o.error.value != "" then o.error.value else InvalidFolderIds
  }

  /** `parsed.type === "server" && parsed.subtype === "knowledge"`. */
  predicate IsKnowledgeDocument(p: Json)
  {
    Get(p, "type") == Some(JStr("server")) && Get(p, "subtype") == Some(JStr("knowledge"))
  }

  /**
   * `handleSwitchToForm`: a blank buffer switches at once; otherwise the
   * document must load, and a knowledge document naming folders must also
   * pass the ownership check. Only then does the mode become the form.
   */
  function SwitchedToForm(c: JsonCodec, service: OwnershipService, d: Draft): (r: Draft)
    ensures r.rawJson == d.rawJson && r.isSaving == d.isSaving
    ensures r.editMode == FormMode || r.editMode == d.editMode
  {
    if IsBlank(d.rawJson) then d.(editMode := FormMode)
    else
      var loaded := JsonToForm(c, d, d.rawJson);
      if !loaded.ok then loaded.draft
      else
        var p := c.parse(d.rawJson).value;
        var ids := TextListOr(c, Get(p, "documentFolderIds"));
        if IsKnowledgeDocument(p) && |ids| > 0 && !ValidateFolderOwnership(service, ids).valid then
          loaded.draft.(jsonError := OwnershipMessage(ValidateFolderOwnership(service, ids)))
        else loaded.draft.(editMode := FormMode)
  }

  // ---------------------------------------------------------------- handleSave

  const JsonEmpty := "JSON cannot be empty"
  const MissingName := "Tool must have a \"name\" field"
  const MissingDescription := "Tool must have a \"description\" field"
  const ValidationFailed := "Validation failed"
  const UnknownSubtypeOnSave := "Invalid tool subtype. Must be \"knowledge\" or \"webhook\""
  const UnknownTypeOnSave := "Invalid tool type. Must be \"client\" or \"server\""

  /** What the synchronous part of a JSON-mode save decides. */
  datatype JsonPlan =
    | Refuse(message: string)
    | VerifyFolders(folderIds: seq<string>, tool: Json)
    | Submit(tool: Json)

  /** `v ? JSON.stringify(v) : ""`. */
  function CompactOr(c: JsonCodec, v: Option<Json>): string
  {
    if Truthy(v) then c.stringify(v.value) else ""
  }

  /** The kind validator's first message, as `errorMsg || "Validation failed"`. */
  function FirstMessage(v: ValidationResult): (m: string)
    ensures m != ""
    ensures m == ValidationFailed || FirstError(v.errors) == Some(m)
    ensures FirstError(v.errors).Some? && FirstError(v.errors).value != "" ==> m == FirstError(v.errors).value
  {
    var m := FirstError(v.errors);
    if m.Some? && m.value != "" then m.value else ValidationFailed
  }

  /**
   * The JSON-mode checks, in order: empty buffer, syntax, missing name,
   * missing description, name format, type and subtype with the kind
   * validator, and last (outside this function) the folder ownership.
   */
  function JsonSavePlan(c: JsonCodec, urls: UrlParser, raw: string): (r: JsonPlan)
    ensures r.Submit? || r.VerifyFolders? ==> c.parse(raw).Parsed? && r.tool == c.parse(raw).value
  {
    if IsBlank(raw) then Refuse(JsonEmpty)
    else match c.parse(raw)
      case SyntaxError(m) => Refuse(m)
      case Parsed(p) => DocumentPlan(c, urls, p)
  }

  /** The checks on a parsed document up to and including the name format. */
  function DocumentPlan(c: JsonCodec, urls: UrlParser, p: Json): (r: JsonPlan)
    ensures r.Submit? || r.VerifyFolders? ==> r.tool == p
  {
    if p.JNull? then Refuse(NullReadMessage("name"))
    else
      var name := Get(p, "name");
      var description := Get(p, "description");
      if !Truthy(name) then Refuse(MissingName)
      else if !Truthy(description) then Refuse(MissingDescription)
      else if !name.value.JStr? then Refuse(NotAFunctionMessage("name.trim"))
      else if ValidateToolName(name.value.s).Fail? then Refuse("Invalid name: " + ValidateToolName(name.value.s).error)
      else KindPlan(c, urls, p, name.value.s, description.value)
  }

  /** The type and subtype decide which validator runs over the document. */
  function KindPlan(c: JsonCodec, urls: UrlParser, p: Json, name: string, description: Json): (r: JsonPlan)
    ensures r.Submit? || r.VerifyFolders? ==> r.tool == p
  {
    var kind := Get(p, "type");
    var subtype := Get(p, "subtype");
    if kind == Some(JStr("client")) then
      if !description.JStr? then Refuse(NotAFunctionMessage("data.description.trim"))
      else
        var v := ValidateClientTool(c, name, description.s, CompactOr(c, Get(p, "parameters")));
        if !v.valid then Refuse(FirstMessage(v)) else Submit(p)
    else if kind == Some(JStr("server")) then
      if subtype == Some(JStr("knowledge")) then
        if !description.JStr? then Refuse(NotAFunctionMessage("data.description.trim"))
        else
          var ids := TextListOr(c, Get(p, "documentFolderIds"));
          var v := ValidateRagTool(name, description.s, ids);
          if !v.valid then Refuse(FirstMessage(v)) else VerifyFolders(ids, p)
      else if subtype == Some(JStr("webhook")) then
        if !description.JStr? then Refuse(NotAFunctionMessage("data.description.trim"))
        else WebhookPlan(c, urls, p, name, description.s)
      else Refuse(UnknownSubtypeOnSave)
    else Refuse(UnknownTypeOnSave)
  }

  /** The webhook validator over a document's fields, each sub-object re-printed compactly. */
  function WebhookPlan(c: JsonCodec, urls: UrlParser, p: Json, name: string, description: string): (r: JsonPlan)
    ensures r.Submit? ==> r.tool == p
    ensures !r.VerifyFolders?
  {
    var url := Get(p, "url");
    if Truthy(url) && !url.value.JStr? then Refuse(NotAFunctionMessage("url.trim"))
    else
      var v := ValidateWebhookTool(c, urls, name, description, TextOr(c, url, ""),
                                   CompactOr(c, Get(p, "headers")), CompactOr(c, Get(p, "queryParameters")),
                                   CompactOr(c, Get(p, "parameters")));
      if !v.valid then Refuse(FirstMessage(v)) else Submit(p)
  }

  /** What the synchronous part of a form-mode save decides. */
  datatype FormPlan =
    | FieldErrors(errors: Errors)
    | BadName(message: string)
    | BadClientParameters
    | BadWebhookJson
    | Unsupported
    | SubmitTool(tool: Tool)

  /** `s ? JSON.parse(s) : undefined` once the text is known to parse. */
  function ParsedOpt(c: JsonCodec, s: string): Option<Json>
  {
    if s != "" && c.parse(s).Parsed? then Some(c.parse(s).value) else None
  }

  /** A non-empty sub-field that `JSON.parse` rejects. */
  predicate FailsToParse(c: JsonCodec, s: string)
  {
    s != "" && c.parse(s).SyntaxError?
  }

  /**
   * The form-mode checks: the kind validator (all fields at once), the name
   * format again, then `JSON.parse` of each JSON sub-field.
   */
  function FormSavePlan(c: JsonCodec, urls: UrlParser, d: Draft): (r: FormPlan)
    ensures r.Unsupported? <==> d.toolType == SystemKind
    ensures r.SubmitTool? ==>
      && r.tool.name == d.name && r.tool.description == d.description && ValidateToolName(d.name).Pass?
      && (r.tool.ClientTool? <==> d.toolType == ClientKind) && (r.tool.KnowledgeTool? <==> d.toolType == KnowledgeKind)
    ensures r.SubmitTool? && r.tool.KnowledgeTool? ==>
      r.tool.documentFolderIds == d.selectedDocuments && d.selectedDocuments != []
  {
    match d.toolType
    case ClientKind => ClientFormPlan(c, d)
    case KnowledgeKind => KnowledgeFormPlan(d)
    case WebhookKind => WebhookFormPlan(c, urls, d)
    case SystemKind => Unsupported
  }

  function ClientFormPlan(c: JsonCodec, d: Draft): FormPlan
  {
    var v := ValidateClientTool(c, d.name, d.description, d.clientParameters);
    if !v.valid then FieldErrors(v.errors)
    else if ValidateToolName(d.name).Fail? then BadName(ValidateToolName(d.name).error)
    else if FailsToParse(c, d.clientParameters) then BadClientParameters
    else SubmitTool(ClientTool(d.name, d.description, ParsedOpt(c, d.clientParameters)))
  }

  function KnowledgeFormPlan(d: Draft): FormPlan
  {
    var v := ValidateRagTool(d.name, d.description, d.selectedDocuments);
    if !v.valid then FieldErrors(v.errors)
    else if ValidateToolName(d.name).Fail? then BadName(ValidateToolName(d.name).error)
    else SubmitTool(KnowledgeTool(d.name, d.description, d.selectedDocuments))
  }

  function WebhookFormPlan(c: JsonCodec, urls: UrlParser, d: Draft): FormPlan
  {
    var v := ValidateWebhookTool(c, urls, d.name, d.description, d.url, d.headers, d.queryParams, d.webhookParameters);
    if !v.valid then FieldErrors(v.errors)
    else if ValidateToolName(d.name).Fail? then BadName(ValidateToolName(d.name).error)
    else if FailsToParse(c, d.headers) || FailsToParse(c, d.queryParams) || FailsToParse(c, d.webhookParameters) then
      BadWebhookJson
    else SubmitTool(WebhookTool(d.name, d.description, d.url, d.httpMethod, ParsedOpt(c, d.headers),
                                ParsedOpt(c, d.queryParams), ParsedOpt(c, d.webhookParameters), Some(d.awaitResponse)))
  }

  /** The eight inline error fields a form-mode save clears first. */
  function ClearedErrors(d: Draft): (r: Draft)
    ensures SameInputs(r, d) && r.isSaving == d.isSaving && r.jsonError == d.jsonError
    ensures r.nameError == "" && r.descriptionError == "" && r.urlError == "" && r.headersError == ""
    ensures r.queryParamsError == "" && r.webhookParametersError == "" && r.clientParametersError == ""
    ensures r.foldersError == ""
  {
    d.(nameError := "", descriptionError := "", urlError := "", headersError := "", queryParamsError := "",
       webhookParametersError := "", clientParametersError := "", foldersError := "")
  }

  /** `if (errors.f) setFError(errors.f)`. */
  function Shown(e: Option<string>, current: string): string
  {
    if e.Some? && e.value != "" then e.value else current
  }

  /** The reported errors on the fields of the current kind; `parameters` goes to that kind's field. */
  function ShowErrors(d: Draft, e: Errors): (r: Draft)
    ensures SameInputs(r, d) && r.isSaving == d.isSaving && r.jsonError == d.jsonError
    ensures r.nameError == Shown(e.name, d.nameError) && r.descriptionError == Shown(e.description, d.descriptionError)
    ensures r.clientParametersError ==
      if d.toolType == ClientKind then Shown(e.parameters, d.clientParametersError) else d.clientParametersError
    ensures r.foldersError == if d.toolType == KnowledgeKind then Shown(e.folders, d.foldersError) else d.foldersError
    ensures var webhook := d.toolType == WebhookKind;
      && r.urlError == (if webhook then Shown(e.url, d.urlError) else d.urlError)
      && r.headersError == (if webhook then Shown(e.headers, d.headersError) else d.headersError)
      && r.queryParamsError == (if webhook then Shown(e.queryParameters, d.queryParamsError) else d.queryParamsError)
      && r.webhookParametersError ==
           (if webhook then Shown(e.parameters, d.webhookParametersError) else d.webhookParametersError)
  {
    var d := d.(nameError := Shown(e.name, d.nameError), descriptionError := Shown(e.description, d.descriptionError));
    match d.toolType
    case ClientKind => d.(clientParametersError := Shown(e.parameters, d.clientParametersError))
    case KnowledgeKind => d.(foldersError := Shown(e.folders, d.foldersError))
    case WebhookKind =>
      d.(urlError := Shown(e.url, d.urlError), headersError := Shown(e.headers, d.headersError),
         queryParamsError := Shown(e.queryParameters, d.queryParamsError),
         webhookParametersError := Shown(e.parameters, d.webhookParametersError))
    case SystemKind => d
  }

  /** How the `onSave` promise settles. */
  datatype Settled = Resolved | Rejected(message: string)

  /** The `onSave` collaborator. */
  type Persistence = Json -> Settled

  /** The new draft, the tools handed to `onSave` (in call order), and whether the dialog asked to close. */
  datatype SaveOutcome = SaveOutcome(draft: Draft, sent: seq<Json>, closed: bool)

  /**
   * `await onSave(tool)` between `setIsSaving(true)` and the `finally` that
   * clears it; the dialog closes on success. A JSON-mode failure is shown in
   * `jsonError`; a form-mode failure only as a notification.
   */
  function Submitted(d: Draft, tool: Json, persist: Persistence, jsonMode: bool): (r: SaveOutcome)
    ensures r.sent == [tool] && !r.draft.isSaving
    ensures r.closed <==> persist(tool).Resolved?
    ensures SameInputs(r.draft, d)
  {
    match persist(tool)
    case Resolved => SaveOutcome(d.(isSaving := false), [tool], true)
    case Rejected(m) => SaveOutcome(if jsonMode then d.(jsonError := m, isSaving := false) else d.(isSaving := false),
                                    [tool], false)
  }

  /** What a user typed or chose: everything but the error messages and the saving flag. */
  predicate SameInputs(a: Draft, b: Draft)
  {
    && a.toolType == b.toolType && a.name == b.name && a.description == b.description
    && a.url == b.url && a.httpMethod == b.httpMethod && a.headers == b.headers && a.queryParams == b.queryParams
    && a.webhookParameters == b.webhookParameters && a.awaitResponse == b.awaitResponse
    && a.clientParameters == b.clientParameters && a.selectedDocuments == b.selectedDocuments
    && a.searchQuery == b.searchQuery && a.expandedFolders == b.expandedFolders
    && a.isAdvancedExpanded == b.isAdvancedExpanded && a.editMode == b.editMode && a.rawJson == b.rawJson
  }

  /** A save that stops before `onSave`. */
  function Refused(d: Draft): (r: SaveOutcome)
    ensures r.sent == [] && !r.closed && r.draft == d
  {
    SaveOutcome(d, [], false)
  }

  /** `handleSave` in either mode, run to completion with the collaborators' answers. */
  function Save(c: JsonCodec, urls: UrlParser, service: OwnershipService, persist: Persistence, d: Draft): (r: SaveOutcome)
    ensures !d.isSaving ==> !r.draft.isSaving
    ensures r.sent == [] || (|r.sent| == 1 && (r.closed <==> persist(r.sent[0]).Resolved?))
    ensures r.closed ==> r.sent != []
    ensures SameInputs(r.draft, d)
  {
    if d.editMode == JsonMode then JsonModeSave(c, urls, service, persist, d)
    else FormModeSave(c, urls, persist, d)
  }

  /** The JSON-mode save: the first failing check is shown in `jsonError`. */
  function JsonModeSave(c: JsonCodec, urls: UrlParser, service: OwnershipService, persist: Persistence, d: Draft)
    : (r: SaveOutcome)
    ensures !d.isSaving ==> !r.draft.isSaving
    ensures r.sent == [] || (|r.sent| == 1 && (r.closed <==> persist(r.sent[0]).Resolved?))
    ensures r.closed ==> r.sent != []
    ensures SameInputs(r.draft, d)
  {
    JsonOutcome(d, JsonSavePlan(c, urls, d.rawJson), service, persist)
  }

  /** What a JSON-mode plan does: show the refusal, or check the folders, then submit. */
  function JsonOutcome(d: Draft, plan: JsonPlan, service: OwnershipService, persist: Persistence): (r: SaveOutcome)
    ensures !d.isSaving ==> !r.draft.isSaving
    ensures r.sent == [] || (|r.sent| == 1 && (r.closed <==> persist(r.sent[0]).Resolved?))
    ensures r.closed ==> r.sent != []
    ensures SameInputs(r.draft, d)
  {
    match plan
    case Refuse(m) => Refused(d.(jsonError := m))
    case VerifyFolders(ids, tool) =>
      var o := ValidateFolderOwnership(service, ids);
      if !o.valid then Refused(d.(jsonError := OwnershipMessage(o), isSaving := false))
      else Submitted(d, tool, persist, true)
    case Submit(tool) => Submitted(d, tool, persist, true)
  }

  /** The form-mode save: errors go to the fields' own messages. */
  function FormModeSave(c: JsonCodec, urls: UrlParser, persist: Persistence, d: Draft): (r: SaveOutcome)
    ensures !d.isSaving ==> !r.draft.isSaving
    ensures r.sent == [] || (|r.sent| == 1 && (r.closed <==> persist(r.sent[0]).Resolved?))
    ensures r.closed ==> r.sent != []
    ensures SameInputs(r.draft, d)
  {
    FormOutcome(ClearedErrors(d), FormSavePlan(c, urls, d), persist)
  }

  /** What a form-mode plan does to the draft whose errors were just cleared. */
  function FormOutcome(cleared: Draft, plan: FormPlan, persist: Persistence): (r: SaveOutcome)
    ensures !cleared.isSaving ==> !r.draft.isSaving
    ensures r.sent == [] || (|r.sent| == 1 && (r.closed <==> persist(r.sent[0]).Resolved?))
    ensures r.closed ==> r.sent != []
    ensures SameInputs(r.draft, cleared)
  {
    match plan
    case FieldErrors(e) => Refused(ShowErrors(cleared, e))
    case BadName(m) => Refused(cleared.(nameError := m))
    case BadClientParameters => Refused(cleared.(clientParametersError := JsonBadSyntax))
    case BadWebhookJson => Refused(cleared)
    case Unsupported => Refused(cleared)
    case SubmitTool(t) => Submitted(cleared, ToolJson(t), persist, false)
  }

  /** A planned tool is handed to `onSave` as its JSON object, and the form is not reloaded. */
  lemma SubmitToolOutcome(cleared: Draft, t: Tool, persist: Persistence)
    ensures FormOutcome(cleared, SubmitTool(t), persist) == Submitted(cleared, ToolJson(t), persist, false)
  {
    var plan := SubmitTool(t);
    assert plan.SubmitTool? && plan.tool == t;
  }

  // ---------------------------------------------------------------- folders

  /** `xs.filter((id) => id !== x)`. */
  function Without(xs: seq<string>, x: string): (r: seq<string>)
    ensures forall y :: y in r <==> y in xs && y != x
    ensures |r| <= |xs|
  {
    if xs == [] then [] else (if xs[0] == x then [] else [xs[0]]) + Without(xs[1..], x)
  }

  /** `[...new Set(xs)]`: the first occurrence of each value, in order. */
  function Dedup(xs: seq<string>): (r: seq<string>)
    ensures forall y :: y in r <==> y in xs
    ensures NoDuplicates(r)
  {
    DedupAfter([], xs)
  }

  function DedupAfter(seen: seq<string>, xs: seq<string>): (r: seq<string>)
    decreases |xs|
    requires NoDuplicates(seen)
    ensures forall y :: y in r <==> y in seen || y in xs
    ensures NoDuplicates(r)
    ensures |seen| <= |r| && r[..|seen|] == seen
  {
    if xs == [] then seen
    else if xs[0] in seen then DedupAfter(seen, xs[1..])
    else DedupAfter(seen + [xs[0]], xs[1..])
  }

  predicate NoDuplicates(xs: seq<string>)
  {
    forall i, k :: 0 <= i < k < |xs| ==> xs[i] != xs[k]
  }

  /** `toggleFolder`: collapse an expanded folder, expand a collapsed one. */
  function ToggleExpanded(xs: seq<string>, id: string): (r: seq<string>)
    ensures id in r <==> id !in xs
    ensures forall y :: y != id ==> (y in r <==> y in xs)
  {
    if id in xs then Without(xs, id) else xs + [id]
  }

  /** `toggleFolderSelection`: deselect a selected folder, or select one (dropping repeats while at it). */
  function ToggleSelected(xs: seq<string>, id: string): (r: seq<string>)
    ensures id in r <==> id !in xs
    ensures forall y :: y != id ==> (y in r <==> y in xs)
    ensures id !in xs ==> NoDuplicates(r)
  {
    if id in xs then Without(xs, id) else Dedup(xs + [id])
  }

  datatype KnowledgeGroup = KnowledgeGroup(id: string, name: string, documentCount: nat)

  /** `availableRagGroups.reduce((sum, f) => sum + f.documentCount, 0)`. */
  function TotalFiles(groups: seq<KnowledgeGroup>): nat
  {
    if groups == [] then 0 else TotalFiles(groups[..|groups| - 1]) + groups[|groups| - 1].documentCount
  }

  /** The search box appears for more than five folders holding more than ten documents. */
  predicate ShouldShowSearch(groups: seq<KnowledgeGroup>)
  {
    |groups| > 5 && TotalFiles(groups) > 10
  }
}
