/**
 * What the editor dialog's handlers promise when taken together: opening a
 * tool and switching to the form reloads what opening set, the form survives
 * a trip through the JSON editor, loading stops at the first bad field, and a
 * save hands a tool to the persistence collaborator only after every check.
 */
module EditorProperties {
  import opened Wrappers
  import opened JsText
  import opened Json
  import opened ToolName
  import opened ToolFields
  import opened ToolTypes
  import opened ToolActions
  import opened EditorState

  // ---------------------------------------------------------------- well-formed documents

  predicate WellFormedOpt(v: Option<Json>)
  {
    v.Some? ==> WellFormed(v.value)
  }

  /** The values a tool carries are values `JSON.parse` could have produced. */
  predicate WellFormedTool(t: Tool)
  {
    match t
    case ClientTool(_, _, parameters) => WellFormedOpt(parameters)
    case KnowledgeTool(_, _, _) => true
    case WebhookTool(_, _, _, _, headers, queryParameters, parameters, _) =>
      WellFormedOpt(headers) && WellFormedOpt(queryParameters) && WellFormedOpt(parameters)
  }

  lemma PutOptWellFormed(o: Json, key: string, v: Option<Json>)
    requires o.JObj? && WellFormed(o) && WellFormedOpt(v)
    ensures WellFormed(PutOpt(o, key, v))
  {
    if v.Some? {
      PutWellFormed(o, key, v.value);
    }
  }

  /**
   * An object whose members are all strings is well formed once its keys are
   * distinct, listed, and none of them is an array index.
   */
  lemma TextObjectWellFormed(keys: seq<string>, fields: map<string, Json>)
    requires DistinctKeys(keys) && forall key :: key in keys ==> !IsIndexKey(key)
    requires forall key :: key in keys <==> key in fields
    requires forall key :: key in fields ==> fields[key].JStr?
    ensures WellFormed(JObj(keys, fields))
  {
  }

  lemma ClientHeadWellFormed(name: string, description: string)
    ensures WellFormed(ClientHead(name, description))
  {
    var o := ClientHead(name, description);
    assert forall key :: key in o.keys ==> !IsDigit(key[0]);
    TextObjectWellFormed(o.keys, o.fields);
  }

  lemma KnowledgeHeadWellFormed(name: string, description: string)
    ensures WellFormed(KnowledgeHead(name, description))
  {
    var o := KnowledgeHead(name, description);
    assert forall key :: key in o.keys ==> !IsDigit(key[0]);
    TextObjectWellFormed(o.keys, o.fields);
  }

  lemma WebhookHeadKeysDistinct(o: Json)
    requires o.JObj? && o.keys == ["type", "subtype", "name", "description", "url", "method"]
    ensures DistinctKeys(o.keys)
  {
  }

  lemma WebhookHeadWellFormed(name: string, description: string, url: string, httpMethod: string)
    ensures WellFormed(WebhookHead(name, description, url, httpMethod))
  {
    var o := WebhookHead(name, description, url, httpMethod);
    WebhookHeadKeysDistinct(o);
    assert forall key :: key in o.keys ==> !IsDigit(key[0]);
    assert forall key :: key in o.fields ==> o.fields[key].JStr?;
    TextObjectWellFormed(o.keys, o.fields);
  }

  lemma WebhookOptionsWellFormed(o: Json, headers: Option<Json>, queryParameters: Option<Json>,
                                 parameters: Option<Json>, awaitResponse: Option<Json>)
    requires o.JObj? && WellFormed(o)
    requires WellFormedOpt(headers) && WellFormedOpt(queryParameters) && WellFormedOpt(parameters)
    requires WellFormedOpt(awaitResponse)
    ensures WellFormed(WebhookOptions(o, headers, queryParameters, parameters, awaitResponse))
  {
    PutOptWellFormed(o, "headers", headers);
    var o1 := PutOpt(o, "headers", headers);
    PutOptWellFormed(o1, "queryParameters", queryParameters);
    var o2 := PutOpt(o1, "queryParameters", queryParameters);
    PutOptWellFormed(o2, "parameters", parameters);
    PutOptWellFormed(PutOpt(o2, "parameters", parameters), "awaitResponse", awaitResponse);
  }

  /** The document the editor builds for a tool is well formed when the values it carries are. */
  lemma ToolJsonWellFormed(t: Tool)
    requires WellFormedTool(t)
    ensures WellFormed(ToolJson(t))
  {
    match t
    case ClientTool(name, description, parameters) =>
      ClientHeadWellFormed(name, description);
      PutOptWellFormed(ClientHead(name, description), "parameters", parameters);
    case KnowledgeTool(name, description, ids) =>
      KnowledgeHeadWellFormed(name, description);
      WellFormedStrArray(ids);
      PutWellFormed(KnowledgeHead(name, description), "documentFolderIds", StrArray(ids));
    case WebhookTool(name, description, url, httpMethod, headers, queryParameters, parameters, awaitResponse) =>
      WebhookHeadWellFormed(name, description, url, httpMethod);
      WebhookOptionsWellFormed(WebhookHead(name, description, url, httpMethod), headers, queryParameters,
                               parameters, OptBool(awaitResponse));
  }

  // ---------------------------------------------------------------- non-finite numbers

  /** A member that is `Infinity` or `-Infinity`: truthy, but printed as `null`. */
  predicate IsInfinity(v: Option<Json>)
  {
    v.Some? && v.value.JNum? && (v.value.n.PosInfinity? || v.value.n.NegInfinity?)
  }

  /**
   * `v ? JSON.stringify(v, null, 2) : ""` gives the same text for the value
   * and for what `JSON.stringify` makes of it, except at a top-level
   * infinity: that prints as `null`, but once read back as `null` it is
   * falsy and gives the empty text.
   */
  lemma PrettyOrNulled(c: JsonCodec, v: Option<Json>)
    requires PrintsNonFiniteAsNull(c)
    ensures !IsInfinity(v) ==> PrettyOr(c, NulledOpt(v)) == PrettyOr(c, v)
    ensures IsInfinity(v) ==> PrettyOr(c, NulledOpt(v)) == "" && PrettyOr(c, v) == c.pretty(JNull)
  {
    if v.Some? {
      assert c.pretty(Nulled(v.value)) == c.pretty(v.value);
    }
  }

  /** The tool as the JSON text of its document describes it: each JSON member passed through `Nulled`. */
  function NulledTool(t: Tool): (r: Tool)
    ensures r.name == t.name && r.description == t.description
  {
    match t
    case ClientTool(name, description, parameters) => ClientTool(name, description, NulledOpt(parameters))
    case KnowledgeTool(_, _, _) => t
    case WebhookTool(name, description, url, httpMethod, headers, queryParameters, parameters, awaitResponse) =>
      WebhookTool(name, description, url, httpMethod, NulledOpt(headers), NulledOpt(queryParameters),
                  NulledOpt(parameters), awaitResponse)
  }

  /** No JSON member of the tool is an infinity at its top level. */
  predicate NoInfinity(t: Tool)
  {
    match t
    case ClientTool(_, _, parameters) => !IsInfinity(parameters)
    case KnowledgeTool(_, _, _) => true
    case WebhookTool(_, _, _, _, headers, queryParameters, parameters, _) =>
      !IsInfinity(headers) && !IsInfinity(queryParameters) && !IsInfinity(parameters)
  }

  /** Without a top-level infinity, the nulled tool seeds the same fields as the tool. */
  lemma NulledToolSeedsSame(c: JsonCodec, d: Draft, t: Tool)
    requires PrintsNonFiniteAsNull(c) && NoInfinity(t)
    ensures Seeded(c, d, NulledTool(t)).(rawJson := Seeded(c, d, t).rawJson) == Seeded(c, d, t)
  {
    match t
    case ClientTool(_, _, parameters) =>
      PrettyOrNulled(c, parameters);
    case KnowledgeTool(_, _, _) =>
    case WebhookTool(_, _, _, _, headers, queryParameters, parameters, _) =>
      PrettyOrNulled(c, headers);
      PrettyOrNulled(c, queryParameters);
      PrettyOrNulled(c, parameters);
  }

  // ---------------------------------------------------------------- the kind selector

  /**
   * The kind selector's values and the kinds are in one-to-one
   * correspondence: each kind is selected by exactly the value it is shown
   * under.
   */
  lemma KindSelection(value: string, k: ToolKind)
    ensures KindNamed(KindValue(k)) == Some(k)
    ensures KindNamed(value) == Some(k) <==> value == KindValue(k)
  {
  }

  // ---------------------------------------------------------------- opening, then the form

  /**
   * Opening without a tool forgets the previous draft, all but the search
   * text, the advanced-section toggle and the saving flag: the form is empty,
   * of the initial kind, with the POST method and an awaited response.
   */
  lemma ReopenWithoutToolForgets(c: JsonCodec, d1: Draft, d2: Draft, forceRagType: bool,
                                 initialToolType: Option<ToolKind>)
    requires d1.isSaving == d2.isSaving && d1.searchQuery == d2.searchQuery
    requires d1.isAdvancedExpanded == d2.isAdvancedExpanded
    ensures Reopened(c, d1, None, forceRagType, initialToolType) == Reopened(c, d2, None, forceRagType, initialToolType)
    ensures var r := Reopened(c, d1, None, forceRagType, initialToolType);
      && r.toolType == InitialKind(forceRagType, initialToolType) && FormIsEmpty(r)
      && r.rawJson == "" && r.selectedDocuments == [] && r.expandedFolders == []
      && r.httpMethod == "POST" && r.awaitResponse && r.nameError == ""
  {
  }

  /**
   * Opening an existing tool writes only that tool's fields: the previous
   * draft's error messages, expanded folders and the other kinds' fields
   * stay as they were.
   */
  lemma ReopenWithToolKeepsRest(c: JsonCodec, d: Draft, t: Tool, forceRagType: bool, initialToolType: Option<ToolKind>)
    ensures var r := Reopened(c, d, Some(t), forceRagType, initialToolType);
      && r.nameError == d.nameError && r.descriptionError == d.descriptionError && r.urlError == d.urlError
      && r.headersError == d.headersError && r.queryParamsError == d.queryParamsError
      && r.webhookParametersError == d.webhookParametersError && r.clientParametersError == d.clientParametersError
      && r.foldersError == d.foldersError && r.expandedFolders == d.expandedFolders
    ensures var r := Reopened(c, d, Some(t), forceRagType, initialToolType);
      && (!t.KnowledgeTool? ==> r.selectedDocuments == d.selectedDocuments)
      && (!t.ClientTool? ==> r.clientParameters == d.clientParameters)
      && (!t.WebhookTool? ==> r.url == d.url && r.headers == d.headers && r.webhookParameters == d.webhookParameters)
  {
  }

  /**
   * A tool the dialog was opened with, read back from the JSON text the
   * opening stored in the buffer, fills in the fields that opening the tool
   * as its JSON text describes it would fill in. A webhook must name its
   * method, since an empty one reads back as the default POST.
   */
  lemma SeededDocumentLoadsBack(c: JsonCodec, d: Draft, t: Tool)
    requires ReadsBackPretty(c) && StringsAsText(c) && WellFormedTool(t)
    requires t.WebhookTool? ==> t.httpMethod != ""
    ensures var s := Seeded(c, d, t);
      JsonToForm(c, s, s.rawJson) == Loaded(Seeded(c, d, NulledTool(t)).(rawJson := s.rawJson, jsonError := ""), true)
  {
    match t
    case ClientTool(name, description, parameters) =>
      SeededClientLoadsBack(c, d, name, description, parameters);
    case KnowledgeTool(name, description, ids) =>
      SeededKnowledgeLoadsBack(c, d, name, description, ids);
    case WebhookTool(name, description, url, httpMethod, headers, queryParameters, parameters, awaitResponse) =>
      SeededWebhookLoadsBack(c, d, name, description, url, httpMethod, headers, queryParameters, parameters,
                             awaitResponse);
  }

  /**
   * The same with no top-level infinity in the tool: switching to JSON and
   * straight back to the form leaves every field the opening set.
   */
  lemma SeededToolReloadsUnchanged(c: JsonCodec, d: Draft, t: Tool)
    requires ReadsBackPretty(c) && PrintsNonFiniteAsNull(c) && StringsAsText(c)
    requires WellFormedTool(t) && NoInfinity(t)
    requires t.WebhookTool? ==> t.httpMethod != ""
    ensures var s := Seeded(c, d, t); JsonToForm(c, s, s.rawJson) == Loaded(s.(jsonError := ""), true)
  {
    SeededDocumentLoadsBack(c, d, t);
    NulledToolSeedsSame(c, d, t);
  }

  /** Client parameters of `Infinity` show as `null` on opening, and come back from the buffer empty. */
  lemma InfiniteParametersReadBackEmpty(c: JsonCodec, d: Draft, name: string, description: string)
    requires ReadsBackPretty(c) && StringsAsText(c)
    ensures var s := Seeded(c, d, ClientTool(name, description, Some(JNum(PosInfinity))));
      && s.clientParameters == c.pretty(JNum(PosInfinity))
      && JsonToForm(c, s, s.rawJson) == Loaded(s.(clientParameters := "", jsonError := ""), true)
  {
    SeededClientLoadsBack(c, d, name, description, Some(JNum(PosInfinity)));
  }

  lemma SeededClientLoadsBack(c: JsonCodec, d: Draft, name: string, description: string, parameters: Option<Json>)
    requires ReadsBackPretty(c) && StringsAsText(c) && WellFormedOpt(parameters)
    ensures var t := ClientTool(name, description, parameters); var s := Seeded(c, d, t);
      JsonToForm(c, s, s.rawJson) == Loaded(Seeded(c, d, NulledTool(t)).(rawJson := s.rawJson, jsonError := ""), true)
  {
    var t := ClientTool(name, description, parameters);
    var s := Seeded(c, d, t);
    var p := ClientJson(name, description, parameters);
    assert ToolJson(t) == p;
    ToolJsonWellFormed(t);
    ClientNulledTextLoads(c, s, s.rawJson, p);
  }

  lemma SeededKnowledgeLoadsBack(c: JsonCodec, d: Draft, name: string, description: string, ids: seq<string>)
    requires ReadsBackPretty(c) && StringsAsText(c)
    ensures var t := KnowledgeTool(name, description, ids); var s := Seeded(c, d, t);
      JsonToForm(c, s, s.rawJson) == Loaded(Seeded(c, d, NulledTool(t)).(rawJson := s.rawJson, jsonError := ""), true)
  {
    var t := KnowledgeTool(name, description, ids);
    var s := Seeded(c, d, t);
    var p := KnowledgeJson(name, description, ids);
    assert ToolJson(t) == p;
    ToolJsonWellFormed(t);
    KnowledgeNulledTextLoads(c, s, s.rawJson, p);
  }

  lemma SeededWebhookLoadsBack(c: JsonCodec, d: Draft, name: string, description: string, url: string,
                               httpMethod: string, headers: Option<Json>, queryParameters: Option<Json>,
                               parameters: Option<Json>, awaitResponse: Option<bool>)
    requires ReadsBackPretty(c) && StringsAsText(c) && httpMethod != ""
    requires WellFormedOpt(headers) && WellFormedOpt(queryParameters) && WellFormedOpt(parameters)
    ensures var t := WebhookTool(name, description, url, httpMethod, headers, queryParameters, parameters,
                                 awaitResponse);
      var s := Seeded(c, d, t);
      JsonToForm(c, s, s.rawJson) == Loaded(Seeded(c, d, NulledTool(t)).(rawJson := s.rawJson, jsonError := ""), true)
  {
    var t := WebhookTool(name, description, url, httpMethod, headers, queryParameters, parameters, awaitResponse);
    var s := Seeded(c, d, t);
    var p := WebhookJson(name, description, url, httpMethod, headers, queryParameters, parameters, awaitResponse);
    assert ToolJson(t) == p;
    ToolJsonWellFormed(t);
    WebhookNulledTextLoads(c, s, s.rawJson, p);
    SeededNulledWebhook(c, d, t);
  }

  /**
   * The pretty print of a well-formed client document naming the form's name
   * and description loads into a client form whose parameters are the pretty
   * print of the nulled parameters.
   */
  lemma ClientNulledTextLoads(c: JsonCodec, d: Draft, text: string, p: Json)
    requires ReadsBackPretty(c) && StringsAsText(c) && d.toolType == ClientKind
    requires text == c.pretty(p) && WellFormed(p)
    requires Get(p, "type") == Some(JStr("client"))
    requires Get(p, "name") == Some(JStr(d.name)) && Get(p, "description") == Some(JStr(d.description))
    ensures JsonToForm(c, d, text) ==
            Loaded(d.(clientParameters := PrettyOr(c, NulledOpt(Get(p, "parameters"))), jsonError := ""), true)
  {
    assert c.parse(text) == Parsed(Nulled(p));
    NulledGet(p, "type");
    NulledGet(p, "name");
    NulledGet(p, "description");
    NulledGet(p, "parameters");
    ClientTextLoads(c, d, text, Nulled(p));
  }

  /** The pretty print of a well-formed knowledge document carrying the form's fields loads without changing them. */
  lemma KnowledgeNulledTextLoads(c: JsonCodec, d: Draft, text: string, p: Json)
    requires ReadsBackPretty(c) && StringsAsText(c) && d.toolType == KnowledgeKind
    requires text == c.pretty(p) && WellFormed(p) && IsKnowledgeDocument(p)
    requires Get(p, "name") == Some(JStr(d.name)) && Get(p, "description") == Some(JStr(d.description))
    requires Get(p, "documentFolderIds") == Some(StrArray(d.selectedDocuments))
    ensures JsonToForm(c, d, text) == Loaded(d.(jsonError := ""), true)
  {
    assert c.parse(text) == Parsed(Nulled(p));
    NulledGet(p, "type");
    NulledGet(p, "subtype");
    NulledGet(p, "name");
    NulledGet(p, "description");
    NulledGet(p, "documentFolderIds");
    NulledStrArray(d.selectedDocuments);
    KnowledgeTextLoads(c, d, text, Nulled(p));
  }

  /** The nulled webhook seeds the sub-fields' texts of the nulled values and nothing else differently. */
  lemma SeededNulledWebhook(c: JsonCodec, d: Draft, t: Tool)
    requires t.WebhookTool?
    ensures var s := Seeded(c, d, t);
      Seeded(c, d, NulledTool(t)).(rawJson := s.rawJson) ==
      s.(headers := PrettyOr(c, NulledOpt(t.headers)), queryParams := PrettyOr(c, NulledOpt(t.queryParameters)),
         webhookParameters := PrettyOr(c, NulledOpt(t.parameters)))
  {
  }

  /**
   * The pretty print of a well-formed webhook document carrying the form's
   * name, description, URL, non-empty method and response switch loads into
   * a webhook form whose sub-fields are the pretty prints of the nulled
   * members.
   */
  lemma WebhookNulledTextLoads(c: JsonCodec, d: Draft, text: string, p: Json)
    requires ReadsBackPretty(c) && StringsAsText(c) && d.toolType == WebhookKind && d.httpMethod != ""
    requires text == c.pretty(p) && WellFormed(p)
    requires Get(p, "type") == Some(JStr("server")) && Get(p, "subtype") == Some(JStr("webhook"))
    requires Get(p, "name") == Some(JStr(d.name)) && Get(p, "description") == Some(JStr(d.description))
    requires Get(p, "url") == Some(JStr(d.url)) && Get(p, "method") == Some(JStr(d.httpMethod))
    requires Get(p, "awaitResponse") == Some(JBool(d.awaitResponse)) || (Get(p, "awaitResponse").None? && d.awaitResponse)
    ensures JsonToForm(c, d, text) ==
            Loaded(d.(headers := PrettyOr(c, NulledOpt(Get(p, "headers"))),
                      queryParams := PrettyOr(c, NulledOpt(Get(p, "queryParameters"))),
                      webhookParameters := PrettyOr(c, NulledOpt(Get(p, "parameters"))), jsonError := ""), true)
  {
    var q := Nulled(p);
    assert c.parse(text) == Parsed(q);
    WebhookMembersNulled(p);
    AwaitOfNulled(Get(p, "awaitResponse"), d.awaitResponse);
    WebhookTextLoads(c, d, text, q);
  }

  /** The response switch reads the same from a boolean, or from nothing, before and after nulling. */
  lemma AwaitOfNulled(v: Option<Json>, b: bool)
    requires v == Some(JBool(b)) || (v.None? && b)
    ensures AwaitOr(NulledOpt(v)) == b
  {
  }

  /** Reading the members of a nulled webhook document is nulling each of them. */
  lemma WebhookMembersNulled(p: Json)
    ensures Get(Nulled(p), "type") == NulledOpt(Get(p, "type"))
    ensures Get(Nulled(p), "subtype") == NulledOpt(Get(p, "subtype"))
    ensures Get(Nulled(p), "name") == NulledOpt(Get(p, "name"))
    ensures Get(Nulled(p), "description") == NulledOpt(Get(p, "description"))
    ensures Get(Nulled(p), "url") == NulledOpt(Get(p, "url"))
    ensures Get(Nulled(p), "method") == NulledOpt(Get(p, "method"))
    ensures Get(Nulled(p), "awaitResponse") == NulledOpt(Get(p, "awaitResponse"))
    ensures Get(Nulled(p), "headers") == NulledOpt(Get(p, "headers"))
    ensures Get(Nulled(p), "queryParameters") == NulledOpt(Get(p, "queryParameters"))
    ensures Get(Nulled(p), "parameters") == NulledOpt(Get(p, "parameters"))
  {
    NulledGet(p, "type");
    NulledGet(p, "subtype");
    NulledGet(p, "name");
    NulledGet(p, "description");
    NulledGet(p, "url");
    NulledGet(p, "method");
    NulledGet(p, "awaitResponse");
    NulledGet(p, "headers");
    NulledGet(p, "queryParameters");
    NulledGet(p, "parameters");
  }

  /** A string member reads back as itself, and a non-empty one also where a default applies. */
  lemma TextRead(c: JsonCodec, text: string)
    requires StringsAsText(c)
    ensures TextOr(c, Some(JStr(text)), "") == text
    ensures text != "" ==> TextOr(c, Some(JStr(text)), "POST") == text
  {
    assert c.text(JStr(text)) == text;
  }

  /**
   * Text that parses to a client document naming the form's name and
   * description loads into a client form whose parameters are the pretty
   * print of the document's parameters.
   */
  lemma ClientTextLoads(c: JsonCodec, d: Draft, text: string, p: Json)
    requires StringsAsText(c) && d.toolType == ClientKind
    requires c.parse(text) == Parsed(p)
    requires Get(p, "type") == Some(JStr("client"))
    requires Get(p, "name") == Some(JStr(d.name)) && Get(p, "description") == Some(JStr(d.description))
    ensures JsonToForm(c, d, text) ==
            Loaded(d.(clientParameters := PrettyOr(c, Get(p, "parameters")), jsonError := ""), true)
  {
    TextRead(c, d.name);
    TextRead(c, d.description);
  }

  /** Text that parses to a knowledge document carrying the form's fields loads without changing the form. */
  lemma KnowledgeTextLoads(c: JsonCodec, d: Draft, text: string, p: Json)
    requires StringsAsText(c) && d.toolType == KnowledgeKind
    requires c.parse(text) == Parsed(p) && IsKnowledgeDocument(p)
    requires Get(p, "name") == Some(JStr(d.name)) && Get(p, "description") == Some(JStr(d.description))
    requires Get(p, "documentFolderIds") == Some(StrArray(d.selectedDocuments))
    ensures JsonToForm(c, d, text) == Loaded(d.(jsonError := ""), true)
  {
    TextRead(c, d.name);
    TextRead(c, d.description);
    TextsOfStrArray(c, d.selectedDocuments);
    assert LoadDocument(c, d, p) == LoadServer(c, d, p);
  }

  /**
   * Text that parses to a webhook document carrying the form's name,
   * description, URL, non-empty method and response switch loads into a
   * webhook form whose three sub-fields are the pretty prints of the
   * document's members.
   */
  lemma WebhookTextLoads(c: JsonCodec, d: Draft, text: string, p: Json)
    requires StringsAsText(c) && d.toolType == WebhookKind && d.httpMethod != ""
    requires c.parse(text) == Parsed(p)
    requires Get(p, "type") == Some(JStr("server")) && Get(p, "subtype") == Some(JStr("webhook"))
    requires Get(p, "name") == Some(JStr(d.name)) && Get(p, "description") == Some(JStr(d.description))
    requires Get(p, "url") == Some(JStr(d.url)) && Get(p, "method") == Some(JStr(d.httpMethod))
    requires AwaitOr(Get(p, "awaitResponse")) == d.awaitResponse
    ensures JsonToForm(c, d, text) ==
            Loaded(d.(headers := PrettyOr(c, Get(p, "headers")), queryParams := PrettyOr(c, Get(p, "queryParameters")),
                      webhookParameters := PrettyOr(c, Get(p, "parameters")), jsonError := ""), true)
  {
    TextRead(c, d.name);
    TextRead(c, d.description);
    TextRead(c, d.url);
    TextRead(c, d.httpMethod);
    WebhookLoadReads(c, d, p);
    assert LoadWebhook(c, d.(name := d.name, description := d.description), p) ==
           d.(headers := PrettyOr(c, Get(p, "headers")), queryParams := PrettyOr(c, Get(p, "queryParameters")),
              webhookParameters := PrettyOr(c, Get(p, "parameters")), jsonError := "");
  }

  /** A webhook document is read by `LoadWebhook` once the name and description are taken. */
  lemma WebhookLoadReads(c: JsonCodec, d: Draft, p: Json)
    requires Get(p, "type") == Some(JStr("server")) && Get(p, "subtype") == Some(JStr("webhook"))
    ensures var named := d.(name := TextOr(c, Get(p, "name"), ""), description := TextOr(c, Get(p, "description"), ""));
      LoadDocument(c, d, p) == Loaded(LoadWebhook(c, named, p), true)
  {
  }

  // ---------------------------------------------------------------- the form, through the JSON editor and back

  /** `{ name, description }`, the start of every filled-in form's document. */
  lemma NamedObjectWellFormed(name: string, description: string)
    ensures WellFormed(NamedObject(name, description))
  {
    var o := NamedObject(name, description);
    assert forall key :: key in o.keys ==> !IsDigit(key[0]);
    TextObjectWellFormed(o.keys, o.fields);
  }

  /** The parameters a client form writes are a parsed value or the raw text, well formed either way. */
  lemma ParsedOrRawWellFormed(c: JsonCodec, text: string)
    requires ParsesWellFormed(c)
    ensures WellFormedOpt(ParsedOrRaw(c, text))
  {
    if text != "" && c.parse(text).Parsed? {
      assert WellFormed(c.parse(text).value);
    }
  }

  lemma ParsedOptWellFormed(c: JsonCodec, text: string)
    requires ParsesWellFormed(c)
    ensures WellFormedOpt(ParsedOpt(c, text))
  {
    if text != "" && c.parse(text).Parsed? {
      assert WellFormed(c.parse(text).value);
    }
  }

  lemma FilledFormDocument(c: JsonCodec, d: Draft)
    requires !FormIsEmpty(d)
    ensures FormDocument(c, d) == FilledDocument(c, d)
    ensures d.toolType == ClientKind ==>
      FormDocument(c, d) == ClientDocument(c, NamedObject(d.name, d.description), d.clientParameters)
    ensures d.toolType == KnowledgeKind ==>
      FormDocument(c, d) == KnowledgeDocument(NamedObject(d.name, d.description), d.selectedDocuments)
    ensures d.toolType == WebhookKind ==>
      FormDocument(c, d) == WebhookDocument(c, NamedObject(d.name, d.description), d)
  {
  }

  /**
   * A filled-in client form, shown in the JSON editor and read back, keeps
   * every field; only the parameter text is normalised, to the pretty print
   * of what `JSON.stringify` makes of the value it parses to (text that does
   * not parse comes back quoted, as a JSON string).
   */
  lemma ClientFormRoundTrip(c: JsonCodec, d: Draft)
    requires ReadsBackPretty(c) && ParsesWellFormed(c) && StringsAsText(c)
    requires d.toolType == ClientKind && !FormIsEmpty(d)
    ensures JsonToForm(c, d, FormToJson(c, d)) ==
            Loaded(d.(clientParameters := PrettyOr(c, NulledOpt(ParsedOrRaw(c, d.clientParameters))), jsonError := ""),
                   true)
  {
    var p := ClientDocument(c, NamedObject(d.name, d.description), d.clientParameters);
    FilledFormDocument(c, d);
    ClientDocumentWellFormed(c, d.name, d.description, d.clientParameters);
    ClientDocumentMembers(c, d.name, d.description, d.clientParameters);
    ClientNulledTextLoads(c, d, FormToJson(c, d), p);
  }

  lemma ClientDocumentMembers(c: JsonCodec, name: string, description: string, parameters: string)
    ensures var p := ClientDocument(c, NamedObject(name, description), parameters);
      && Get(p, "type") == Some(JStr("client"))
      && Get(p, "name") == Some(JStr(name)) && Get(p, "description") == Some(JStr(description))
      && Get(p, "parameters") == ParsedOrRaw(c, parameters)
  {
  }

  lemma ClientDocumentWellFormed(c: JsonCodec, name: string, description: string, parameters: string)
    requires ParsesWellFormed(c)
    ensures WellFormed(ClientDocument(c, NamedObject(name, description), parameters))
  {
    var o := NamedObject(name, description);
    NamedObjectWellFormed(name, description);
    PutWellFormed(o, "type", JStr("client"));
    ParsedOrRawWellFormed(c, parameters);
    PutOptWellFormed(Put(o, "type", JStr("client")), "parameters", ParsedOrRaw(c, parameters));
  }

  /** A filled-in knowledge form survives the JSON editor unchanged, folder selection included. */
  lemma KnowledgeFormRoundTrip(c: JsonCodec, d: Draft)
    requires ReadsBackPretty(c) && StringsAsText(c) && d.toolType == KnowledgeKind && !FormIsEmpty(d)
    ensures JsonToForm(c, d, FormToJson(c, d)) == Loaded(d.(jsonError := ""), true)
  {
    var p := KnowledgeDocument(NamedObject(d.name, d.description), d.selectedDocuments);
    FilledFormDocument(c, d);
    KnowledgeDocumentWellFormed(d.name, d.description, d.selectedDocuments);
    KnowledgeDocumentMembers(d.name, d.description, d.selectedDocuments);
    KnowledgeNulledTextLoads(c, d, FormToJson(c, d), p);
  }

  lemma KnowledgeDocumentWellFormed(name: string, description: string, ids: seq<string>)
    ensures WellFormed(KnowledgeDocument(NamedObject(name, description), ids))
  {
    var o := NamedObject(name, description);
    var o1 := Put(o, "type", JStr("server"));
    var o2 := Put(o1, "subtype", JStr("knowledge"));
    NamedObjectWellFormed(name, description);
    PutWellFormed(o, "type", JStr("server"));
    PutWellFormed(o1, "subtype", JStr("knowledge"));
    WellFormedStrArray(ids);
    PutWellFormed(o2, "documentFolderIds", StrArray(ids));
  }

  lemma KnowledgeDocumentMembers(name: string, description: string, ids: seq<string>)
    ensures var p := KnowledgeDocument(NamedObject(name, description), ids);
      && Get(p, "type") == Some(JStr("server")) && Get(p, "subtype") == Some(JStr("knowledge"))
      && Get(p, "name") == Some(JStr(name)) && Get(p, "description") == Some(JStr(description))
      && Get(p, "documentFolderIds") == Some(StrArray(ids))
  {
    var o := NamedObject(name, description);
    var o1 := Put(o, "type", JStr("server"));
    var o2 := Put(o1, "subtype", JStr("knowledge"));
    assert Get(o2, "name") == Some(JStr(name)) && Get(o2, "description") == Some(JStr(description));
  }

  /**
   * A filled-in webhook form whose JSON sub-fields are empty or parse keeps
   * every field through the JSON editor; each sub-field's text is normalised
   * to the pretty print of what `JSON.stringify` makes of its value. The
   * method must be non-empty, since an empty one reads back as POST.
   */
  lemma WebhookFormRoundTrip(c: JsonCodec, d: Draft)
    requires ReadsBackPretty(c) && ParsesWellFormed(c) && StringsAsText(c)
    requires d.toolType == WebhookKind && !FormIsEmpty(d) && d.httpMethod != ""
    requires !FailsToParse(c, d.headers) && !FailsToParse(c, d.queryParams) && !FailsToParse(c, d.webhookParameters)
    ensures JsonToForm(c, d, FormToJson(c, d)) ==
            Loaded(d.(headers := PrettyOr(c, NulledOpt(ParsedOpt(c, d.headers))),
                      queryParams := PrettyOr(c, NulledOpt(ParsedOpt(c, d.queryParams))),
                      webhookParameters := PrettyOr(c, NulledOpt(ParsedOpt(c, d.webhookParameters))),
                      jsonError := ""), true)
  {
    var p := WebhookDocument(c, NamedObject(d.name, d.description), d);
    FilledFormDocument(c, d);
    WebhookDocumentMembers(c, d);
    WebhookDocumentWellFormed(c, d);
    WebhookNulledTextLoads(c, d, FormToJson(c, d), p);
  }

  /** With every sub-field parsing, the document carries each of them that is non-empty. */
  lemma WebhookDocumentMembers(c: JsonCodec, d: Draft)
    requires !FailsToParse(c, d.headers) && !FailsToParse(c, d.queryParams) && !FailsToParse(c, d.webhookParameters)
    ensures var p := WebhookDocument(c, NamedObject(d.name, d.description), d);
      && Get(p, "type") == Some(JStr("server")) && Get(p, "subtype") == Some(JStr("webhook"))
      && Get(p, "name") == Some(JStr(d.name)) && Get(p, "description") == Some(JStr(d.description))
      && Get(p, "url") == Some(JStr(d.url)) && Get(p, "method") == Some(JStr(d.httpMethod))
      && Get(p, "awaitResponse") == Some(JBool(d.awaitResponse))
      && Get(p, "headers") == ParsedOpt(c, d.headers) && Get(p, "queryParameters") == ParsedOpt(c, d.queryParams)
      && Get(p, "parameters") == ParsedOpt(c, d.webhookParameters)
  {
    var o := WebhookFormHead(NamedObject(d.name, d.description), d);
    FormHeadMembers(d);
    JsonFieldsMembers(c, o, d.headers, d.queryParams, d.webhookParameters);
  }

  lemma FormHeadMembers(d: Draft)
    ensures Get(WebhookFormHead(NamedObject(d.name, d.description), d), "name") == Some(JStr(d.name))
    ensures Get(WebhookFormHead(NamedObject(d.name, d.description), d), "description") == Some(JStr(d.description))
    ensures Get(WebhookFormHead(NamedObject(d.name, d.description), d), "headers").None?
    ensures Get(WebhookFormHead(NamedObject(d.name, d.description), d), "queryParameters").None?
    ensures Get(WebhookFormHead(NamedObject(d.name, d.description), d), "parameters").None?
  {
    FormHeadKeeps(NamedObject(d.name, d.description), d);
  }

  /** The form's head leaves the name, the description and the three sub-fields as they were. */
  lemma FormHeadKeeps(o: Json, d: Draft)
    requires o.JObj?
    ensures Get(WebhookFormHead(o, d), "name") == Get(o, "name")
    ensures Get(WebhookFormHead(o, d), "description") == Get(o, "description")
    ensures Get(WebhookFormHead(o, d), "headers") == Get(o, "headers")
    ensures Get(WebhookFormHead(o, d), "queryParameters") == Get(o, "queryParameters")
    ensures Get(WebhookFormHead(o, d), "parameters") == Get(o, "parameters")
  {
  }

  /** Sub-fields that all parse are written exactly when they are non-empty. */
  lemma JsonFieldsMembers(c: JsonCodec, o: Json, headers: string, queryParams: string, parameters: string)
    requires o.JObj? && Get(o, "headers").None? && Get(o, "queryParameters").None? && Get(o, "parameters").None?
    requires !FailsToParse(c, headers) && !FailsToParse(c, queryParams) && !FailsToParse(c, parameters)
    ensures var r := WebhookJsonFields(c, o, headers, queryParams, parameters);
      && Get(r, "headers") == ParsedOpt(c, headers) && Get(r, "queryParameters") == ParsedOpt(c, queryParams)
      && Get(r, "parameters") == ParsedOpt(c, parameters)
  {
  }

  /** A document whose members are all well formed is well formed. */
  lemma WebhookDocumentWellFormed(c: JsonCodec, d: Draft)
    requires ParsesWellFormed(c)
    ensures WellFormed(WebhookDocument(c, NamedObject(d.name, d.description), d))
  {
    var o := NamedObject(d.name, d.description);
    NamedObjectWellFormed(d.name, d.description);
    FormHeadWellFormed(o, d);
    ParsedOptWellFormed(c, d.headers);
    ParsedOptWellFormed(c, d.queryParams);
    ParsedOptWellFormed(c, d.webhookParameters);
    JsonFieldsWellFormed(c, WebhookFormHead(o, d), d.headers, d.queryParams, d.webhookParameters);
  }

  lemma FormHeadWellFormed(o: Json, d: Draft)
    requires o.JObj? && WellFormed(o)
    ensures WellFormed(WebhookFormHead(o, d))
  {
    var o1 := Put(o, "type", JStr("server"));
    PutWellFormed(o, "type", JStr("server"));
    var o2 := Put(o1, "subtype", JStr("webhook"));
    PutWellFormed(o1, "subtype", JStr("webhook"));
    var o3 := Put(o2, "url", JStr(d.url));
    PutWellFormed(o2, "url", JStr(d.url));
    var o4 := Put(o3, "method", JStr(d.httpMethod));
    PutWellFormed(o3, "method", JStr(d.httpMethod));
    PutWellFormed(o4, "awaitResponse", JBool(d.awaitResponse));
  }

  lemma JsonFieldsWellFormed(c: JsonCodec, o: Json, headers: string, queryParams: string, parameters: string)
    requires o.JObj? && WellFormed(o)
    requires WellFormedOpt(ParsedOpt(c, headers)) && WellFormedOpt(ParsedOpt(c, queryParams))
    requires WellFormedOpt(ParsedOpt(c, parameters))
    ensures WellFormed(WebhookJsonFields(c, o, headers, queryParams, parameters))
  {
    var o1 := PutOpt(o, "headers", ParsedOpt(c, headers));
    PutOptWellFormed(o, "headers", ParsedOpt(c, headers));
    var o2 := PutOpt(o1, "queryParameters", ParsedOpt(c, queryParams));
    PutOptWellFormed(o1, "queryParameters", ParsedOpt(c, queryParams));
    PutOptWellFormed(o2, "parameters", ParsedOpt(c, parameters));
  }

  /** A system form's document has no type, so it never loads back. */
  lemma SystemFormDoesNotLoadBack(c: JsonCodec, d: Draft)
    requires ReadsBackPretty(c) && d.toolType == SystemKind
    ensures JsonToForm(c, d, FormToJson(c, d)) == Loaded(d.(jsonError := MissingTypeMessage), false)
  {
    var o := NamedObject(d.name, d.description);
    NamedObjectWellFormed(d.name, d.description);
    SystemDocumentIsNamedObject(c, d);
    assert c.parse(FormToJson(c, d)) == Parsed(Nulled(o));
    NulledGet(o, "type");
    SystemDocumentLoads(c, d, Nulled(o));
  }

  lemma SystemFilledIsNamedObject(c: JsonCodec, d: Draft)
    requires d.toolType == SystemKind
    ensures FilledDocument(c, d) == NamedObject(d.name, d.description)
  {
  }

  lemma SystemDocumentIsNamedObject(c: JsonCodec, d: Draft)
    requires d.toolType == SystemKind
    ensures FormDocument(c, d) == NamedObject(d.name, d.description)
  {
    SystemFilledIsNamedObject(c, d);
  }

  lemma SystemDocumentLoads(c: JsonCodec, d: Draft, q: Json)
    requires c.parse(FormToJson(c, d)) == Parsed(q) && q.JObj? && Get(q, "type").None?
    ensures JsonToForm(c, d, FormToJson(c, d)) == Loaded(d.(jsonError := MissingTypeMessage), false)
  {
  }

  /** What the editor prints, pretty or compact, reads back as what `JSON.stringify` makes of it. */
  lemma PrintedDocumentParses(c: JsonCodec, j: Json)
    requires ReadsBackCompact(c) && ReadsBackPretty(c) && WellFormed(j)
    ensures c.parse(c.pretty(j)) == Parsed(Nulled(j)) && c.parse(c.stringify(j)) == Parsed(Nulled(j))
  {
  }
}
