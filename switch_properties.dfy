/**
 * What switching between the JSON editor and the form promises: a filled-in
 * form goes to the JSON editor and back unchanged (up to the re-printed JSON
 * sub-fields and, for knowledge tools, the ownership check), a document that
 * cannot be loaded keeps the dialog in JSON mode with a message, and a load
 * that fails after the type was read has already overwritten the name and
 * description.
 */
module SwitchProperties {
  import opened Wrappers
  import opened JsText
  import opened Json
  import opened ToolFields
  import opened ToolActions
  import opened EditorState
  import opened EditorProperties
  import opened ExampleProperties

  // ---------------------------------------------------------------- there and back

  /**
   * A filled-in client form switched to JSON and straight back returns to
   * the form with every field kept; only the parameter text is re-printed,
   * from what `JSON.stringify` made of it.
   */
  lemma ClientSwitchRoundTrip(c: JsonCodec, service: OwnershipService, d: Draft)
    requires ReadsBackPretty(c) && ParsesWellFormed(c) && StringsAsText(c) && RefusesBlank(c)
    requires d.toolType == ClientKind && !FormIsEmpty(d)
    ensures var s := SwitchedToJson(c, d);
      SwitchedToForm(c, service, s) ==
        s.(clientParameters := PrettyOr(c, NulledOpt(ParsedOrRaw(c, d.clientParameters))), jsonError := "",
           editMode := FormMode)
  {
    var s := SwitchedToJson(c, d);
    FilledDocumentIgnoresBuffer(c, d, s.rawJson, JsonMode);
    ClientSwitchBack(c, service, s);
  }

  /** A filled-in client form whose buffer holds its own document switches back with the parameters re-printed. */
  lemma ClientSwitchBack(c: JsonCodec, service: OwnershipService, s: Draft)
    requires ReadsBackPretty(c) && ParsesWellFormed(c) && StringsAsText(c) && RefusesBlank(c)
    requires s.toolType == ClientKind && !FormIsEmpty(s) && s.rawJson == FormToJson(c, s)
    ensures SwitchedToForm(c, service, s) ==
      s.(clientParameters := PrettyOr(c, NulledOpt(ParsedOrRaw(c, s.clientParameters))), jsonError := "",
         editMode := FormMode)
  {
    var doc := ClientDocument(c, NamedObject(s.name, s.description), s.clientParameters);
    ClientTextParses(c, s);
    ParsedTextIsNotBlank(c, s.rawJson);
    ClientFormRoundTrip(c, s);
    ClientDocumentIsClient(c, s.name, s.description, s.clientParameters);
    NulledGet(doc, "type");
    OtherDocumentSwitches(c, service, s, Nulled(doc),
                          s.(clientParameters := PrettyOr(c, NulledOpt(ParsedOrRaw(c, s.clientParameters))),
                             jsonError := ""));
  }

  /** The JSON text of a filled-in client form parses back to its nulled document. */
  lemma ClientTextParses(c: JsonCodec, s: Draft)
    requires ReadsBackPretty(c) && ParsesWellFormed(c) && s.toolType == ClientKind && !FormIsEmpty(s)
    ensures c.parse(FormToJson(c, s)) ==
            Parsed(Nulled(ClientDocument(c, NamedObject(s.name, s.description), s.clientParameters)))
  {
    FilledFormDocument(c, s);
    ClientDocumentWellFormed(c, s.name, s.description, s.clientParameters);
  }

  /** A client document is tagged as a client tool, so it is not a knowledge document. */
  lemma ClientDocumentIsClient(c: JsonCodec, name: string, description: string, parameters: string)
    ensures var p := ClientDocument(c, NamedObject(name, description), parameters);
      Get(p, "type") == Some(JStr("client")) && !IsKnowledgeDocument(p)
  {
  }

  /** A filled-in form's document depends on its fields only, not on the buffer or the mode. */
  lemma FilledDocumentIgnoresBuffer(c: JsonCodec, d: Draft, rawJson: string, editMode: EditMode)
    requires !FormIsEmpty(d)
    ensures FormToJson(c, d.(rawJson := rawJson, editMode := editMode)) == FormToJson(c, d)
  {
    var e := d.(rawJson := rawJson, editMode := editMode);
    FilledFormDocument(c, d);
    FilledFormDocument(c, e);
    match d.toolType {
      case ClientKind =>
      case KnowledgeKind =>
      case WebhookKind =>
        assert WebhookFormHead(NamedObject(e.name, e.description), e) ==
               WebhookFormHead(NamedObject(d.name, d.description), d);
      case SystemKind =>
    }
  }

  /**
   * A filled-in knowledge form switched to JSON and back returns to the form
   * unchanged, unless it names folders the ownership check rejects: then the
   * dialog stays in JSON mode and shows that check's message.
   */
  lemma KnowledgeSwitchRoundTrip(c: JsonCodec, service: OwnershipService, d: Draft)
    requires ReadsBackPretty(c) && StringsAsText(c) && RefusesBlank(c)
    requires d.toolType == KnowledgeKind && !FormIsEmpty(d)
    ensures var s := SwitchedToJson(c, d);
      var o := ValidateFolderOwnership(service, d.selectedDocuments);
      SwitchedToForm(c, service, s) ==
        if d.selectedDocuments != [] && !o.valid then s.(jsonError := OwnershipMessage(o))
        else s.(jsonError := "", editMode := FormMode)
  {
    var s := SwitchedToJson(c, d);
    FilledDocumentIgnoresBuffer(c, d, s.rawJson, JsonMode);
    KnowledgeSwitchBack(c, service, s);
  }

  /** A filled-in knowledge form whose buffer holds its own document switches back as the ownership check allows. */
  lemma KnowledgeSwitchBack(c: JsonCodec, service: OwnershipService, s: Draft)
    requires ReadsBackPretty(c) && StringsAsText(c) && RefusesBlank(c)
    requires s.toolType == KnowledgeKind && !FormIsEmpty(s) && s.rawJson == FormToJson(c, s)
    ensures var o := ValidateFolderOwnership(service, s.selectedDocuments);
      SwitchedToForm(c, service, s) ==
        if s.selectedDocuments != [] && !o.valid then s.(jsonError := OwnershipMessage(o))
        else s.(jsonError := "", editMode := FormMode)
  {
    var p := Nulled(KnowledgeDocument(NamedObject(s.name, s.description), s.selectedDocuments));
    KnowledgeBufferParses(c, s);
    ParsedTextIsNotBlank(c, s.rawJson);
    KnowledgeFormRoundTrip(c, s);
    KnowledgeDocumentSwitches(c, service, s, p, s.selectedDocuments);
  }

  /**
   * The JSON text of a filled-in knowledge form parses back to its nulled
   * document, which is a knowledge document naming the form's folders.
   */
  lemma KnowledgeBufferParses(c: JsonCodec, s: Draft)
    requires ReadsBackPretty(c) && StringsAsText(c) && s.toolType == KnowledgeKind && !FormIsEmpty(s)
    ensures var p := Nulled(KnowledgeDocument(NamedObject(s.name, s.description), s.selectedDocuments));
      && c.parse(FormToJson(c, s)) == Parsed(p)
      && IsKnowledgeDocument(p)
      && TextListOr(c, Get(p, "documentFolderIds")) == s.selectedDocuments
  {
    var doc := KnowledgeDocument(NamedObject(s.name, s.description), s.selectedDocuments);
    KnowledgeTextParses(c, s);
    TextsOfStrArray(c, s.selectedDocuments);
    KnowledgeDocumentFolders(c, s.name, s.description, s.selectedDocuments);
    KnowledgeDocumentMembers(s.name, s.description, s.selectedDocuments);
    NulledGet(doc, "type");
    NulledGet(doc, "subtype");
    NulledGet(doc, "documentFolderIds");
    NulledStrArray(s.selectedDocuments);
  }

  /** The JSON text of a filled-in knowledge form parses back to its nulled document. */
  lemma KnowledgeTextParses(c: JsonCodec, s: Draft)
    requires ReadsBackPretty(c) && s.toolType == KnowledgeKind && !FormIsEmpty(s)
    ensures c.parse(FormToJson(c, s)) ==
            Parsed(Nulled(KnowledgeDocument(NamedObject(s.name, s.description), s.selectedDocuments)))
  {
    FilledFormDocument(c, s);
    KnowledgeDocumentWellFormed(s.name, s.description, s.selectedDocuments);
  }

  /** A knowledge document is recognised as one and names exactly its folders. */
  lemma KnowledgeDocumentFolders(c: JsonCodec, name: string, description: string, ids: seq<string>)
    requires Texts(c, StrArray(ids).items) == ids
    ensures var p := KnowledgeDocument(NamedObject(name, description), ids);
      IsKnowledgeDocument(p) && TextListOr(c, Get(p, "documentFolderIds")) == ids
  {
    var p := KnowledgeDocument(NamedObject(name, description), ids);
    KnowledgeDocumentMembers(name, description, ids);
    var v := Get(p, "documentFolderIds");
    assert v == Some(StrArray(ids)) && Truthy(v) && v.value.JArr?;
  }

  /**
   * A filled-in webhook form whose sub-fields are empty or parse, switched to
   * JSON and back, returns to the form with each sub-field re-printed from
   * what `JSON.stringify` made of it.
   */
  lemma WebhookSwitchRoundTrip(c: JsonCodec, service: OwnershipService, d: Draft)
    requires ReadsBackPretty(c) && ParsesWellFormed(c) && StringsAsText(c) && RefusesBlank(c)
    requires d.toolType == WebhookKind && !FormIsEmpty(d) && d.httpMethod != ""
    requires !FailsToParse(c, d.headers) && !FailsToParse(c, d.queryParams) && !FailsToParse(c, d.webhookParameters)
    ensures var s := SwitchedToJson(c, d);
      SwitchedToForm(c, service, s) ==
        s.(headers := PrettyOr(c, NulledOpt(ParsedOpt(c, d.headers))),
           queryParams := PrettyOr(c, NulledOpt(ParsedOpt(c, d.queryParams))),
           webhookParameters := PrettyOr(c, NulledOpt(ParsedOpt(c, d.webhookParameters))), jsonError := "",
           editMode := FormMode)
  {
    var s := SwitchedToJson(c, d);
    FilledDocumentIgnoresBuffer(c, d, s.rawJson, JsonMode);
    WebhookSwitchBack(c, service, s);
  }

  /** A filled-in webhook form whose buffer holds its own document switches back with its sub-fields re-printed. */
  lemma WebhookSwitchBack(c: JsonCodec, service: OwnershipService, s: Draft)
    requires ReadsBackPretty(c) && ParsesWellFormed(c) && StringsAsText(c) && RefusesBlank(c)
    requires s.toolType == WebhookKind && !FormIsEmpty(s) && s.httpMethod != ""
    requires !FailsToParse(c, s.headers) && !FailsToParse(c, s.queryParams) && !FailsToParse(c, s.webhookParameters)
    requires s.rawJson == FormToJson(c, s)
    ensures SwitchedToForm(c, service, s) ==
      s.(headers := PrettyOr(c, NulledOpt(ParsedOpt(c, s.headers))),
         queryParams := PrettyOr(c, NulledOpt(ParsedOpt(c, s.queryParams))),
         webhookParameters := PrettyOr(c, NulledOpt(ParsedOpt(c, s.webhookParameters))), jsonError := "",
         editMode := FormMode)
  {
    WebhookBufferParses(c, s);
    WebhookFormRoundTrip(c, s);
    OtherDocumentSwitches(c, service, s, Nulled(WebhookDocument(c, NamedObject(s.name, s.description), s)),
                          s.(headers := PrettyOr(c, NulledOpt(ParsedOpt(c, s.headers))),
                             queryParams := PrettyOr(c, NulledOpt(ParsedOpt(c, s.queryParams))),
                             webhookParameters := PrettyOr(c, NulledOpt(ParsedOpt(c, s.webhookParameters))),
                             jsonError := ""));
  }

  /** The buffer of a filled-in webhook form is not blank and parses to a document that is not a knowledge one. */
  lemma WebhookBufferParses(c: JsonCodec, s: Draft)
    requires ReadsBackPretty(c) && ParsesWellFormed(c) && RefusesBlank(c)
    requires s.toolType == WebhookKind && !FormIsEmpty(s)
    ensures var q := Nulled(WebhookDocument(c, NamedObject(s.name, s.description), s));
      && !IsBlank(FormToJson(c, s)) && c.parse(FormToJson(c, s)) == Parsed(q) && !IsKnowledgeDocument(q)
  {
    var doc := WebhookDocument(c, NamedObject(s.name, s.description), s);
    WebhookTextParses(c, s);
    ParsedTextIsNotBlank(c, FormToJson(c, s));
    WebhookDocumentSubtype(c, s);
    NulledNotKnowledge(doc);
  }

  /** A document whose subtype is not `knowledge` is still not a knowledge document once nulled. */
  lemma NulledNotKnowledge(doc: Json)
    requires Get(doc, "subtype").Some? && Get(doc, "subtype") != Some(JStr("knowledge"))
    ensures !IsKnowledgeDocument(Nulled(doc))
  {
    NulledGet(doc, "subtype");
  }

  /** Whatever its sub-fields, a webhook form's document has the webhook subtype. */
  lemma WebhookDocumentSubtype(c: JsonCodec, d: Draft)
    ensures Get(WebhookDocument(c, NamedObject(d.name, d.description), d), "subtype") == Some(JStr("webhook"))
  {
  }

  /** The JSON text of a filled-in webhook form parses back to its nulled document. */
  lemma WebhookTextParses(c: JsonCodec, s: Draft)
    requires ReadsBackPretty(c) && ParsesWellFormed(c) && s.toolType == WebhookKind && !FormIsEmpty(s)
    ensures c.parse(FormToJson(c, s)) == Parsed(Nulled(WebhookDocument(c, NamedObject(s.name, s.description), s)))
  {
    FilledFormDocument(c, s);
    WebhookDocumentWellFormed(c, s);
  }

  /** Text that parses is not blank. */
  lemma ParsedTextIsNotBlank(c: JsonCodec, text: string)
    requires RefusesBlank(c) && c.parse(text).Parsed?
    ensures !IsBlank(text)
  {
  }

  /** A loaded document that is not a knowledge document switches to the form at once. */
  lemma OtherDocumentSwitches(c: JsonCodec, service: OwnershipService, s: Draft, p: Json, loaded: Draft)
    requires !IsBlank(s.rawJson) && c.parse(s.rawJson) == Parsed(p)
    requires JsonToForm(c, s, s.rawJson) == Loaded(loaded, true)
    requires !IsKnowledgeDocument(p)
    ensures SwitchedToForm(c, service, s) == loaded.(editMode := FormMode)
  {
  }

  /** A loaded knowledge document switches unless the folders it names fail the ownership check. */
  lemma KnowledgeDocumentSwitches(c: JsonCodec, service: OwnershipService, s: Draft, p: Json, ids: seq<string>)
    requires !IsBlank(s.rawJson) && c.parse(s.rawJson) == Parsed(p)
    requires JsonToForm(c, s, s.rawJson) == Loaded(s.(jsonError := ""), true)
    requires IsKnowledgeDocument(p) && TextListOr(c, Get(p, "documentFolderIds")) == ids
    ensures var o := ValidateFolderOwnership(service, ids);
      SwitchedToForm(c, service, s) ==
        if ids != [] && !o.valid then s.(jsonError := OwnershipMessage(o)) else s.(jsonError := "", editMode := FormMode)
  {
  }

  // ---------------------------------------------------------------- the JSON buffer

  /** A filled-in form, or the form of a system tool, prints a well-formed document. */
  lemma FilledDocumentWellFormed(c: JsonCodec, d: Draft)
    requires ParsesWellFormed(c) && (d.toolType == SystemKind || !FormIsEmpty(d))
    ensures WellFormed(FormDocument(c, d))
  {
    if d.toolType == SystemKind {
      SystemDocumentIsNamedObject(c, d);
      NamedObjectWellFormed(d.name, d.description);
    } else {
      FilledFormDocument(c, d);
      match d.toolType {
        case ClientKind => ClientDocumentWellFormed(c, d.name, d.description, d.clientParameters);
        case KnowledgeKind => KnowledgeDocumentWellFormed(d.name, d.description, d.selectedDocuments);
        case WebhookKind => WebhookDocumentWellFormed(c, d);
      }
    }
  }

  /**
   * After a filled-in form, or the form of a system tool, is switched to
   * JSON, the buffer parses to the form's document as `JSON.stringify` left
   * it, so it is never blank. (An empty form shows its kind's example, which
   * reads back unchanged: the three lemmas below.)
   */
  lemma SwitchedBufferParses(c: JsonCodec, d: Draft)
    requires ReadsBackPretty(c) && ParsesWellFormed(c) && RefusesBlank(c)
    requires d.toolType == SystemKind || !FormIsEmpty(d)
    ensures var s := SwitchedToJson(c, d);
      && c.parse(s.rawJson) == Parsed(Nulled(FormDocument(c, d)))
      && !IsBlank(s.rawJson)
  {
    FilledDocumentWellFormed(c, d);
    ParsedTextIsNotBlank(c, SwitchedToJson(c, d).rawJson);
  }

  /** An empty form of any kind but the system kind shows its kind's example in the JSON editor. */
  lemma EmptyFormPrintsExample(c: JsonCodec, d: Draft)
    requires d.toolType != SystemKind && FormIsEmpty(d)
    ensures SwitchedToJson(c, d).rawJson == c.pretty(ExampleDocument(d.toolType))
  {
  }

  /**
   * An empty client form switched to JSON and back holds the client
   * example: its name, description and pretty-printed parameter schema.
   */
  lemma EmptyClientFormTakesExample(c: JsonCodec, service: OwnershipService, d: Draft)
    requires ReadsBackPretty(c) && StringsAsText(c) && RefusesBlank(c)
    requires d.toolType == ClientKind && FormIsEmpty(d)
    ensures var s := SwitchedToJson(c, d);
      SwitchedToForm(c, service, s) ==
        s.(name := "my_client_tool", description := "Describe when the AI should call this client-side function",
           clientParameters := c.pretty(ExampleSchema()), jsonError := "", editMode := FormMode)
  {
    var s := SwitchedToJson(c, d);
    var p := ClientExample();
    ClientExampleReadsBack(c);
    ParsedTextIsNotBlank(c, s.rawJson);
    var name, description := "my_client_tool", "Describe when the AI should call this client-side function";
    ClientExampleFields();
    ClientTextOverwrites(c, s, s.rawJson, p, name, description);
    OtherDocumentSwitches(c, service, s, p, s.(name := name, description := description,
                                               clientParameters := c.pretty(ExampleSchema()), jsonError := ""));
  }

  /** An empty knowledge form switched to JSON and back holds the knowledge example, with no folders. */
  lemma EmptyKnowledgeFormTakesExample(c: JsonCodec, service: OwnershipService, d: Draft)
    requires ReadsBackPretty(c) && StringsAsText(c) && RefusesBlank(c)
    requires d.toolType == KnowledgeKind && FormIsEmpty(d)
    ensures var s := SwitchedToJson(c, d);
      SwitchedToForm(c, service, s) ==
        s.(name := "search_knowledge", description := "Search the knowledge base when the user asks for information",
           selectedDocuments := [], jsonError := "", editMode := FormMode)
  {
    var s := SwitchedToJson(c, d);
    var p := KnowledgeExample();
    KnowledgeExampleReadsBack(c);
    ParsedTextIsNotBlank(c, s.rawJson);
    var name, description := "search_knowledge", "Search the knowledge base when the user asks for information";
    KnowledgeExampleFields();
    KnowledgeTextOverwrites(c, s, s.rawJson, p, name, description, []);
    TextsOfStrArray(c, []);
  }

  /**
   * An empty webhook form switched to JSON and back holds the webhook
   * example: its name, description and URL, the POST method and an awaited
   * response, with the three sub-fields empty.
   */
  lemma EmptyWebhookFormTakesExample(c: JsonCodec, service: OwnershipService, d: Draft)
    requires ReadsBackPretty(c) && StringsAsText(c) && RefusesBlank(c)
    requires d.toolType == WebhookKind && FormIsEmpty(d)
    ensures var s := SwitchedToJson(c, d);
      SwitchedToForm(c, service, s) ==
        s.(name := "call_api", description := "Call an external API when the user requests specific action",
           url := "https://api.example.com/endpoint", httpMethod := "POST", awaitResponse := true,
           headers := "", queryParams := "", webhookParameters := "", jsonError := "", editMode := FormMode)
  {
    var s := SwitchedToJson(c, d);
    var p := WebhookExample();
    WebhookExampleReadsBack(c);
    ParsedTextIsNotBlank(c, s.rawJson);
    var name, description := "call_api", "Call an external API when the user requests specific action";
    var url, httpMethod := "https://api.example.com/endpoint", "POST";
    WebhookExampleFields();
    WebhookTextOverwrites(c, s, s.rawJson, p, name, description, url, httpMethod, true);
    OtherDocumentSwitches(c, service, s, p, s.(name := name, description := description, url := url,
                                               httpMethod := httpMethod, awaitResponse := true, headers := "",
                                               queryParams := "", webhookParameters := "", jsonError := ""));
  }

  /** A client document replaces the name, description, kind and parameter text, whatever the form held. */
  lemma ClientTextOverwrites(c: JsonCodec, d: Draft, text: string, p: Json, name: string, description: string)
    requires StringsAsText(c) && c.parse(text) == Parsed(p)
    requires Get(p, "type") == Some(JStr("client"))
    requires Get(p, "name") == Some(JStr(name)) && Get(p, "description") == Some(JStr(description))
    ensures JsonToForm(c, d, text) ==
      Loaded(d.(name := name, description := description, toolType := ClientKind,
                clientParameters := PrettyOr(c, Get(p, "parameters")), jsonError := ""), true)
  {
    TextRead(c, name);
    TextRead(c, description);
  }

  /**
   * A knowledge document replaces the name, description, kind and folders;
   * when it names no folders the dialog switches to the form at once.
   */
  lemma KnowledgeTextOverwrites(c: JsonCodec, d: Draft, text: string, p: Json, name: string, description: string,
                                ids: seq<string>)
    requires StringsAsText(c) && c.parse(text) == Parsed(p) && IsKnowledgeDocument(p)
    requires Get(p, "name") == Some(JStr(name)) && Get(p, "description") == Some(JStr(description))
    requires Get(p, "documentFolderIds") == Some(StrArray(ids))
    ensures JsonToForm(c, d, text) ==
      Loaded(d.(name := name, description := description, toolType := KnowledgeKind, selectedDocuments := ids,
                jsonError := ""), true)
  {
    TextRead(c, name);
    TextRead(c, description);
    TextsOfStrArray(c, ids);
    assert LoadDocument(c, d, p) == LoadServer(c, d.(name := name, description := description), p);
  }

  /** A webhook document replaces the name, description, kind and every webhook field, whatever the form held. */
  lemma WebhookTextOverwrites(c: JsonCodec, d: Draft, text: string, p: Json, name: string, description: string,
                              url: string, httpMethod: string, awaitResponse: bool)
    requires StringsAsText(c) && c.parse(text) == Parsed(p) && httpMethod != ""
    requires Get(p, "type") == Some(JStr("server")) && Get(p, "subtype") == Some(JStr("webhook"))
    requires Get(p, "name") == Some(JStr(name)) && Get(p, "description") == Some(JStr(description))
    requires Get(p, "url") == Some(JStr(url)) && Get(p, "method") == Some(JStr(httpMethod))
    requires Get(p, "awaitResponse") == Some(JBool(awaitResponse))
    ensures JsonToForm(c, d, text) ==
      Loaded(d.(name := name, description := description, toolType := WebhookKind, url := url,
                httpMethod := httpMethod, awaitResponse := awaitResponse,
                headers := PrettyOr(c, Get(p, "headers")), queryParams := PrettyOr(c, Get(p, "queryParameters")),
                webhookParameters := PrettyOr(c, Get(p, "parameters")), jsonError := ""), true)
  {
    TextRead(c, name);
    TextRead(c, description);
    TextRead(c, url);
    TextRead(c, httpMethod);
    WebhookLoadReads(c, d, p);
  }

  // ---------------------------------------------------------------- failures

  /**
   * From the JSON editor, the dialog reaches the form only with a blank
   * buffer or a document that loaded without error; when it stays in JSON
   * mode the buffer is kept and, unless the parser's own message was empty,
   * a message is shown.
   */
  lemma SwitchStaysOnFailure(c: JsonCodec, service: OwnershipService, d: Draft)
    requires d.editMode == JsonMode
    ensures var r := SwitchedToForm(c, service, d);
      r.editMode == FormMode && !IsBlank(d.rawJson) ==> c.parse(d.rawJson).Parsed? && r.jsonError == ""
    ensures var r := SwitchedToForm(c, service, d);
      r.editMode == JsonMode ==>
        && !IsBlank(d.rawJson) && r.rawJson == d.rawJson
        && (r.jsonError != "" || c.parse(d.rawJson) == SyntaxError(""))
    ensures var r := SwitchedToForm(c, service, d);
      var loaded := JsonToForm(c, d, d.rawJson);
      var ids := if c.parse(d.rawJson).Parsed? then TextListOr(c, Get(c.parse(d.rawJson).value, "documentFolderIds")) else [];
      r.editMode == FormMode <==>
        || IsBlank(d.rawJson)
        || (&& loaded.ok
            && !(IsKnowledgeDocument(c.parse(d.rawJson).value) && ids != [] && !ValidateFolderOwnership(service, ids).valid))
  {
  }

  /**
   * Text that does not parse, a `null` document, or a document without a
   * truthy type fails to load and changes nothing but the JSON error.
   */
  lemma EarlyLoadFailureOnlySetsError(c: JsonCodec, d: Draft, text: string)
    requires c.parse(text).SyntaxError? || c.parse(text).value.JNull? || !Truthy(Get(c.parse(text).value, "type"))
    ensures !JsonToForm(c, d, text).ok
    ensures JsonToForm(c, d, text).draft == d.(jsonError := JsonToForm(c, d, text).draft.jsonError)
  {
  }

  /**
   * Once a document has a truthy type, its name and description replace the
   * form's (missing ones as empty text), whether or not the rest loads.
   */
  lemma TypedDocumentOverwritesName(c: JsonCodec, d: Draft, text: string)
    requires c.parse(text).Parsed? && !c.parse(text).value.JNull? && Truthy(Get(c.parse(text).value, "type"))
    ensures var p := c.parse(text).value;
      && JsonToForm(c, d, text).draft.name == TextOr(c, Get(p, "name"), "")
      && JsonToForm(c, d, text).draft.description == TextOr(c, Get(p, "description"), "")
  {
  }

  /**
   * A client document loads by writing the name, description, kind and
   * parameter text only; every other field of the form keeps its value.
   */
  lemma ClientLoadTouchesOnlyItsFields(c: JsonCodec, d: Draft, text: string, p: Json)
    requires c.parse(text) == Parsed(p) && Get(p, "type") == Some(JStr("client"))
    ensures var r := JsonToForm(c, d, text);
      && r.ok
      && r.draft == d.(name := r.draft.name, description := r.draft.description, toolType := ClientKind,
                       clientParameters := r.draft.clientParameters, jsonError := "")
      && r.draft.clientParameters == PrettyOr(c, Get(p, "parameters"))
  {
  }

  /**
   * The load's own refusals, each with its message: a `null` document, a
   * missing type, an unknown type, a server document without a subtype and
   * one with an unknown subtype. Once the type is truthy the name and
   * description have already been overwritten, so they change even though
   * the load fails.
   */
  lemma LoadRefusals(c: JsonCodec, d: Draft, text: string, p: Json)
    requires c.parse(text) == Parsed(p)
    ensures p.JNull? ==> JsonToForm(c, d, text) == Loaded(d.(jsonError := NullReadMessage("type")), false)
    ensures !p.JNull? && !Truthy(Get(p, "type")) ==> JsonToForm(c, d, text) == Loaded(d.(jsonError := MissingTypeMessage), false)
    ensures var kind := Get(p, "type");
      var subtype := Get(p, "subtype");
      var named := d.(name := TextOr(c, Get(p, "name"), ""), description := TextOr(c, Get(p, "description"), ""));
      !p.JNull? && Truthy(kind) ==>
        && (kind.value != JStr("client") && kind.value != JStr("server") ==>
              JsonToForm(c, d, text) == Loaded(named.(jsonError := InvalidTypeMessage(c.text(kind.value))), false))
        && (kind.value == JStr("server") && !Truthy(subtype) ==>
              JsonToForm(c, d, text) == Loaded(named.(jsonError := MissingSubtypeMessage), false))
        && (kind.value == JStr("server") && Truthy(subtype) &&
            subtype.value != JStr("knowledge") && subtype.value != JStr("webhook") ==>
              JsonToForm(c, d, text) == Loaded(named.(jsonError := InvalidSubtypeMessage(c.text(subtype.value))), false))
  {
  }

  /**
   * The document `{"type": "server"}` is refused for its missing subtype and
   * leaves the form with an empty name and description.
   */
  lemma ServerWithoutSubtypeClearsName(c: JsonCodec, d: Draft, text: string)
    requires c.parse(text) == Parsed(JObj(["type"], map["type" := JStr("server")]))
    ensures JsonToForm(c, d, text) == Loaded(d.(name := "", description := "", jsonError := MissingSubtypeMessage), false)
  {
    var p := JObj(["type"], map["type" := JStr("server")]);
    assert Get(p, "type") == Some(JStr("server"));
    assert Get(p, "name").None? && Get(p, "description").None? && Get(p, "subtype").None?;
  }
}
