/**
 * What `handleSave` promises. In JSON mode the buffer is checked in order
 * (empty, syntax, name, description, name format, type, kind validator) and
 * a knowledge document also passes the folder ownership check before it is
 * handed over. In form mode the kind validator reports every bad field at
 * once; the name format and the JSON sub-fields are checked after it, so
 * whitespace-only JSON text, which the validator lets through, still stops
 * the save.
 */
module SaveProperties {
  import opened Wrappers
  import opened JsText
  import opened Json
  import opened ToolName
  import opened ToolFields
  import opened ToolTypes
  import opened ToolActions
  import opened EditorState

  // ---------------------------------------------------------------- JSON mode

  /**
   * A document the JSON-mode save goes on with is the parsed buffer, has a
   * text name in the tool-name format and a truthy text description, is a
   * client or a knowledge or webhook server tool (which validator it then
   * passed is stated per kind below); only a knowledge document goes to the
   * ownership check, with the folder list it names, which is then non-empty.
   */
  lemma {:induction false} JsonSaveChecks(c: JsonCodec, urls: UrlParser, raw: string)
    ensures IsBlank(raw) ==> JsonSavePlan(c, urls, raw) == Refuse(JsonEmpty)
    ensures var r := JsonSavePlan(c, urls, raw);
      r.Submit? || r.VerifyFolders? ==>
        && !IsBlank(raw) && c.parse(raw) == Parsed(r.tool)
        && Get(r.tool, "name").Some? && Get(r.tool, "name").value.JStr?
        && ValidateToolName(Get(r.tool, "name").value.s).Pass?
        && Truthy(Get(r.tool, "description")) && Get(r.tool, "description").value.JStr?
        && (|| Get(r.tool, "type") == Some(JStr("client"))
            || IsKnowledgeDocument(r.tool)
            || (Get(r.tool, "type") == Some(JStr("server")) && Get(r.tool, "subtype") == Some(JStr("webhook"))))
    ensures var r := JsonSavePlan(c, urls, raw);
      && (r.VerifyFolders? ==> IsKnowledgeDocument(r.tool) && r.folderIds == TextListOr(c, Get(r.tool, "documentFolderIds")))
      && (r.VerifyFolders? ==> r.folderIds != [])
      && (r.Submit? ==> !IsKnowledgeDocument(r.tool))
  {
    if !IsBlank(raw) && c.parse(raw).Parsed? {
      var p := c.parse(raw).value;
      if !p.JNull? && Truthy(Get(p, "name")) && Truthy(Get(p, "description")) && Get(p, "name").value.JStr? {
        var name := Get(p, "name").value.s;
        if ValidateToolName(name).Pass? {
          KindPlanChecks(c, urls, p, name, Get(p, "description").value);
        }
      }
    }
  }

  /** The type and subtype checks of a JSON-mode save, and the validator each kind passed. */
  lemma KindPlanChecks(c: JsonCodec, urls: UrlParser, p: Json, name: string, description: Json)
    ensures var r := KindPlan(c, urls, p, name, description);
      r.Submit? || r.VerifyFolders? ==>
        && description.JStr?
        && (|| Get(p, "type") == Some(JStr("client"))
            || IsKnowledgeDocument(p)
            || (Get(p, "type") == Some(JStr("server")) && Get(p, "subtype") == Some(JStr("webhook"))))
    ensures var r := KindPlan(c, urls, p, name, description);
      && (r.VerifyFolders? ==> IsKnowledgeDocument(p) && r.folderIds == TextListOr(c, Get(p, "documentFolderIds")))
      && (r.VerifyFolders? ==> r.folderIds != [])
      && (r.Submit? ==> !IsKnowledgeDocument(p))
    ensures var r := KindPlan(c, urls, p, name, description);
      && (r.Submit? && Get(p, "type") == Some(JStr("client")) ==>
            ValidateClientTool(c, name, description.s, CompactOr(c, Get(p, "parameters"))).valid)
      && (r.VerifyFolders? ==> ValidateRagTool(name, description.s, r.folderIds).valid)
      && (r.Submit? && Get(p, "type") != Some(JStr("client")) ==>
            ValidateWebhookTool(c, urls, name, description.s, TextOr(c, Get(p, "url"), ""),
                                CompactOr(c, Get(p, "headers")), CompactOr(c, Get(p, "queryParameters")),
                                CompactOr(c, Get(p, "parameters"))).valid)
  {
  }

  /**
   * A parsed, non-null document without a truthy name is refused for the
   * missing name, whatever else it lacks.
   */
  lemma MissingNameReportedFirst(c: JsonCodec, urls: UrlParser, raw: string)
    requires !IsBlank(raw) && c.parse(raw).Parsed? && !c.parse(raw).value.JNull?
    requires !Truthy(Get(c.parse(raw).value, "name"))
    ensures JsonSavePlan(c, urls, raw) == Refuse(MissingName)
  {
  }

  /** A buffer that does not parse is refused with the parser's own message. */
  lemma SyntaxErrorReported(c: JsonCodec, urls: UrlParser, raw: string)
    requires !IsBlank(raw) && c.parse(raw).SyntaxError?
    ensures JsonSavePlan(c, urls, raw) == Refuse(c.parse(raw).message)
  {
  }

  /**
   * The document checks before the type, each with the message it gives
   * when it is the first to fail: reading a property of `null`, the missing
   * name, the missing description, `trim` of a name that is not text, and
   * the name format.
   */
  lemma DocumentRefusals(c: JsonCodec, urls: UrlParser, raw: string, p: Json)
    requires !IsBlank(raw) && c.parse(raw) == Parsed(p)
    ensures var r := JsonSavePlan(c, urls, raw);
      var name := Get(p, "name");
      var description := Get(p, "description");
      && (p.JNull? ==> r == Refuse(NullReadMessage("name")))
      && (!p.JNull? && Truthy(name) && !Truthy(description) ==> r == Refuse(MissingDescription))
      && (!p.JNull? && Truthy(name) && Truthy(description) && !name.value.JStr? ==>
            r == Refuse(NotAFunctionMessage("name.trim")))
      && (!p.JNull? && Truthy(name) && Truthy(description) && name.value.JStr? &&
          ValidateToolName(name.value.s).Fail? ==>
            r == Refuse("Invalid name: " + ValidateToolName(name.value.s).error))
  {
  }

  /** The document has passed every check before its type: a truthy text name in the tool-name format and a truthy description. */
  predicate WellNamed(p: Json)
  {
    && !p.JNull? && Truthy(Get(p, "name")) && Truthy(Get(p, "description"))
    && Get(p, "name").value.JStr? && ValidateToolName(Get(p, "name").value.s).Pass?
  }

  /**
   * After the name checks, an unknown type, a server document with an
   * unknown or missing subtype, and a description that is not text are
   * refused with their messages.
   */
  lemma KindRefusals(c: JsonCodec, urls: UrlParser, raw: string, p: Json)
    requires !IsBlank(raw) && c.parse(raw) == Parsed(p) && WellNamed(p)
    ensures var r := JsonSavePlan(c, urls, raw);
      var kind := Get(p, "type");
      var subtype := Get(p, "subtype");
      && (kind != Some(JStr("client")) && kind != Some(JStr("server")) ==> r == Refuse(UnknownTypeOnSave))
      && (kind == Some(JStr("server")) && subtype != Some(JStr("knowledge")) && subtype != Some(JStr("webhook")) ==>
            r == Refuse(UnknownSubtypeOnSave))
      && ((kind == Some(JStr("client")) || (kind == Some(JStr("server")) &&
          (subtype == Some(JStr("knowledge")) || subtype == Some(JStr("webhook"))))) &&
          !Get(p, "description").value.JStr? ==>
            r == Refuse(NotAFunctionMessage("data.description.trim")))
  {
  }

  /**
   * A well-named document of a known kind with a text description is
   * refused exactly when its kind's validator fails, with the validator's
   * first message (or, for a webhook, when its URL is not text).
   */
  lemma ValidatorRefusals(c: JsonCodec, urls: UrlParser, raw: string, p: Json)
    requires !IsBlank(raw) && c.parse(raw) == Parsed(p) && WellNamed(p) && Get(p, "description").value.JStr?
    ensures var r := JsonSavePlan(c, urls, raw);
      var name := Get(p, "name").value.s;
      var description := Get(p, "description").value.s;
      var v := ValidateClientTool(c, name, description, CompactOr(c, Get(p, "parameters")));
      Get(p, "type") == Some(JStr("client")) ==> r == if v.valid then Submit(p) else Refuse(FirstMessage(v))
    ensures var r := JsonSavePlan(c, urls, raw);
      var name := Get(p, "name").value.s;
      var description := Get(p, "description").value.s;
      var ids := TextListOr(c, Get(p, "documentFolderIds"));
      var v := ValidateRagTool(name, description, ids);
      IsKnowledgeDocument(p) ==> r == if v.valid then VerifyFolders(ids, p) else Refuse(FirstMessage(v))
    ensures var r := JsonSavePlan(c, urls, raw);
      var name := Get(p, "name").value.s;
      var description := Get(p, "description").value.s;
      var url := Get(p, "url");
      var v := ValidateWebhookTool(c, urls, name, description, TextOr(c, url, ""),
                                   CompactOr(c, Get(p, "headers")), CompactOr(c, Get(p, "queryParameters")),
                                   CompactOr(c, Get(p, "parameters")));
      Get(p, "type") == Some(JStr("server")) && Get(p, "subtype") == Some(JStr("webhook")) ==>
        && (Truthy(url) && !url.value.JStr? ==> r == Refuse(NotAFunctionMessage("url.trim")))
        && (!(Truthy(url) && !url.value.JStr?) ==> r == if v.valid then Submit(p) else Refuse(FirstMessage(v)))
  {
  }

  /**
   * A JSON-mode save hands over exactly the parsed buffer, and does so
   * exactly when every check passed and, for a knowledge document, the
   * folders belong to the user. A refused ownership check is shown in the
   * JSON error and clears the saving flag; any other refusal only shows its
   * message.
   */
  lemma JsonModeSends(c: JsonCodec, urls: UrlParser, service: OwnershipService, persist: Persistence, d: Draft)
    requires d.editMode == JsonMode
    ensures var plan := JsonSavePlan(c, urls, d.rawJson);
      var r := Save(c, urls, service, persist, d);
      && (r.sent != [] <==>
            plan.Submit? || (plan.VerifyFolders? && ValidateFolderOwnership(service, plan.folderIds).valid))
      && (r.sent != [] ==> c.parse(d.rawJson).Parsed? && r.sent == [c.parse(d.rawJson).value])
      && (plan.Refuse? ==> r.draft == d.(jsonError := plan.message))
    ensures var plan := JsonSavePlan(c, urls, d.rawJson);
      var r := Save(c, urls, service, persist, d);
      plan.VerifyFolders? && !ValidateFolderOwnership(service, plan.folderIds).valid ==>
        && r.draft.jsonError == OwnershipMessage(ValidateFolderOwnership(service, plan.folderIds))
        && r.draft.jsonError != "" && !r.draft.isSaving
  {
  }

  // ---------------------------------------------------------------- form mode

  /** The validator the form runs for its kind; the system kind has none. */
  function FormValidation(c: JsonCodec, urls: UrlParser, d: Draft): (v: ValidationResult)
    ensures d.toolType == SystemKind ==> v.valid
  {
    match d.toolType
    case ClientKind => ValidateClientTool(c, d.name, d.description, d.clientParameters)
    case KnowledgeKind => ValidateRagTool(d.name, d.description, d.selectedDocuments)
    case WebhookKind =>
      ValidateWebhookTool(c, urls, d.name, d.description, d.url, d.headers, d.queryParams, d.webhookParameters)
    case SystemKind => Verdict(NoErrors)
  }

  /** A non-empty JSON sub-field of the current kind that `JSON.parse` rejects. */
  predicate SubFieldFails(c: JsonCodec, d: Draft)
  {
    match d.toolType
    case ClientKind => FailsToParse(c, d.clientParameters)
    case WebhookKind => FailsToParse(c, d.headers) || FailsToParse(c, d.queryParams) || FailsToParse(c, d.webhookParameters)
    case _ => false
  }

  /**
   * A form-mode save hands a tool over exactly when the kind is not the
   * system kind, the kind's validator passed, the name has the tool-name
   * format and every non-empty JSON sub-field parses; the tool carries the
   * form's name and description.
   */
  lemma FormModeSends(c: JsonCodec, urls: UrlParser, service: OwnershipService, persist: Persistence, d: Draft)
    requires d.editMode == FormMode
    ensures var r := Save(c, urls, service, persist, d);
      r.sent != [] <==>
        d.toolType != SystemKind && FormValidation(c, urls, d).valid && ValidateToolName(d.name).Pass?
        && !SubFieldFails(c, d)
    ensures var r := Save(c, urls, service, persist, d);
      r.sent != [] ==>
        Get(r.sent[0], "name") == Some(JStr(d.name)) && Get(r.sent[0], "description") == Some(JStr(d.description))
  {
  }

  /** The system kind can be chosen in the form but never saved from it. */
  lemma SystemKindNeverSaves(c: JsonCodec, urls: UrlParser, service: OwnershipService, persist: Persistence, d: Draft)
    requires d.editMode == FormMode && d.toolType == SystemKind
    ensures Save(c, urls, service, persist, d) == Refused(ClearedErrors(d))
  {
  }

  /**
   * A form the validator rejects is not saved, and the messages appear on
   * the fields: the name and description errors show exactly when those
   * fields are blank.
   */
  lemma FieldErrorsShown(c: JsonCodec, urls: UrlParser, service: OwnershipService, persist: Persistence, d: Draft)
    requires d.editMode == FormMode && d.toolType != SystemKind && !FormValidation(c, urls, d).valid
    ensures var r := Save(c, urls, service, persist, d);
      && r == Refused(ShowErrors(ClearedErrors(d), FormValidation(c, urls, d).errors))
      && (r.draft.nameError != "" <==> IsBlank(d.name))
      && (r.draft.descriptionError != "" <==> IsBlank(d.description))
  {
    var e := FormValidation(c, urls, d).errors;
    assert FormModeSave(c, urls, persist, d) == FormOutcome(ClearedErrors(d), FieldErrors(e), persist);
    ShownMessage(e.name, "");
    ShownMessage(e.description, "");
  }

  /**
   * The same refusal, for the fields only one kind has: the folder error
   * shows exactly when no folder is chosen, the URL error exactly when the
   * URL check fails, and the client parameter error exactly when non-blank
   * parameter text does not parse.
   */
  lemma KindFieldErrorsShown(c: JsonCodec, urls: UrlParser, service: OwnershipService, persist: Persistence,
                             d: Draft)
    requires d.editMode == FormMode && d.toolType != SystemKind && !FormValidation(c, urls, d).valid
    ensures var r := Save(c, urls, service, persist, d);
      && (d.toolType == KnowledgeKind ==> (r.draft.foldersError != "" <==> d.selectedDocuments == []))
      && (d.toolType == WebhookKind ==> (r.draft.urlError != "" <==> ValidateUrl(urls, d.url).Fail?))
      && (d.toolType == ClientKind ==>
            (r.draft.clientParametersError != "" <==> !IsBlank(d.clientParameters) && c.parse(d.clientParameters).SyntaxError?))
  {
    var e := FormValidation(c, urls, d).errors;
    FieldErrorsShown(c, urls, service, persist, d);
    ShownMessage(e.folders, "");
    ShownMessage(e.url, "");
    ShownMessage(e.parameters, "");
  }

  /**
   * For a webhook, each JSON sub-field's error shows exactly when its
   * non-blank text does not parse.
   */
  lemma WebhookFieldErrorsShown(c: JsonCodec, urls: UrlParser, service: OwnershipService, persist: Persistence,
                                d: Draft)
    requires d.editMode == FormMode && d.toolType == WebhookKind && !FormValidation(c, urls, d).valid
    ensures var r := Save(c, urls, service, persist, d);
      && (r.draft.headersError != "" <==> !IsBlank(d.headers) && c.parse(d.headers).SyntaxError?)
      && (r.draft.queryParamsError != "" <==> !IsBlank(d.queryParams) && c.parse(d.queryParams).SyntaxError?)
      && (r.draft.webhookParametersError != "" <==>
            !IsBlank(d.webhookParameters) && c.parse(d.webhookParameters).SyntaxError?)
  {
    var e := FormValidation(c, urls, d).errors;
    FieldErrorsShown(c, urls, service, persist, d);
    ShownMessage(e.headers, "");
    ShownMessage(e.queryParameters, "");
    ShownMessage(e.parameters, "");
  }

  /** A message shown over a cleared field is non-empty exactly when one was reported. */
  lemma ShownMessage(e: Option<string>, current: string)
    requires current == "" && (e.Some? ==> KnownMessage(e.value))
    ensures Shown(e, current) != "" <==> e.Some?
  {
  }

  /**
   * A form the validator accepts but whose name breaks the tool-name format
   * is refused with the format's message on the name; no other error shows.
   */
  lemma NameFormatCheckedAfterValidator(c: JsonCodec, urls: UrlParser, service: OwnershipService, persist: Persistence,
                                        d: Draft)
    requires d.editMode == FormMode && d.toolType != SystemKind && FormValidation(c, urls, d).valid
    requires ValidateToolName(d.name).Fail?
    ensures Save(c, urls, service, persist, d) ==
            Refused(ClearedErrors(d).(nameError := ValidateToolName(d.name).error))
    ensures Save(c, urls, service, persist, d).draft.nameError != ""
  {
  }

  // ---------------------------------------------------------------- whitespace-only JSON

  /** Non-empty text made of whitespace only. */
  predicate WhitespaceOnly(s: string)
  {
    s != "" && IsBlank(s)
  }

  /**
   * Client parameters made of whitespace only pass the client validator but
   * not `JSON.parse`: an otherwise valid client form is refused with the
   * JSON syntax message on the parameters, and nothing is saved.
   */
  lemma WhitespaceClientParametersRefused(c: JsonCodec, urls: UrlParser, service: OwnershipService,
                                          persist: Persistence, d: Draft)
    requires RefusesBlank(c)
    requires d.editMode == FormMode && d.toolType == ClientKind
    requires !IsBlank(d.name) && !IsBlank(d.description) && ValidateToolName(d.name).Pass?
    requires WhitespaceOnly(d.clientParameters)
    ensures ValidateClientTool(c, d.name, d.description, d.clientParameters).valid
    ensures Save(c, urls, service, persist, d) == Refused(ClearedErrors(d).(clientParametersError := JsonBadSyntax))
  {
    BlankJsonPassesButDoesNotParse(c, d.clientParameters);
    ClientTextRefused(c, urls, service, persist, d);
  }

  lemma ClientTextRefused(c: JsonCodec, urls: UrlParser, service: OwnershipService, persist: Persistence, d: Draft)
    requires d.editMode == FormMode && d.toolType == ClientKind
    requires !IsBlank(d.name) && !IsBlank(d.description) && ValidateToolName(d.name).Pass?
    requires IsBlank(d.clientParameters) && FailsToParse(c, d.clientParameters)
    ensures ValidateClientTool(c, d.name, d.description, d.clientParameters).valid
    ensures Save(c, urls, service, persist, d) == Refused(ClearedErrors(d).(clientParametersError := JsonBadSyntax))
  {
  }

  /**
   * A webhook sub-field made of whitespace only passes the webhook validator
   * but not `JSON.parse`: an otherwise valid webhook form is refused, nothing
   * is saved, and no field shows an error (the failure is only notified).
   */
  lemma WhitespaceWebhookJsonRefusedSilently(c: JsonCodec, urls: UrlParser, service: OwnershipService,
                                             persist: Persistence, d: Draft)
    requires RefusesBlank(c)
    requires d.editMode == FormMode && d.toolType == WebhookKind
    requires !IsBlank(d.name) && !IsBlank(d.description) && ValidateToolName(d.name).Pass?
    requires ValidateUrl(urls, d.url).Pass?
    requires ValidateJsonString(c, d.headers).Pass? && ValidateJsonString(c, d.queryParams).Pass?
    requires ValidateJsonString(c, d.webhookParameters).Pass?
    requires WhitespaceOnly(d.headers) || WhitespaceOnly(d.queryParams) || WhitespaceOnly(d.webhookParameters)
    ensures ValidateWebhookTool(c, urls, d.name, d.description, d.url, d.headers, d.queryParams, d.webhookParameters).valid
    ensures Save(c, urls, service, persist, d) == Refused(ClearedErrors(d))
  {
    if WhitespaceOnly(d.headers) {
      BlankJsonPassesButDoesNotParse(c, d.headers);
    } else if WhitespaceOnly(d.queryParams) {
      BlankJsonPassesButDoesNotParse(c, d.queryParams);
    } else {
      BlankJsonPassesButDoesNotParse(c, d.webhookParameters);
    }
    WebhookTextRefused(c, urls, service, persist, d);
  }

  lemma WebhookTextRefused(c: JsonCodec, urls: UrlParser, service: OwnershipService, persist: Persistence, d: Draft)
    requires d.editMode == FormMode && d.toolType == WebhookKind
    requires !IsBlank(d.name) && !IsBlank(d.description) && ValidateToolName(d.name).Pass?
    requires ValidateUrl(urls, d.url).Pass?
    requires ValidateJsonString(c, d.headers).Pass? && ValidateJsonString(c, d.queryParams).Pass?
    requires ValidateJsonString(c, d.webhookParameters).Pass?
    requires FailsToParse(c, d.headers) || FailsToParse(c, d.queryParams) || FailsToParse(c, d.webhookParameters)
    ensures ValidateWebhookTool(c, urls, d.name, d.description, d.url, d.headers, d.queryParams, d.webhookParameters).valid
    ensures Save(c, urls, service, persist, d) == Refused(ClearedErrors(d))
  {
  }
}
