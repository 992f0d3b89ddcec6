/**
 * The `ToolEditorDialog` component of components/tool-editor-dialog.tsx as
 * an object: its state is one draft record, and each handler is a method
 * that performs the component's state updates in the component's order.
 * Every method is proved to end in the state the matching function of
 * `EditorState` describes.
 */
module EditorDialog {
  import opened Wrappers
  import opened JsText
  import opened Json
  import opened ToolName
  import opened ToolFields
  import opened ToolTypes
  import opened ToolActions
  import opened EditorState

  /** A webhook form that passes every check is saved as the webhook tool built from its fields. */
  lemma WebhookPlanSubmits(c: JsonCodec, urls: UrlParser, d: Draft, persist: Persistence)
    requires ValidateWebhookTool(c, urls, d.name, d.description, d.url, d.headers, d.queryParams,
                                 d.webhookParameters).valid
    requires ValidateToolName(d.name).Pass?
    requires !FailsToParse(c, d.headers) && !FailsToParse(c, d.queryParams) && !FailsToParse(c, d.webhookParameters)
    ensures var tool := WebhookTool(d.name, d.description, d.url, d.httpMethod, ParsedOpt(c, d.headers),
                                    ParsedOpt(c, d.queryParams), ParsedOpt(c, d.webhookParameters),
                                    Some(d.awaitResponse));
      FormOutcome(d, WebhookFormPlan(c, urls, d), persist) == Submitted(d, ToolJson(tool), persist, false)
  {
    WebhookPlanIsTool(c, urls, d);
  }

  lemma WebhookPlanIsTool(c: JsonCodec, urls: UrlParser, d: Draft)
    requires ValidateWebhookTool(c, urls, d.name, d.description, d.url, d.headers, d.queryParams,
                                 d.webhookParameters).valid
    requires ValidateToolName(d.name).Pass?
    requires !FailsToParse(c, d.headers) && !FailsToParse(c, d.queryParams) && !FailsToParse(c, d.webhookParameters)
    ensures WebhookFormPlan(c, urls, d) ==
      SubmitTool(WebhookTool(d.name, d.description, d.url, d.httpMethod, ParsedOpt(c, d.headers),
                             ParsedOpt(c, d.queryParams), ParsedOpt(c, d.webhookParameters), Some(d.awaitResponse)))
  {
  }

  class ToolEditorDialog {
    /** `JSON.parse` and the printers. */
    const codec: JsonCodec
    /** `new URL(...)`. */
    const urls: UrlParser
    var draft: Draft

    constructor(codec: JsonCodec, urls: UrlParser, forceRagType: bool, initialToolType: Option<ToolKind>)
      ensures this.codec == codec && this.urls == urls
      ensures draft == Mounted(InitialKind(forceRagType, initialToolType))
    {
      this.codec := codec;
      this.urls := urls;
      draft := Mounted(InitialKind(forceRagType, initialToolType));
    }

    /** The reset effect, run when the dialog opens or its props change. */
    method Reopen(tool: Option<Tool>, forceRagType: bool, initialToolType: Option<ToolKind>)
      modifies this
      ensures draft == Reopened(codec, old(draft), tool, forceRagType, initialToolType)
    {
      if tool.Some? {
        Seed(tool.value);
      } else {
        Reset(InitialKind(forceRagType, initialToolType));
      }
      draft := draft.(editMode := FormMode);
      draft := draft.(jsonError := "");
    }

    /** Loading an existing tool into the form. */
    method Seed(t: Tool)
      modifies this
      ensures draft == Seeded(codec, old(draft), t)
    {
      draft := draft.(name := t.name, description := t.description);
      match t {
        case ClientTool(_, _, parameters) =>
          draft := draft.(toolType := ClientKind, clientParameters := PrettyOr(codec, parameters));
        case KnowledgeTool(_, _, ids) =>
          draft := draft.(toolType := KnowledgeKind, selectedDocuments := ids);
        case WebhookTool(_, _, url, httpMethod, headers, queryParameters, parameters, awaitResponse) =>
          draft := draft.(toolType := WebhookKind, url := url, httpMethod := httpMethod,
                          headers := PrettyOr(codec, headers), queryParams := PrettyOr(codec, queryParameters),
                          webhookParameters := PrettyOr(codec, parameters),
                          awaitResponse := if awaitResponse.Some? then awaitResponse.value else true);
      }
      draft := draft.(rawJson := codec.pretty(ToolJson(t)));
    }

    /** Clearing the form for a new tool. */
    method Reset(kind: ToolKind)
      modifies this
      ensures draft == Mounted(kind).(isSaving := old(draft.isSaving), searchQuery := old(draft.searchQuery),
                                      isAdvancedExpanded := old(draft.isAdvancedExpanded),
                                      editMode := old(draft.editMode), jsonError := old(draft.jsonError))
    {
      draft := draft.(name := "", nameError := "", description := "", descriptionError := "");
      draft := draft.(toolType := kind);
      draft := draft.(selectedDocuments := [], foldersError := "");
      draft := draft.(url := "", urlError := "", httpMethod := "POST");
      draft := draft.(headers := "", headersError := "", queryParams := "", queryParamsError := "");
      draft := draft.(webhookParameters := "", webhookParametersError := "", awaitResponse := true);
      draft := draft.(clientParameters := "", clientParametersError := "", expandedFolders := [], rawJson := "");
    }

    method HandleNameChange(value: string)
      modifies this
      ensures draft == old(draft).(name := value, nameError := NameErrorFor(value))
    {
      draft := draft.(name := value);
      var validation := ValidateToolName(value);
      if validation.Fail? {
        draft := draft.(nameError := validation.error);
      } else {
        draft := draft.(nameError := "");
      }
    }

    method HandleUrlChange(value: string)
      modifies this
      ensures draft == old(draft).(url := value, urlError := UrlErrorFor(urls, value))
    {
      draft := draft.(url := value);
      if !IsBlank(value) {
        var validation := ValidateUrl(urls, value);
        if validation.Fail? {
          draft := draft.(urlError := validation.error);
        } else {
          draft := draft.(urlError := "");
        }
      } else {
        draft := draft.(urlError := "");
      }
    }

    /** Typing in the description clears its error. */
    method EditDescription(value: string)
      modifies this
      ensures draft == old(draft).(description := value, descriptionError := "")
    {
      draft := draft.(description := value);
      draft := draft.(descriptionError := "");
    }

    /** Typing in the JSON editor clears the JSON error. */
    method EditRawJson(text: string)
      modifies this
      ensures draft == old(draft).(rawJson := text, jsonError := "")
    {
      draft := draft.(rawJson := text);
      draft := draft.(jsonError := "");
    }

    /** The schema builder's `onChange` for a client tool. */
    method EditClientParameters(value: string)
      modifies this
      ensures draft == old(draft).(clientParameters := value, clientParametersError := "")
    {
      draft := draft.(clientParameters := value);
      draft := draft.(clientParametersError := "");
    }

    /** The headers builder's `onChange`. */
    method EditHeaders(value: string)
      modifies this
      ensures draft == old(draft).(headers := value, headersError := "")
    {
      draft := draft.(headers := value);
      draft := draft.(headersError := "");
    }

    /** The query-parameters builder's `onChange`. */
    method EditQueryParams(value: string)
      modifies this
      ensures draft == old(draft).(queryParams := value, queryParamsError := "")
    {
      draft := draft.(queryParams := value);
      draft := draft.(queryParamsError := "");
    }

    /** The body-parameters builder's `onChange`. */
    method EditWebhookParameters(value: string)
      modifies this
      ensures draft == old(draft).(webhookParameters := value, webhookParametersError := "")
    {
      draft := draft.(webhookParameters := value);
      draft := draft.(webhookParametersError := "");
    }

    method HandleSwitchToJson()
      modifies this
      ensures draft == SwitchedToJson(codec, old(draft))
    {
      var json := FormToJson(codec, draft);
      draft := draft.(rawJson := json);
      draft := draft.(editMode := JsonMode);
    }

    /** `jsonToForm`: each field is written as soon as it is read. */
    method JsonToForm(text: string) returns (ok: bool)
      modifies this
      ensures var l := EditorState.JsonToForm(codec, old(draft), text); draft == l.draft && ok == l.ok
    {
      var parsed := codec.parse(text);
      if parsed.SyntaxError? {
        draft := draft.(jsonError := parsed.message);
        return false;
      }
      ok := LoadDocument(parsed.value);
    }

    /** The part of `jsonToForm` after the text parsed. */
    method LoadDocument(p: Json) returns (ok: bool)
      modifies this
      ensures var l := EditorState.LoadDocument(codec, old(draft), p); draft == l.draft && ok == l.ok
    {
      if p.JNull? {
        draft := draft.(jsonError := NullReadMessage("type"));
        return false;
      }
      var kind := Get(p, "type");
      if !Truthy(kind) {
        draft := draft.(jsonError := MissingTypeMessage);
        return false;
      }
      draft := draft.(name := TextOr(codec, Get(p, "name"), ""), description := TextOr(codec, Get(p, "description"), ""));
      if kind.value == JStr("client") {
        draft := draft.(toolType := ClientKind, clientParameters := PrettyOr(codec, Get(p, "parameters")));
        draft := draft.(jsonError := "");
        ok := true;
      } else if kind.value == JStr("server") {
        ok := LoadServer(p);
      } else {
        draft := draft.(jsonError := InvalidTypeMessage(codec.text(kind.value)));
        ok := false;
      }
    }

    /** A server document: the subtype decides which fields are read. */
    method LoadServer(p: Json) returns (ok: bool)
      modifies this
      ensures var l := EditorState.LoadServer(codec, old(draft), p); draft == l.draft && ok == l.ok
    {
      var subtype := Get(p, "subtype");
      if !Truthy(subtype) {
        draft := draft.(jsonError := MissingSubtypeMessage);
        return false;
      }
      if subtype.value == JStr("knowledge") {
        draft := draft.(toolType := KnowledgeKind, selectedDocuments := TextListOr(codec, Get(p, "documentFolderIds")));
      } else if subtype.value == JStr("webhook") {
        draft := draft.(toolType := WebhookKind,
                        url := TextOr(codec, Get(p, "url"), ""),
                        httpMethod := TextOr(codec, Get(p, "method"), "POST"),
                        awaitResponse := AwaitOr(Get(p, "awaitResponse")),
                        headers := PrettyOr(codec, Get(p, "headers")),
                        queryParams := PrettyOr(codec, Get(p, "queryParameters")),
                        webhookParameters := PrettyOr(codec, Get(p, "parameters")));
      } else {
        draft := draft.(jsonError := InvalidSubtypeMessage(codec.text(subtype.value)));
        return false;
      }
      draft := draft.(jsonError := "");
      return true;
    }

    /** `handleSwitchToForm`, with the ownership service's answer as a parameter. */
    method HandleSwitchToForm(service: OwnershipService)
      modifies this
      ensures draft == SwitchedToForm(codec, service, old(draft))
    {
      if IsBlank(draft.rawJson) {
        draft := draft.(editMode := FormMode);
        return;
      }
      var success := JsonToForm(draft.rawJson);
      if !success {
        return;
      }
      var parsed := codec.parse(draft.rawJson);
      var p := parsed.value;
      var ids := TextListOr(codec, Get(p, "documentFolderIds"));
      if IsKnowledgeDocument(p) && |ids| > 0 {
        var folderValidation := ValidateFolderOwnership(service, ids);
        if !folderValidation.valid {
          draft := draft.(jsonError := OwnershipMessage(folderValidation));
          return;
        }
      }
      draft := draft.(editMode := FormMode);
    }

    /** The Save and Cancel buttons are disabled while a save is in flight. */
    predicate CanSave()
      reads this
    {
      !draft.isSaving
    }

    /** `handleSave`, with the ownership service and `onSave` as parameters. */
    method HandleSave(service: OwnershipService, persist: Persistence) returns (sent: seq<Json>, closed: bool)
      requires CanSave()
      modifies this
      ensures var r := Save(codec, urls, service, persist, old(draft));
        SaveOutcome(draft, sent, closed) == r
      ensures CanSave()
    {
      if draft.editMode == JsonMode {
        sent, closed := SaveJson(service, persist);
      } else {
        sent, closed := SaveForm(persist);
      }
    }

    /** `setIsSaving(true)`, `await onSave(tool)`, close on success, and `setIsSaving(false)` in `finally`. */
    method Submit(tool: Json, persist: Persistence, jsonMode: bool) returns (sent: seq<Json>, closed: bool)
      modifies this
      ensures var r := Submitted(old(draft), tool, persist, jsonMode);
        SaveOutcome(draft, sent, closed) == r
    {
      draft := draft.(isSaving := true);
      sent := [tool];
      match persist(tool) {
        case Resolved =>
          closed := true;
        case Rejected(m) =>
          closed := false;
          if jsonMode {
            draft := draft.(jsonError := m);
          }
      }
      draft := draft.(isSaving := false);
    }

    /** The JSON-mode branch of `handleSave`. */
    method SaveJson(service: OwnershipService, persist: Persistence) returns (sent: seq<Json>, closed: bool)
      modifies this
      ensures var r := JsonModeSave(codec, urls, service, persist, old(draft));
        SaveOutcome(draft, sent, closed) == r
    {
      if IsBlank(draft.rawJson) {
        draft := draft.(jsonError := JsonEmpty);
        return [], false;
      }
      var parsed := codec.parse(draft.rawJson);
      if parsed.SyntaxError? {
        draft := draft.(jsonError := parsed.message);
        return [], false;
      }
      sent, closed := SaveDocument(parsed.value, service, persist);
    }

    /** The required fields and the name format of a parsed document. */
    method SaveDocument(p: Json, service: OwnershipService, persist: Persistence) returns (sent: seq<Json>, closed: bool)
      modifies this
      ensures var r := JsonOutcome(old(draft), DocumentPlan(codec, urls, p), service, persist);
        SaveOutcome(draft, sent, closed) == r
    {
      if p.JNull? {
        draft := draft.(jsonError := NullReadMessage("name"));
        return [], false;
      }
      var name := Get(p, "name");
      if !Truthy(name) {
        draft := draft.(jsonError := MissingName);
        return [], false;
      }
      var description := Get(p, "description");
      if !Truthy(description) {
        draft := draft.(jsonError := MissingDescription);
        return [], false;
      }
      if !name.value.JStr? {
        draft := draft.(jsonError := NotAFunctionMessage("name.trim"));
        return [], false;
      }
      var nameValidation := ValidateToolName(name.value.s);
      if nameValidation.Fail? {
        draft := draft.(jsonError := "Invalid name: " + nameValidation.error);
        return [], false;
      }
      sent, closed := SaveKind(p, name.value.s, description.value, service, persist);
    }

    /** The kind's validator, the folder ownership for knowledge tools, then `onSave`. */
    method SaveKind(p: Json, name: string, description: Json, service: OwnershipService, persist: Persistence)
      returns (sent: seq<Json>, closed: bool)
      modifies this
      ensures var r := JsonOutcome(old(draft), KindPlan(codec, urls, p, name, description), service, persist);
        SaveOutcome(draft, sent, closed) == r
    {
      var kind := Get(p, "type");
      var subtype := Get(p, "subtype");
      if kind == Some(JStr("client")) {
        sent, closed := SaveClientJson(p, name, description, service, persist);
      } else if kind == Some(JStr("server")) {
        if subtype == Some(JStr("knowledge")) {
          sent, closed := SaveKnowledgeJson(p, name, description, service, persist);
        } else if subtype == Some(JStr("webhook")) {
          sent, closed := SaveWebhookKind(p, name, description, service, persist);
        } else {
          assert KindPlan(codec, urls, p, name, description) == Refuse(UnknownSubtypeOnSave);
          draft := draft.(jsonError := UnknownSubtypeOnSave);
          return [], false;
        }
      } else {
        assert KindPlan(codec, urls, p, name, description) == Refuse(UnknownTypeOnSave);
        draft := draft.(jsonError := UnknownTypeOnSave);
        return [], false;
      }
    }

    /** A webhook document: its description must be text before the webhook validator runs. */
    method SaveWebhookKind(p: Json, name: string, description: Json, service: OwnershipService,
                           persist: Persistence) returns (sent: seq<Json>, closed: bool)
      requires Get(p, "type") == Some(JStr("server")) && Get(p, "subtype") == Some(JStr("webhook"))
      modifies this
      ensures var r := JsonOutcome(old(draft), KindPlan(codec, urls, p, name, description), service, persist);
        SaveOutcome(draft, sent, closed) == r
    {
      if !description.JStr? {
        draft := draft.(jsonError := NotAFunctionMessage("data.description.trim"));
        return [], false;
      }
      assert KindPlan(codec, urls, p, name, description) == WebhookPlan(codec, urls, p, name, description.s);
      sent, closed := SaveWebhookJson(p, name, description.s, service, persist);
    }

    /** A client document: the client validator over its fields, then `onSave`. */
    method SaveClientJson(p: Json, name: string, description: Json, service: OwnershipService, persist: Persistence)
      returns (sent: seq<Json>, closed: bool)
      requires Get(p, "type") == Some(JStr("client"))
      modifies this
      ensures var r := JsonOutcome(old(draft), KindPlan(codec, urls, p, name, description), service, persist);
        SaveOutcome(draft, sent, closed) == r
    {
      if !description.JStr? {
        draft := draft.(jsonError := NotAFunctionMessage("data.description.trim"));
        return [], false;
      }
      var v := ValidateClientTool(codec, name, description.s, CompactOr(codec, Get(p, "parameters")));
      if !v.valid {
        draft := draft.(jsonError := FirstMessage(v));
        return [], false;
      }
      assert KindPlan(codec, urls, p, name, description) == JsonPlan.Submit(p);
      sent, closed := Submit(p, persist, true);
    }

    /** A knowledge document: the knowledge validator, then the folder ownership, then `onSave`. */
    method SaveKnowledgeJson(p: Json, name: string, description: Json, service: OwnershipService,
                             persist: Persistence) returns (sent: seq<Json>, closed: bool)
      requires Get(p, "type") == Some(JStr("server")) && Get(p, "subtype") == Some(JStr("knowledge"))
      modifies this
      ensures var r := JsonOutcome(old(draft), KindPlan(codec, urls, p, name, description), service, persist);
        SaveOutcome(draft, sent, closed) == r
    {
      if !description.JStr? {
        draft := draft.(jsonError := NotAFunctionMessage("data.description.trim"));
        return [], false;
      }
      var ids := TextListOr(codec, Get(p, "documentFolderIds"));
      var v := ValidateRagTool(name, description.s, ids);
      if !v.valid {
        draft := draft.(jsonError := FirstMessage(v));
        return [], false;
      }
      assert KindPlan(codec, urls, p, name, description) == VerifyFolders(ids, p);
      draft := draft.(isSaving := true);
      var folderValidation := ValidateFolderOwnership(service, ids);
      if !folderValidation.valid {
        draft := draft.(jsonError := OwnershipMessage(folderValidation), isSaving := false);
        return [], false;
      }
      sent, closed := Submit(p, persist, true);
    }

    /** A webhook document: its URL must be text, then the webhook validator decides. */
    method SaveWebhookJson(p: Json, name: string, description: string, service: OwnershipService,
                           persist: Persistence) returns (sent: seq<Json>, closed: bool)
      modifies this
      ensures var r := JsonOutcome(old(draft), WebhookPlan(codec, urls, p, name, description), service, persist);
        SaveOutcome(draft, sent, closed) == r
    {
      var url := Get(p, "url");
      if Truthy(url) && !url.value.JStr? {
        draft := draft.(jsonError := NotAFunctionMessage("url.trim"));
        return [], false;
      }
      var v := ValidateWebhookTool(codec, urls, name, description, TextOr(codec, url, ""),
                                   CompactOr(codec, Get(p, "headers")), CompactOr(codec, Get(p, "queryParameters")),
                                   CompactOr(codec, Get(p, "parameters")));
      if !v.valid {
        draft := draft.(jsonError := FirstMessage(v));
        return [], false;
      }
      assert WebhookPlan(codec, urls, p, name, description) == JsonPlan.Submit(p);
      sent, closed := Submit(p, persist, true);
    }

    /** The form-mode branch of `handleSave`: clear the eight errors, then the kind's checks. */
    method SaveForm(persist: Persistence) returns (sent: seq<Json>, closed: bool)
      modifies this
      ensures var r := FormModeSave(codec, urls, persist, old(draft));
        SaveOutcome(draft, sent, closed) == r
    {
      ghost var before := draft;
      draft := ClearedErrors(draft);
      match draft.toolType {
        case ClientKind =>
          assert FormSavePlan(codec, urls, before) == ClientFormPlan(codec, draft);
          sent, closed := SaveClientForm(persist);
        case KnowledgeKind =>
          assert FormSavePlan(codec, urls, before) == KnowledgeFormPlan(draft);
          sent, closed := SaveKnowledgeForm(persist);
        case WebhookKind =>
          assert FormSavePlan(codec, urls, before) == WebhookFormPlan(codec, urls, draft);
          sent, closed := SaveWebhookForm(persist);
        case SystemKind =>
          sent, closed := [], false;
      }
    }

    method SaveClientForm(persist: Persistence) returns (sent: seq<Json>, closed: bool)
      requires draft.toolType == ClientKind
      modifies this
      ensures var r := FormOutcome(old(draft), ClientFormPlan(codec, old(draft)), persist);
        SaveOutcome(draft, sent, closed) == r
    {
      var v := ValidateClientTool(codec, draft.name, draft.description, draft.clientParameters);
      if !v.valid {
        draft := draft.(nameError := Shown(v.errors.name, draft.nameError),
                        descriptionError := Shown(v.errors.description, draft.descriptionError),
                        clientParametersError := Shown(v.errors.parameters, draft.clientParametersError));
        return [], false;
      }
      sent, closed := SubmitClientForm(persist);
    }

    /** The client form once its fields are valid: the name format, the parameters, `onSave`. */
    method SubmitClientForm(persist: Persistence) returns (sent: seq<Json>, closed: bool)
      requires draft.toolType == ClientKind
      requires ValidateClientTool(codec, draft.name, draft.description, draft.clientParameters).valid
      modifies this
      ensures var r := FormOutcome(old(draft), ClientFormPlan(codec, old(draft)), persist);
        SaveOutcome(draft, sent, closed) == r
    {
      var nameValidation := ValidateToolName(draft.name);
      if nameValidation.Fail? {
        assert ClientFormPlan(codec, draft) == BadName(nameValidation.error);
        draft := draft.(nameError := nameValidation.error);
        return [], false;
      }
      if FailsToParse(codec, draft.clientParameters) {
        assert ClientFormPlan(codec, draft) == BadClientParameters;
        draft := draft.(clientParametersError := JsonBadSyntax);
        return [], false;
      }
      var tool := ClientTool(draft.name, draft.description, ParsedOpt(codec, draft.clientParameters));
      assert ClientFormPlan(codec, draft) == SubmitTool(tool);
      SubmitToolOutcome(draft, tool, persist);
      sent, closed := Submit(ToolJson(tool), persist, false);
    }

    method SaveKnowledgeForm(persist: Persistence) returns (sent: seq<Json>, closed: bool)
      requires draft.toolType == KnowledgeKind
      modifies this
      ensures var r := FormOutcome(old(draft), KnowledgeFormPlan(old(draft)), persist);
        SaveOutcome(draft, sent, closed) == r
    {
      var v := ValidateRagTool(draft.name, draft.description, draft.selectedDocuments);
      if !v.valid {
        draft := draft.(nameError := Shown(v.errors.name, draft.nameError),
                        descriptionError := Shown(v.errors.description, draft.descriptionError),
                        foldersError := Shown(v.errors.folders, draft.foldersError));
        return [], false;
      }
      sent, closed := SubmitKnowledgeForm(persist);
    }

    /** The knowledge form once its fields are valid: the name format, then `onSave`. */
    method SubmitKnowledgeForm(persist: Persistence) returns (sent: seq<Json>, closed: bool)
      requires draft.toolType == KnowledgeKind
      requires ValidateRagTool(draft.name, draft.description, draft.selectedDocuments).valid
      modifies this
      ensures var r := FormOutcome(old(draft), KnowledgeFormPlan(old(draft)), persist);
        SaveOutcome(draft, sent, closed) == r
    {
      var nameValidation := ValidateToolName(draft.name);
      if nameValidation.Fail? {
        assert KnowledgeFormPlan(draft) == BadName(nameValidation.error);
        draft := draft.(nameError := nameValidation.error);
        return [], false;
      }
      var tool := KnowledgeTool(draft.name, draft.description, draft.selectedDocuments);
      assert KnowledgeFormPlan(draft) == SubmitTool(tool);
      SubmitToolOutcome(draft, tool, persist);
      sent, closed := Submit(ToolJson(tool), persist, false);
    }

    method SaveWebhookForm(persist: Persistence) returns (sent: seq<Json>, closed: bool)
      requires draft.toolType == WebhookKind
      modifies this
      ensures var r := FormOutcome(old(draft), WebhookFormPlan(codec, urls, old(draft)), persist);
        SaveOutcome(draft, sent, closed) == r
    {
      var v := ValidateWebhookTool(codec, urls, draft.name, draft.description, draft.url, draft.headers,
                                   draft.queryParams, draft.webhookParameters);
      if !v.valid {
        draft := draft.(nameError := Shown(v.errors.name, draft.nameError),
                        descriptionError := Shown(v.errors.description, draft.descriptionError),
                        urlError := Shown(v.errors.url, draft.urlError),
                        headersError := Shown(v.errors.headers, draft.headersError),
                        queryParamsError := Shown(v.errors.queryParameters, draft.queryParamsError),
                        webhookParametersError := Shown(v.errors.parameters, draft.webhookParametersError));
        return [], false;
      }
      sent, closed := SubmitWebhookForm(persist);
    }

    /** The webhook form once its fields are valid: the name format, the JSON sub-fields, `onSave`. */
    method SubmitWebhookForm(persist: Persistence) returns (sent: seq<Json>, closed: bool)
      requires draft.toolType == WebhookKind
      requires ValidateWebhookTool(codec, urls, draft.name, draft.description, draft.url, draft.headers,
                                   draft.queryParams, draft.webhookParameters).valid
      modifies this
      ensures var r := FormOutcome(old(draft), WebhookFormPlan(codec, urls, old(draft)), persist);
        SaveOutcome(draft, sent, closed) == r
    {
      var nameValidation := ValidateToolName(draft.name);
      if nameValidation.Fail? {
        assert WebhookFormPlan(codec, urls, draft) == BadName(nameValidation.error);
        draft := draft.(nameError := nameValidation.error);
        return [], false;
      }
      sent, closed := SendWebhookForm(persist);
    }

    /** The webhook form once its name is also valid: the JSON sub-fields are parsed, then `onSave`. */
    method SendWebhookForm(persist: Persistence) returns (sent: seq<Json>, closed: bool)
      requires draft.toolType == WebhookKind
      requires ValidateWebhookTool(codec, urls, draft.name, draft.description, draft.url, draft.headers,
                                   draft.queryParams, draft.webhookParameters).valid
      requires ValidateToolName(draft.name).Pass?
      modifies this
      ensures var r := FormOutcome(old(draft), WebhookFormPlan(codec, urls, old(draft)), persist);
        SaveOutcome(draft, sent, closed) == r
    {
      if FailsToParse(codec, draft.headers) || FailsToParse(codec, draft.queryParams)
         || FailsToParse(codec, draft.webhookParameters) {
        assert WebhookFormPlan(codec, urls, draft) == BadWebhookJson;
        return [], false;
      }
      sent, closed := SubmitParsedWebhook(persist);
    }

    /** The webhook form once every check passed: the tool is built from the parsed sub-fields and saved. */
    method SubmitParsedWebhook(persist: Persistence) returns (sent: seq<Json>, closed: bool)
      requires draft.toolType == WebhookKind
      requires ValidateWebhookTool(codec, urls, draft.name, draft.description, draft.url, draft.headers,
                                   draft.queryParams, draft.webhookParameters).valid
      requires ValidateToolName(draft.name).Pass?
      requires !FailsToParse(codec, draft.headers) && !FailsToParse(codec, draft.queryParams)
      requires !FailsToParse(codec, draft.webhookParameters)
      modifies this
      ensures var r := FormOutcome(old(draft), WebhookFormPlan(codec, urls, old(draft)), persist);
        SaveOutcome(draft, sent, closed) == r
    {
      var tool := WebhookTool(draft.name, draft.description, draft.url, draft.httpMethod,
                              ParsedOpt(codec, draft.headers), ParsedOpt(codec, draft.queryParams),
                              ParsedOpt(codec, draft.webhookParameters), Some(draft.awaitResponse));
      WebhookPlanSubmits(codec, urls, draft, persist);
      sent, closed := Submit(ToolJson(tool), persist, false);
    }

    /** `toggleFolder`: expand or collapse a folder in the list. */
    method ToggleFolder(folderId: string)
      modifies this
      ensures draft == old(draft).(expandedFolders := ToggleExpanded(old(draft.expandedFolders), folderId))
    {
      if folderId in draft.expandedFolders {
        draft := draft.(expandedFolders := Without(draft.expandedFolders, folderId));
      } else {
        draft := draft.(expandedFolders := draft.expandedFolders + [folderId]);
      }
    }

    /** `isFolderSelected`. */
    predicate IsFolderSelected(folderId: string)
      reads this
    {
      folderId in draft.selectedDocuments
    }

    /** `toggleFolderSelection`. */
    method ToggleFolderSelection(folderId: string)
      modifies this
      ensures draft == old(draft).(selectedDocuments := ToggleSelected(old(draft.selectedDocuments), folderId))
    {
      if IsFolderSelected(folderId) {
        draft := draft.(selectedDocuments := Without(draft.selectedDocuments, folderId));
      } else {
        draft := draft.(selectedDocuments := Dedup(draft.selectedDocuments + [folderId]));
      }
    }

    /** A click on a folder row or its checkbox: toggle it and clear the folders error. */
    method ClickFolder(folderId: string)
      modifies this
      ensures draft == old(draft).(selectedDocuments := ToggleSelected(old(draft.selectedDocuments), folderId),
                                   foldersError := "")
    {
      ToggleFolderSelection(folderId);
      draft := draft.(foldersError := "");
    }

    method HandleToolTypeChange(value: string)
      modifies this
      ensures KindNamed(value).Some? ==> draft == old(draft).(toolType := KindNamed(value).value)
      ensures KindNamed(value).None? ==> draft == old(draft)
      ensures KindNamed(value).Some? ==> KindValue(draft.toolType) == value
    {
      if value == "client" {
        draft := draft.(toolType := ClientKind);
      } else if value == "knowledge" {
        draft := draft.(toolType := KnowledgeKind);
      } else if value == "webhook" {
        draft := draft.(toolType := WebhookKind);
      } else if value == "system" {
        draft := draft.(toolType := SystemKind);
      }
    }
  }
}
