/** The `Tool` union of lib/types/session.ts and its JSON form. */
module ToolTypes {
  import opened Wrappers
  import opened Json

  /**
   * A client function, a knowledge search over folders, or a webhook call.
   * The source declares `method` as one of GET, POST, PUT, PATCH and DELETE,
   * but the editor passes its text field through unchecked, so it is text here
   * (`httpMethod`, because `method` is a Dafny keyword).
   */
  datatype Tool =
    | ClientTool(name: string, description: string, parameters: Option<Json>)
    | KnowledgeTool(name: string, description: string, documentFolderIds: seq<string>)
    | WebhookTool(name: string, description: string, url: string, httpMethod: string,
                  headers: Option<Json>, queryParameters: Option<Json>, parameters: Option<Json>,
                  awaitResponse: Option<bool>)

  function OptBool(v: Option<bool>): Option<Json>
  {
    if v.Some? then Some(JBool(v.value)) else None
  }

  function ClientJson(name: string, description: string, parameters: Option<Json>): (j: Json)
    ensures j.JObj?
    ensures Get(j, "type") == Some(JStr("client")) && Get(j, "subtype").None?
    ensures Get(j, "name") == Some(JStr(name)) && Get(j, "description") == Some(JStr(description))
    ensures Get(j, "parameters") == parameters
  {
    PutOpt(ClientHead(name, description), "parameters", parameters)
  }

  /** The members every client tool has, in order: tag, name and description. */
  function ClientHead(name: string, description: string): (o: Json)
    ensures o.JObj?
    ensures Get(o, "type") == Some(JStr("client")) && Get(o, "subtype").None?
    ensures Get(o, "name") == Some(JStr(name)) && Get(o, "description") == Some(JStr(description))
    ensures Get(o, "parameters").None?
  {
    JObj(["type", "name", "description"],
         map["type" := JStr("client"), "name" := JStr(name), "description" := JStr(description)])
  }

  function KnowledgeJson(name: string, description: string, ids: seq<string>): (j: Json)
    ensures j.JObj?
    ensures Get(j, "type") == Some(JStr("server")) && Get(j, "subtype") == Some(JStr("knowledge"))
    ensures Get(j, "name") == Some(JStr(name)) && Get(j, "description") == Some(JStr(description))
    ensures Get(j, "documentFolderIds") == Some(StrArray(ids))
  {
    Put(KnowledgeHead(name, description), "documentFolderIds", StrArray(ids))
  }

  /** The members every knowledge tool starts with, in order: tag, name and description. */
  function KnowledgeHead(name: string, description: string): (o: Json)
    ensures o.JObj?
    ensures Get(o, "type") == Some(JStr("server")) && Get(o, "subtype") == Some(JStr("knowledge"))
    ensures Get(o, "name") == Some(JStr(name)) && Get(o, "description") == Some(JStr(description))
    ensures Get(o, "documentFolderIds").None?
  {
    JObj(["type", "subtype", "name", "description"],
         map["type" := JStr("server"), "subtype" := JStr("knowledge"), "name" := JStr(name),
             "description" := JStr(description)])
  }

  function WebhookJson(name: string, description: string, url: string, httpMethod: string,
                       headers: Option<Json>, queryParameters: Option<Json>, parameters: Option<Json>,
                       awaitResponse: Option<bool>): (j: Json)
    ensures j.JObj?
    ensures Get(j, "type") == Some(JStr("server")) && Get(j, "subtype") == Some(JStr("webhook"))
    ensures Get(j, "name") == Some(JStr(name)) && Get(j, "description") == Some(JStr(description))
    ensures Get(j, "url") == Some(JStr(url)) && Get(j, "method") == Some(JStr(httpMethod))
    ensures Get(j, "awaitResponse") == OptBool(awaitResponse)
    ensures Get(j, "headers") == headers && Get(j, "queryParameters") == queryParameters
    ensures Get(j, "parameters") == parameters
  {
    WebhookOptions(WebhookHead(name, description, url, httpMethod), headers, queryParameters, parameters,
                   OptBool(awaitResponse))
  }

  /** The members every webhook has, in order: tag, name, description, address and method. */
  function WebhookHead(name: string, description: string, url: string, httpMethod: string): (o: Json)
    ensures o.JObj?
    ensures Get(o, "type") == Some(JStr("server")) && Get(o, "subtype") == Some(JStr("webhook"))
    ensures Get(o, "name") == Some(JStr(name)) && Get(o, "description") == Some(JStr(description))
    ensures Get(o, "url") == Some(JStr(url)) && Get(o, "method") == Some(JStr(httpMethod))
    ensures Get(o, "awaitResponse").None? && Get(o, "headers").None?
    ensures Get(o, "queryParameters").None? && Get(o, "parameters").None?
  {
    JObj(["type", "subtype", "name", "description", "url", "method"],
         map["type" := JStr("server"), "subtype" := JStr("webhook"), "name" := JStr(name),
             "description" := JStr(description), "url" := JStr(url), "method" := JStr(httpMethod)])
  }

  /** The webhook members that are written only when defined. */
  function WebhookOptions(o: Json, headers: Option<Json>, queryParameters: Option<Json>, parameters: Option<Json>,
                          awaitResponse: Option<Json>): (r: Json)
    requires o.JObj?
    ensures r.JObj?
    ensures forall k :: k != "headers" && k != "queryParameters" && k != "parameters" && k != "awaitResponse"
                        ==> Get(r, k) == Get(o, k)
    ensures Get(r, "awaitResponse") == (if awaitResponse.Some? then awaitResponse else Get(o, "awaitResponse"))
    ensures Get(r, "headers") == (if headers.Some? then headers else Get(o, "headers"))
    ensures Get(r, "queryParameters") == (if queryParameters.Some? then queryParameters else Get(o, "queryParameters"))
    ensures Get(r, "parameters") == (if parameters.Some? then parameters else Get(o, "parameters"))
  {
    var o := PutOpt(PutOpt(o, "headers", headers), "queryParameters", queryParameters);
    PutOpt(PutOpt(o, "parameters", parameters), "awaitResponse", awaitResponse)
  }

  /** The object the editor builds for a tool, in the editor's member order. */
  function ToolJson(t: Tool): (j: Json)
    ensures j.JObj?
    ensures Get(j, "name") == Some(JStr(t.name)) && Get(j, "description") == Some(JStr(t.description))
    ensures Get(j, "type") == Some(JStr(if t.ClientTool? then "client" else "server"))
  {
    match t
    case ClientTool(name, description, parameters) => ClientJson(name, description, parameters)
    case KnowledgeTool(name, description, ids) => KnowledgeJson(name, description, ids)
    case WebhookTool(name, description, url, httpMethod, headers, queryParameters, parameters, awaitResponse) =>
      WebhookJson(name, description, url, httpMethod, headers, queryParameters, parameters, awaitResponse)
  }
}
