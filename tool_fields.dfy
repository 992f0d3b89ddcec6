/**
 * The per-kind field validators of lib/validation/tool-fields.ts. Each
 * validator checks every field and reports all failures together.
 */
module ToolFields {
  import opened Wrappers
  import opened JsText
  import opened Json
  import opened ToolName

  const UrlRequired := "URL is required"
  const UrlBadProtocol := "URL must use HTTP or HTTPS protocol"
  const UrlMalformed := "Invalid URL format"
  const JsonBadSyntax := "Invalid JSON syntax"
  const DescriptionRequired := "Description is required"
  const FoldersRequired := "At least one folder must be selected"

  /** `new URL(url).protocol`; `None` when the constructor throws. */
  type UrlParser = string -> Option<string>

  /**
   * The `errors` record of `ValidationResult`, one optional message per
   * field. Every validator assigns its fields in this declaration order, so
   * this is also the order of `Object.values(errors)`.
   */
  datatype Errors = Errors(
    name: Option<string>,
    description: Option<string>,
    url: Option<string>,
    headers: Option<string>,
    queryParameters: Option<string>,
    parameters: Option<string>,
    folders: Option<string>)

  const NoErrors := Errors(None, None, None, None, None, None, None)

  datatype ValidationResult = ValidationResult(valid: bool, errors: Errors)

  /** The messages of an error record in the order its fields are declared. */
  function Slots(e: Errors): seq<Option<string>>
  {
    [e.name, e.description, e.url, e.headers, e.queryParameters, e.parameters, e.folders]
  }

  /** `Object.values(errors).find((e) => e)`: the first message in field order. */
  function FirstError(e: Errors): (r: Option<string>)
    ensures r.None? <==> e == NoErrors
    ensures r.Some? ==> exists i :: 0 <= i < |Slots(e)| && Slots(e)[i] == r && forall k :: 0 <= k < i ==> Slots(e)[k].None?
  {
    var s := Slots(e);
    if e.name.Some? then assert s[0] == e.name; e.name
    else if e.description.Some? then assert s[1] == e.description; e.description
    else if e.url.Some? then assert s[2] == e.url; e.url
    else if e.headers.Some? then assert s[3] == e.headers; e.headers
    else if e.queryParameters.Some? then assert s[4] == e.queryParameters; e.queryParameters
    else if e.parameters.Some? then assert s[5] == e.parameters; e.parameters
    else assert s[6] == e.folders; e.folders
  }

  /** Every message a validator can produce. */
  predicate KnownMessage(m: string)
  {
    m in {NameRequired, DescriptionRequired, UrlRequired, UrlBadProtocol, UrlMalformed, JsonBadSyntax, FoldersRequired}
  }

  predicate KnownMessages(e: Errors)
  {
    && (e.name.Some? ==> KnownMessage(e.name.value))
    && (e.description.Some? ==> KnownMessage(e.description.value))
    && (e.url.Some? ==> KnownMessage(e.url.value))
    && (e.headers.Some? ==> KnownMessage(e.headers.value))
    && (e.queryParameters.Some? ==> KnownMessage(e.queryParameters.value))
    && (e.parameters.Some? ==> KnownMessage(e.parameters.value))
    && (e.folders.Some? ==> KnownMessage(e.folders.value))
  }

  /** Blank is "URL is required"; otherwise the text must parse with protocol http: or https:. */
  function ValidateUrl(urls: UrlParser, url: string): (r: Check)
    ensures r == Fail(UrlRequired) <==> IsBlank(url)
    ensures !IsBlank(url) && urls(url).None? ==> r == Fail(UrlMalformed)
    ensures !IsBlank(url) && urls(url).Some? ==> (r.Pass? <==> urls(url).value in {"http:", "https:"})
    ensures r.Fail? ==> r.error in {UrlRequired, UrlBadProtocol, UrlMalformed}
  {
    if IsBlank(url) then Fail(UrlRequired)
    else match urls(url)
      case None => Fail(UrlMalformed)
      case Some(protocol) => if protocol in ["http:", "https:"] then Pass else Fail(UrlBadProtocol)
  }

  /** Blank text is accepted as "absent"; other text must parse as JSON. */
  function ValidateJsonString(c: JsonCodec, value: string): (r: Check)
    ensures r.Pass? <==> IsBlank(value) || c.parse(value).Parsed?
    ensures r.Fail? ==> r.error == JsonBadSyntax
  {
    if IsBlank(value) then Pass
    else if c.parse(value).Parsed? then Pass
    else Fail(JsonBadSyntax)
  }

  /** The error recorded for a check that ran. */
  function Failure(r: Check): Option<string>
  {
    if r.Fail? then Some(r.error) else None
  }

  /** `if (value) { ... validateJsonString(value) ... }`: only a non-empty string is checked. */
  function OptionalJson(c: JsonCodec, value: string): (r: Option<string>)
    ensures r.Some? <==> !IsBlank(value) && c.parse(value).SyntaxError?
    ensures r.Some? ==> r.value == JsonBadSyntax
  {
    if value != "" then Failure(ValidateJsonString(c, value)) else None
  }

  /** `if (!value.trim()) errors.x = message`: a blank value gives the message, any other none. */
  function Required(value: string, message: string): (r: Option<string>)
    ensures r.Some? <==> IsBlank(value)
    ensures r.Some? ==> r.value == message
  {
    if IsBlank(value) then Some(message) else None
  }

  function Verdict(e: Errors): (r: ValidationResult)
    ensures r.errors == e
    ensures r.valid <==> e == NoErrors
  {
    ValidationResult(e == NoErrors, e)
  }

  function ValidateClientTool(c: JsonCodec, name: string, description: string, parameters: string): (r: ValidationResult)
    ensures r.valid <==> r.errors == NoErrors
    ensures r.errors.name.Some? <==> IsBlank(name)
    ensures r.errors.description.Some? <==> IsBlank(description)
    ensures r.errors.parameters.Some? <==> !IsBlank(parameters) && c.parse(parameters).SyntaxError?
    ensures r.errors.url.None? && r.errors.headers.None? && r.errors.queryParameters.None? && r.errors.folders.None?
    ensures KnownMessages(r.errors)
  {
    Verdict(NoErrors.(
      name := Required(name, NameRequired),
      description := Required(description, DescriptionRequired),
      parameters := OptionalJson(c, parameters)))
  }

  function ValidateRagTool(name: string, description: string, documentFolderIds: seq<string>): (r: ValidationResult)
    ensures r.valid <==> r.errors == NoErrors
    ensures r.errors.name.Some? <==> IsBlank(name)
    ensures r.errors.description.Some? <==> IsBlank(description)
    ensures r.errors.folders.Some? <==> documentFolderIds == []
    ensures r.errors.url.None? && r.errors.headers.None? && r.errors.queryParameters.None? && r.errors.parameters.None?
    ensures KnownMessages(r.errors)
  {
    Verdict(NoErrors.(
      name := Required(name, NameRequired),
      description := Required(description, DescriptionRequired),
      folders := if |documentFolderIds| == 0 then Some(FoldersRequired) else None))
  }

  function ValidateWebhookTool(c: JsonCodec, urls: UrlParser, name: string, description: string, url: string,
                               headers: string, queryParameters: string, parameters: string): (r: ValidationResult)
    ensures r.valid <==> r.errors == NoErrors
    ensures r.errors.name.Some? <==> IsBlank(name)
    ensures r.errors.description.Some? <==> IsBlank(description)
    ensures r.errors.url == Failure(ValidateUrl(urls, url))
    ensures r.errors.headers.Some? <==> !IsBlank(headers) && c.parse(headers).SyntaxError?
    ensures r.errors.queryParameters.Some? <==> !IsBlank(queryParameters) && c.parse(queryParameters).SyntaxError?
    ensures r.errors.parameters.Some? <==> !IsBlank(parameters) && c.parse(parameters).SyntaxError?
    ensures r.errors.folders.None?
    ensures KnownMessages(r.errors)
  {
    Verdict(NoErrors.(
      name := Required(name, NameRequired),
      description := Required(description, DescriptionRequired),
      url := Failure(ValidateUrl(urls, url)),
      headers := OptionalJson(c, headers),
      queryParameters := OptionalJson(c, queryParameters),
      parameters := OptionalJson(c, parameters)))
  }

  /** Whitespace-only JSON text passes the validator although `JSON.parse` rejects it. */
  lemma {:induction false} BlankJsonPassesButDoesNotParse(c: JsonCodec, value: string)
    requires RefusesBlank(c)
    requires IsBlank(value)
    ensures ValidateJsonString(c, value).Pass?
    ensures c.parse(value).SyntaxError?
  {
  }

  /** Printed JSON always passes, so a sub-field re-printed from a parsed value never fails the check. */
  lemma {:induction false} PrintedJsonIsValid(c: JsonCodec, j: Json)
    requires ReadsBackCompact(c) && WellFormed(j)
    ensures ValidateJsonString(c, c.stringify(j)).Pass?
    ensures OptionalJson(c, c.stringify(j)).None?
  {
    assert c.parse(c.stringify(j)) == Parsed(Nulled(j));
  }

  lemma UrlExamples(urls: UrlParser)
    requires urls("ftp://x.com") == Some("ftp:")
    requires urls("https://api.x.com") == Some("https:")
    ensures ValidateUrl(urls, "ftp://x.com") == Fail(UrlBadProtocol)
    ensures ValidateUrl(urls, "https://api.x.com") == Pass
  {
    assert !IsWhitespace("ftp://x.com"[0]);
    assert !IsWhitespace("https://api.x.com"[0]);
  }
}
