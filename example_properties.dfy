/**
 * The example documents an empty form shows are plain JSON: their keys are
 * distinct words, which JavaScript keeps in the order written, and they hold
 * no number, so printing and parsing them gives them back unchanged.
 */
module ExampleProperties {
  import opened Wrappers
  import opened JsText
  import opened Json
  import opened EditorState

  /** Distinct keys that all start with a letter, so none of them is an array index. */
  predicate PlainKeys(keys: seq<string>)
  {
    DistinctKeys(keys) && forall key :: key in keys ==> key != [] && !IsDigit(key[0])
  }

  /** One member per key, each well formed and free of numbers. */
  ghost predicate PlainMembers(keys: seq<string>, fields: map<string, Json>)
  {
    && (forall key :: key in keys <==> key in fields)
    && (forall key :: key in fields ==> WellFormed(fields[key]) && AllFinite(fields[key]))
  }

  /** An object with plain keys and plain members is well formed and free of numbers. */
  lemma PlainObject(keys: seq<string>, fields: map<string, Json>)
    requires PlainKeys(keys) && PlainMembers(keys, fields)
    ensures WellFormed(JObj(keys, fields)) && AllFinite(JObj(keys, fields))
  {
  }

  /** Members that are strings, but for one that is plain itself, are plain. */
  lemma TextMembersBut(keys: seq<string>, fields: map<string, Json>, other: string)
    requires forall key :: key in keys <==> key in fields
    requires forall key :: key in fields && key != other ==> fields[key].JStr?
    requires other in fields ==> WellFormed(fields[other]) && AllFinite(fields[other])
    ensures PlainMembers(keys, fields)
  {
  }

  lemma ParameterKeys()
    ensures PlainKeys(ExampleParameter().keys)
  {
  }

  lemma ParameterMembers()
    ensures PlainMembers(ExampleParameter().keys, ExampleParameter().fields)
  {
  }

  /** The parameter of the client example's schema is plain. */
  lemma ParameterIsPlain()
    ensures WellFormed(ExampleParameter()) && AllFinite(ExampleParameter())
  {
    ParameterKeys();
    ParameterMembers();
    PlainObject(ExampleParameter().keys, ExampleParameter().fields);
  }

  /** The `properties` member of the client example's schema is plain. */
  lemma PropertiesIsPlain()
    ensures var p := JObj(["param1"], map["param1" := ExampleParameter()]); WellFormed(p) && AllFinite(p)
  {
    ParameterIsPlain();
    var p := JObj(["param1"], map["param1" := ExampleParameter()]);
    PlainObject(p.keys, p.fields);
  }

  lemma SchemaKeys()
    ensures PlainKeys(ExampleSchema().keys)
  {
  }

  lemma SchemaMembers()
    ensures PlainMembers(ExampleSchema().keys, ExampleSchema().fields)
  {
    PropertiesIsPlain();
  }

  /** The client example's parameter schema is plain. */
  lemma SchemaIsPlain()
    ensures WellFormed(ExampleSchema()) && AllFinite(ExampleSchema())
  {
    SchemaKeys();
    SchemaMembers();
    PlainObject(ExampleSchema().keys, ExampleSchema().fields);
  }

  lemma ClientKeys()
    ensures PlainKeys(ClientExample().keys)
  {
  }

  lemma ClientTextMembers()
    ensures var e := ClientExample(); forall key :: key in e.fields && key != "parameters" ==> e.fields[key].JStr?
  {
  }

  lemma ClientKeysMatch()
    ensures var e := ClientExample(); forall key :: key in e.keys <==> key in e.fields
  {
  }

  lemma ClientMembers()
    ensures PlainMembers(ClientExample().keys, ClientExample().fields)
  {
    SchemaIsPlain();
    ClientExampleFields();
    ClientTextMembers();
    ClientKeysMatch();
    TextMembersBut(ClientExample().keys, ClientExample().fields, "parameters");
  }

  /** The client example is plain. */
  lemma ClientIsPlain()
    ensures WellFormed(ClientExample()) && AllFinite(ClientExample())
  {
    ClientKeys();
    ClientMembers();
    PlainObject(ClientExample().keys, ClientExample().fields);
  }

  lemma KnowledgeKeys()
    ensures PlainKeys(KnowledgeExample().keys)
  {
  }

  lemma KnowledgeMembers()
    ensures PlainMembers(KnowledgeExample().keys, KnowledgeExample().fields)
  {
  }

  /** The knowledge example is plain. */
  lemma KnowledgeIsPlain()
    ensures WellFormed(KnowledgeExample()) && AllFinite(KnowledgeExample())
  {
    KnowledgeKeys();
    KnowledgeMembers();
    PlainObject(KnowledgeExample().keys, KnowledgeExample().fields);
  }

  lemma WebhookKeys()
    ensures PlainKeys(WebhookExample().keys)
  {
  }

  lemma WebhookMembers()
    ensures PlainMembers(WebhookExample().keys, WebhookExample().fields)
  {
  }

  /** The webhook example is plain. */
  lemma WebhookIsPlain()
    ensures WellFormed(WebhookExample()) && AllFinite(WebhookExample())
  {
    WebhookKeys();
    WebhookMembers();
    PlainObject(WebhookExample().keys, WebhookExample().fields);
  }

  /** A plain document prints to text that parses back to it unchanged. */
  lemma PlainReadsBack(c: JsonCodec, e: Json)
    requires ReadsBackPretty(c) && WellFormed(e) && AllFinite(e)
    ensures c.parse(c.pretty(e)) == Parsed(e)
  {
  }

  /** The client example reads back unchanged. */
  lemma ClientExampleReadsBack(c: JsonCodec)
    requires ReadsBackPretty(c)
    ensures c.parse(c.pretty(ClientExample())) == Parsed(ClientExample())
  {
    ClientIsPlain();
    PlainReadsBack(c, ClientExample());
  }

  /** The knowledge example reads back unchanged. */
  lemma KnowledgeExampleReadsBack(c: JsonCodec)
    requires ReadsBackPretty(c)
    ensures c.parse(c.pretty(KnowledgeExample())) == Parsed(KnowledgeExample())
  {
    KnowledgeIsPlain();
    PlainReadsBack(c, KnowledgeExample());
  }

  /** The webhook example reads back unchanged. */
  lemma WebhookExampleReadsBack(c: JsonCodec)
    requires ReadsBackPretty(c)
    ensures c.parse(c.pretty(WebhookExample())) == Parsed(WebhookExample())
  {
    WebhookIsPlain();
    PlainReadsBack(c, WebhookExample());
  }

  /** What the form reads from the client example. */
  lemma ClientExampleFields()
    ensures var p := ClientExample();
      && Get(p, "type") == Some(JStr("client"))
      && Get(p, "name") == Some(JStr("my_client_tool"))
      && Get(p, "description") == Some(JStr("Describe when the AI should call this client-side function"))
      && Get(p, "parameters") == Some(ExampleSchema())
  {
  }

  /** What the form reads from the knowledge example. */
  lemma KnowledgeExampleFields()
    ensures var p := KnowledgeExample();
      && Get(p, "type") == Some(JStr("server")) && Get(p, "subtype") == Some(JStr("knowledge"))
      && Get(p, "name") == Some(JStr("search_knowledge"))
      && Get(p, "description") == Some(JStr("Search the knowledge base when the user asks for information"))
      && Get(p, "documentFolderIds") == Some(StrArray([]))
  {
  }

  /** What the form reads from the webhook example: the three sub-fields are missing. */
  lemma WebhookExampleFields()
    ensures var p := WebhookExample();
      && Get(p, "type") == Some(JStr("server")) && Get(p, "subtype") == Some(JStr("webhook"))
      && Get(p, "name") == Some(JStr("call_api"))
      && Get(p, "description") == Some(JStr("Call an external API when the user requests specific action"))
      && Get(p, "url") == Some(JStr("https://api.example.com/endpoint")) && Get(p, "method") == Some(JStr("POST"))
      && Get(p, "awaitResponse") == Some(JBool(true))
      && Get(p, "headers").None? && Get(p, "queryParameters").None? && Get(p, "parameters").None?
  {
  }
}
