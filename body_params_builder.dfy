/**
 * components/body-params-builder.tsx: a webhook's body parameters edited as
 * an ordered list of rows, read from and written back to a JSON Schema
 * `object` with `properties` and an optional `required` list.
 */
module BodyParamsBuilder {
  import opened Wrappers
  import opened JsText
  import opened Json

  datatype ValueType = LlmPrompt | StaticValue

  /**
   * One parameter row. `dataType` and `description` keep whatever the parsed
   * schema held (the source casts without converting); rows edited in the
   * form hold strings there.
   */
  datatype BodyParam = BodyParam(
    id: string,
    dataType: Json,
    identifier: string,
    required: bool,
    valueType: ValueType,
    description: Json,
    enumValues: seq<Json>)

  /** `updateParam(id, field, value)`: which field of the matching rows is written. */
  datatype ParamEdit =
    | SetDataType(dataType: string)
    | SetIdentifier(identifier: string)
    | SetRequired(required: bool)
    | SetValueType(valueType: ValueType)
    | SetDescription(description: string)
    | SetEnumValues(values: seq<Json>)

  // ---------------------------------------------------------------- reading

  /**
   * `parsed.required?.includes(key) || false`: an array lists the key, a
   * string contains it; on any other non-nullish value the call throws (`None`).
   */
  function ListedAsRequired(required: Option<Json>, key: string): (r: Option<bool>)
    ensures Nullish(required) ==> r == Some(false)
    ensures !Nullish(required) && required.value.JArr? ==> r == Some(JStr(key) in required.value.items)
    ensures r.None? <==> !Nullish(required) && !required.value.JArr? && !required.value.JStr?
  {
    if Nullish(required) then Some(false)
    else match required.value
      case JArr(items) => Some(JStr(key) in items)
      case JStr(s) => Some(Includes(s, key))
      case _ => None
  }

  /** Reading an entry does not throw: its value is not `null` and the `required` test can run. */
  predicate Readable(entries: seq<Member>, required: Option<Json>)
  {
    forall i :: 0 <= i < |entries| ==> !entries[i].value.JNull? && ListedAsRequired(required, entries[i].key).Some?
  }

  /** `val.enum || []`; an array's elements, and nothing for any other value. */
  function EnumOf(v: Option<Json>): seq<Json>
  {
    if Truthy(v) && v.value.JArr? then v.value.items else []
  }

  /** The row for one `properties` entry, with the defaults for missing parts. */
  function ParamOf(entry: Member, required: Option<Json>, id: string): (p: BodyParam)
    requires ListedAsRequired(required, entry.key).Some?
    ensures p.identifier == entry.key && p.valueType == LlmPrompt && p.id == id
    ensures p.dataType == (if Truthy(Get(entry.value, "type")) then Get(entry.value, "type").value else JStr("string"))
    ensures p.description == (if Truthy(Get(entry.value, "description")) then Get(entry.value, "description").value
                              else JStr(""))
    ensures p.enumValues == EnumOf(Get(entry.value, "enum"))
    ensures p.required == ListedAsRequired(required, entry.key).value
  {
    var v := entry.value;
    BodyParam(
      id,
      if Truthy(Get(v, "type")) then Get(v, "type").value else JStr("string"),
      entry.key,
      ListedAsRequired(required, entry.key).value,
      LlmPrompt,
      if Truthy(Get(v, "description")) then Get(v, "description").value else JStr(""),
      EnumOf(Get(v, "enum")))
  }

  /** `Object.entries(properties).map(...)`; `ids(i)` is the generated id of row `i`. */
  function ParamsOf(entries: seq<Member>, required: Option<Json>, ids: nat -> string): (ps: seq<BodyParam>)
    requires Readable(entries, required)
    ensures |ps| == |entries|
    ensures forall i :: 0 <= i < |entries| ==> ps[i] == ParamOf(entries[i], required, ids(i))
  {
    seq(|entries|, i requires 0 <= i < |entries| && Readable(entries, required) =>
      ParamOf(entries[i], required, ids(i)))
  }

  /**
   * The initial rows: none for empty text, for text that does not parse, for a
   * document that is not `type: "object"` with truthy `properties`, and when
   * reading an entry throws; otherwise one row per `properties` entry.
   */
  function InitialParams(c: JsonCodec, value: string, ids: nat -> string): (ps: seq<BodyParam>)
    ensures value == "" || c.parse(value).SyntaxError? ==> ps == []
    ensures c.parse(value).Parsed? && !IsObjectSchema(c.parse(value).value) ==> ps == []
    ensures value != "" && c.parse(value).Parsed? && IsObjectSchema(c.parse(value).value) ==>
      var parsed := c.parse(value).value;
      var entries := Entries(Get(parsed, "properties").value);
      var required := Get(parsed, "required");
      && (Readable(entries, required) ==> ps == ParamsOf(entries, required, ids))
      && (!Readable(entries, required) ==> ps == [])
  {
    if value == "" then []
    else match c.parse(value)
      case SyntaxError(_) => []
      case Parsed(parsed) =>
        if IsObjectSchema(parsed) then
          var entries := Entries(Get(parsed, "properties").value);
          if Readable(entries, Get(parsed, "required")) then ParamsOf(entries, Get(parsed, "required"), ids) else []
        else []
  }

  /** `parsed.type === "object" && parsed.properties`. */
  predicate IsObjectSchema(parsed: Json)
  {
    Get(parsed, "type") == Some(JStr("object")) && Truthy(Get(parsed, "properties"))
  }

  // ---------------------------------------------------------------- writing

  /** The schema of one parameter: its type and description, and `enum` only when there are values. */
  function ParamSchema(p: BodyParam): (o: Json)
    ensures o.JObj?
    ensures Get(o, "type") == Some(p.dataType) && Get(o, "description") == Some(p.description)
    ensures Get(o, "enum") == (if p.enumValues != [] then Some(JArr(p.enumValues)) else None)
    ensures Get(o, "valueType").None? && Get(o, "required").None? && Get(o, "identifier").None?
  {
    if |p.enumValues| > 0 then
      JObj(["type", "description", "enum"],
           map["type" := p.dataType, "description" := p.description, "enum" := JArr(p.enumValues)])
    else JObj(["type", "description"], map["type" := p.dataType, "description" := p.description])
  }

  /** The `properties` object the `forEach` fills from the rows, first to last. */
  function PropertiesOf(ps: seq<BodyParam>): (o: Json)
    ensures o.JObj?
    decreases |ps|
  {
    if ps == [] then EmptyObject
    else
      var last := ps[|ps| - 1];
      var o := PropertiesOf(ps[..|ps| - 1]);
      if last.identifier != "" then Assign(o, last.identifier, ParamSchema(last)) else o
  }

  /** The `required` array the `forEach` pushes onto. */
  function RequiredOf(ps: seq<BodyParam>): (r: seq<string>)
    decreases |ps|
  {
    if ps == [] then []
    else
      var last := ps[|ps| - 1];
      RequiredOf(ps[..|ps| - 1]) + (if last.identifier != "" && last.required then [last.identifier] else [])
  }

  /** The emitted schema: always `type: "object"`, the properties, and `required` only when non-empty. */
  function Schema(ps: seq<BodyParam>): (s: Json)
    ensures s.JObj?
    ensures Get(s, "type") == Some(JStr("object"))
    ensures Get(s, "properties") == Some(PropertiesOf(ps))
    ensures Get(s, "required") == (if RequiredOf(ps) != [] then Some(StrArray(RequiredOf(ps))) else None)
  {
    var s := Put(Put(EmptyObject, "type", JStr("object")), "properties", PropertiesOf(ps));
    if |RequiredOf(ps)| > 0 then Put(s, "required", StrArray(RequiredOf(ps))) else s
  }

  /** One more row writes its property when its identifier is emittable, and nothing else. */
  lemma PropertiesStep(ps: seq<BodyParam>, key: string)
    requires ps != []
    ensures var last := ps[|ps| - 1];
      Get(PropertiesOf(ps), key) ==
        if Emittable(last.identifier) && last.identifier == key then Some(ParamSchema(last))
        else Get(PropertiesOf(ps[..|ps| - 1]), key)
  {
  }

  /** A row is a property exactly when its identifier is emittable. */
  lemma {:induction false} PropertyEmitted(ps: seq<BodyParam>, key: string)
    ensures Get(PropertiesOf(ps), key).Some? <==> Emittable(key) && exists i :: 0 <= i < |ps| && ps[i].identifier == key
    decreases |ps|
  {
    if ps != [] {
      var front := ps[..|ps| - 1];
      PropertiesStep(ps, key);
      PropertyEmitted(front, key);
      if Emittable(key) && (exists i :: 0 <= i < |front| && front[i].identifier == key) {
        var i :| 0 <= i < |front| && front[i].identifier == key;
        assert ps[i].identifier == key;
      }
      if Emittable(key) && (exists i :: 0 <= i < |ps| && ps[i].identifier == key) {
        var i :| 0 <= i < |ps| && ps[i].identifier == key;
        if i < |front| {
          assert front[i].identifier == key;
        }
      }
    }
  }

  /** When identifiers repeat, the last row with that identifier gives the property. */
  lemma {:induction false} LaterParamWins(ps: seq<BodyParam>, i: nat)
    requires i < |ps| && Emittable(ps[i].identifier)
    requires forall k :: i < k < |ps| ==> ps[k].identifier != ps[i].identifier
    ensures Get(PropertiesOf(ps), ps[i].identifier) == Some(ParamSchema(ps[i]))
    decreases |ps|
  {
    var front := ps[..|ps| - 1];
    PropertiesStep(ps, ps[i].identifier);
    if i < |front| {
      assert front[i] == ps[i];
      assert Get(PropertiesOf(front), ps[i].identifier) == Some(ParamSchema(ps[i])) by {
        forall k | i < k < |front| ensures front[k].identifier != front[i].identifier {
          assert front[k] == ps[k];
        }
        LaterParamWins(front, i);
      }
    }
  }

  /** `required` lists an identifier exactly when a named row carrying it is flagged. */
  lemma {:induction false} RequiredListed(ps: seq<BodyParam>, x: string)
    ensures x in RequiredOf(ps) <==> x != "" && exists i :: 0 <= i < |ps| && ps[i].identifier == x && ps[i].required
    decreases |ps|
  {
    if ps != [] {
      var front := ps[..|ps| - 1];
      RequiredListed(front, x);
      if x != "" && (exists i :: 0 <= i < |front| && front[i].identifier == x && front[i].required) {
        var i :| 0 <= i < |front| && front[i].identifier == x && front[i].required;
        assert ps[i] == front[i];
      }
      if x != "" && (exists i :: 0 <= i < |ps| && ps[i].identifier == x && ps[i].required) {
        var i :| 0 <= i < |ps| && ps[i].identifier == x && ps[i].required;
        if i < |front| {
          assert front[i] == ps[i];
        }
      }
    }
  }

  /** `required` keeps row order: the list for two runs of rows is the two lists joined. */
  lemma {:induction false} RequiredInRowOrder(a: seq<BodyParam>, b: seq<BodyParam>)
    ensures RequiredOf(a + b) == RequiredOf(a) + RequiredOf(b)
    decreases |b|
  {
    if b == [] {
      assert a + b == a;
    } else {
      var front := b[..|b| - 1];
      assert (a + b)[..|a + b| - 1] == a + front;
      assert (a + b)[|a + b| - 1] == b[|b| - 1];
      RequiredInRowOrder(a, front);
    }
  }

  /** A row without an identifier contributes nothing, so appending one keeps the schema. */
  lemma {:induction false} UnnamedRowKeepsSchema(ps: seq<BodyParam>, p: BodyParam)
    requires p.identifier == ""
    ensures Schema(ps + [p]) == Schema(ps)
  {
    assert (ps + [p])[..|ps|] == ps;
    assert PropertiesOf(ps + [p]) == PropertiesOf(ps);
    assert RequiredOf(ps + [p]) == RequiredOf(ps);
  }

  // ---------------------------------------------------------------- row list operations

  /** `params.find((p) => p.id === id)`: the first row with that id. */
  function FindParam(ps: seq<BodyParam>, id: string): (r: Option<BodyParam>)
    ensures r.None? <==> forall i :: 0 <= i < |ps| ==> ps[i].id != id
    ensures r.Some? ==> exists i :: 0 <= i < |ps| && ps[i] == r.value && ps[i].id == id && forall k :: 0 <= k < i ==> ps[k].id != id
  {
    if ps == [] then None
    else if ps[0].id == id then Some(ps[0])
    else
      var r := FindParam(ps[1..], id);
      if r.Some? then
        var i :| 0 <= i < |ps[1..]| && ps[1..][i] == r.value && ps[1..][i].id == id && forall k :: 0 <= k < i ==> ps[1..][k].id != id;
        assert ps[i + 1] == r.value;
        assert forall k :: 0 < k < i + 1 ==> ps[k] == ps[1..][k - 1];
        r
      else r
  }

  /** `params.filter((p) => p.id !== id)`. */
  function WithoutParam(ps: seq<BodyParam>, id: string): (r: seq<BodyParam>)
    ensures forall p :: p in r <==> p in ps && p.id != id
    ensures |r| <= |ps|
    ensures |ps| == 1 ==> r == if ps[0].id == id then [] else ps
  {
    if ps == [] then [] else (if ps[0].id == id then [] else [ps[0]]) + WithoutParam(ps[1..], id)
  }

  /** The filter keeps the other rows in their order: it distributes over concatenation. */
  lemma {:induction false} WithoutParamConcat(a: seq<BodyParam>, b: seq<BodyParam>, id: string)
    ensures WithoutParam(a + b, id) == WithoutParam(a, id) + WithoutParam(b, id)
  {
    if a == [] {
      assert a + b == b;
    } else {
      assert (a + b)[0] == a[0];
      assert (a + b)[1..] == a[1..] + b;
      WithoutParamConcat(a[1..], b, id);
    }
  }

  /** `{ ...p, [field]: value }`: the edited field takes the new value, the others keep theirs. */
  function ApplyEdit(p: BodyParam, edit: ParamEdit): (r: BodyParam)
    ensures r.id == p.id
    ensures r.dataType == (if edit.SetDataType? then JStr(edit.dataType) else p.dataType)
    ensures r.identifier == (if edit.SetIdentifier? then edit.identifier else p.identifier)
    ensures r.required == (if edit.SetRequired? then edit.required else p.required)
    ensures r.valueType == (if edit.SetValueType? then edit.valueType else p.valueType)
    ensures r.description == (if edit.SetDescription? then JStr(edit.description) else p.description)
    ensures r.enumValues == (if edit.SetEnumValues? then edit.values else p.enumValues)
  {
    match edit
    case SetDataType(v) => p.(dataType := JStr(v))
    case SetIdentifier(v) => p.(identifier := v)
    case SetRequired(v) => p.(required := v)
    case SetValueType(v) => p.(valueType := v)
    case SetDescription(v) => p.(description := JStr(v))
    case SetEnumValues(v) => p.(enumValues := v)
  }

  /** `params.map((p) => (p.id === id ? { ...p, [field]: value } : p))`. */
  function UpdatedParams(ps: seq<BodyParam>, id: string, edit: ParamEdit): (r: seq<BodyParam>)
    ensures |r| == |ps|
    ensures forall i :: 0 <= i < |ps| ==> r[i] == if ps[i].id == id then ApplyEdit(ps[i], edit) else ps[i]
  {
    seq(|ps|, i requires 0 <= i < |ps| => if ps[i].id == id then ApplyEdit(ps[i], edit) else ps[i])
  }

  /** `enumValues.filter((v) => v !== value)`. */
  function WithoutValue(values: seq<Json>, value: string): (r: seq<Json>)
    ensures forall v :: v in r <==> v in values && v != JStr(value)
    ensures |values| == 1 ==> r == if values[0] == JStr(value) then [] else values
  {
    if values == [] then [] else (if values[0] == JStr(value) then [] else [values[0]]) + WithoutValue(values[1..], value)
  }

  /** The filter keeps the other values in their order: it distributes over concatenation. */
  lemma {:induction false} WithoutValueConcat(a: seq<Json>, b: seq<Json>, value: string)
    ensures WithoutValue(a + b, value) == WithoutValue(a, value) + WithoutValue(b, value)
  {
    if a == [] {
      assert a + b == b;
    } else {
      assert (a + b)[0] == a[0];
      assert (a + b)[1..] == a[1..] + b;
      WithoutValueConcat(a[1..], b, value);
    }
  }

  /** Removing a value the list does not hold leaves it unchanged. */
  lemma {:induction false} WithoutMissingValue(values: seq<Json>, value: string)
    requires JStr(value) !in values
    ensures WithoutValue(values, value) == values
  {
    if values != [] {
      WithoutMissingValue(values[1..], value);
      assert [values[0]] + values[1..] == values;
    }
  }

  /** No two rows share an id, which the random ids are meant to guarantee. */
  predicate UniqueIds(ps: seq<BodyParam>)
  {
    forall i, k :: 0 <= i < k < |ps| ==> ps[i].id != ps[k].id
  }

  /** The builder's two pieces of state: the rows and the pending enum input of each row. */
  datatype ParamsView = ParamsView(params: seq<BodyParam>, enumInputs: map<string, string>)

  /** `enumInputs[paramId]?.trim()`, with a missing entry read as empty. */
  function PendingInput(v: ParamsView, paramId: string): string
  {
    if paramId in v.enumInputs then Trim(v.enumInputs[paramId]) else ""
  }

  /**
   * `addEnumValue` does something only when the trimmed input is not empty,
   * a row has that id, and the first such row does not hold the value yet.
   */
  predicate AddsEnumValue(v: ParamsView, paramId: string)
  {
    var input := PendingInput(v, paramId);
    && input != ""
    && FindParam(v.params, paramId).Some?
    && JStr(input) !in FindParam(v.params, paramId).value.enumValues
  }

  /**
   * `addEnumValue`: otherwise nothing changes (the input is then kept); when
   * it applies, the trimmed value is appended to the row's values and the
   * row's input is cleared.
   */
  function EnumAdded(v: ParamsView, paramId: string): (r: ParamsView)
    ensures !AddsEnumValue(v, paramId) ==> r == v
    ensures AddsEnumValue(v, paramId) ==> r.enumInputs == v.enumInputs[paramId := ""]
  {
    if AddsEnumValue(v, paramId) then
      var param := FindParam(v.params, paramId).value;
      ParamsView(UpdatedParams(v.params, paramId, SetEnumValues(param.enumValues + [JStr(PendingInput(v, paramId))])),
                 v.enumInputs[paramId := ""])
    else v
  }

  /** When it applies, every row with that id now holds the value, last, and the other rows are unchanged. */
  lemma EnumAddedAppends(v: ParamsView, paramId: string)
    requires AddsEnumValue(v, paramId)
    ensures var r := EnumAdded(v, paramId);
      && |r.params| == |v.params|
      && (forall i :: 0 <= i < |v.params| && v.params[i].id == paramId ==>
            r.params[i].enumValues == FindParam(v.params, paramId).value.enumValues + [JStr(PendingInput(v, paramId))])
      && (forall i :: 0 <= i < |v.params| && v.params[i].id != paramId ==> r.params[i] == v.params[i])
  {
  }

  /** `removeEnumValue`: every occurrence of the value leaves the row's list; an unknown row changes nothing. */
  function EnumRemoved(ps: seq<BodyParam>, paramId: string, value: string): (r: seq<BodyParam>)
    ensures FindParam(ps, paramId).None? ==> r == ps
  {
    match FindParam(ps, paramId)
    case None => ps
    case Some(param) => UpdatedParams(ps, paramId, SetEnumValues(WithoutValue(param.enumValues, value)))
  }

  /** With unique ids, the first row with an id is its only row. */
  lemma {:induction false} FoundIsOnly(ps: seq<BodyParam>, id: string, i: nat)
    requires UniqueIds(ps) && i < |ps| && ps[i].id == id
    ensures FindParam(ps, id) == Some(ps[i])
    decreases |ps|
  {
    if i > 0 {
      assert ps[0].id != ps[i].id;
      assert ps[1..][i - 1] == ps[i];
      FoundIsOnly(ps[1..], id, i - 1);
    }
  }

  /** Adding a value, then pressing add again: the second press finds the input cleared. */
  lemma EnumAddedTwice(v: ParamsView, paramId: string)
    ensures EnumAdded(EnumAdded(v, paramId), paramId) == EnumAdded(v, paramId)
  {
    var r := EnumAdded(v, paramId);
    if AddsEnumValue(v, paramId) {
      assert r.enumInputs[paramId] == "";
      assert PendingInput(r, paramId) == "";
    }
  }

  /** After a removal, no row with that id holds the value. */
  lemma EnumRemovedIsGone(ps: seq<BodyParam>, paramId: string, value: string)
    ensures forall i :: 0 <= i < |ps| && ps[i].id == paramId ==> JStr(value) !in EnumRemoved(ps, paramId, value)[i].enumValues
  {
  }

  /** With unique ids, removing a value the row does not hold changes nothing. */
  lemma {:induction false} EnumRemovedMissing(ps: seq<BodyParam>, paramId: string, value: string)
    requires UniqueIds(ps)
    requires forall i :: 0 <= i < |ps| && ps[i].id == paramId ==> JStr(value) !in ps[i].enumValues
    ensures EnumRemoved(ps, paramId, value) == ps
  {
    if p :| p in ps && p.id == paramId {
      var i :| 0 <= i < |ps| && ps[i] == p;
      FoundIsOnly(ps, paramId, i);
      WithoutMissingValue(ps[i].enumValues, value);
      var r := EnumRemoved(ps, paramId, value);
      forall k | 0 <= k < |ps| ensures r[k] == ps[k] {
        if ps[k].id == paramId {
          assert k == i;
        }
      }
    }
  }

  /** The builder component: its rows, the pending enum inputs, and the text each change emits. */
  class BodyParamsBuilderState {
    const codec: JsonCodec
    var params: seq<BodyParam>
    var enumInputs: map<string, string>

    /** The lazy `useState` initialisers; `ids` stands for the generated row ids. */
    constructor(c: JsonCodec, value: string, ids: nat -> string)
      ensures codec == c && params == InitialParams(c, value, ids) && enumInputs == map[]
    {
      codec := c;
      params := InitialParams(c, value, ids);
      enumInputs := map[];
    }

    /** The `forEach` of `updateParams` and the schema object around its result. */
    static method BuildSchema(ps: seq<BodyParam>) returns (schema: Json)
      ensures schema == Schema(ps)
    {
      var properties := EmptyObject;
      var required: seq<string> := [];
      var i := 0;
      while i < |ps|
        invariant i <= |ps|
        invariant properties == PropertiesOf(ps[..i])
        invariant required == RequiredOf(ps[..i])
      {
        var param := ps[i];
        assert ps[..i + 1][..i] == ps[..i];
        if param.identifier != "" {
          properties := Assign(properties, param.identifier, ParamSchema(param));
          if param.required {
            required := required + [param.identifier];
          }
        }
        i := i + 1;
      }
      assert ps[..i] == ps;
      schema := Put(Put(EmptyObject, "type", JStr("object")), "properties", properties);
      if |required| > 0 {
        schema := Put(schema, "required", StrArray(required));
      }
    }

    /** `updateParams`: keep the new rows and emit their schema, pretty-printed. */
    method UpdateParams(newParams: seq<BodyParam>) returns (emitted: string)
      modifies this
      ensures params == newParams && enumInputs == old(enumInputs)
      ensures emitted == codec.pretty(Schema(newParams))
    {
      params := newParams;
      var schema := BuildSchema(newParams);
      emitted := codec.pretty(schema);
    }

    /** `addParam`: append a row with no identifier; the emitted schema does not change. */
    method AddParam(freshId: string) returns (emitted: string)
      modifies this
      ensures params == old(params) + [BodyParam(freshId, JStr("string"), "", false, LlmPrompt, JStr(""), [])]
      ensures enumInputs == old(enumInputs)
      ensures emitted == codec.pretty(Schema(old(params)))
    {
      var blank := BodyParam(freshId, JStr("string"), "", false, LlmPrompt, JStr(""), []);
      UnnamedRowKeepsSchema(params, blank);
      emitted := UpdateParams(params + [blank]);
    }

    /** `removeParam`: drop the rows with that id and the row's pending enum input. */
    method RemoveParam(id: string) returns (emitted: string)
      modifies this
      ensures params == WithoutParam(old(params), id)
      ensures enumInputs == old(enumInputs) - {id}
      ensures emitted == codec.pretty(Schema(params))
    {
      emitted := UpdateParams(WithoutParam(params, id));
      enumInputs := enumInputs - {id};
    }

    /** `updateParam`: write one field of every row with that id. */
    method UpdateParam(id: string, edit: ParamEdit) returns (emitted: string)
      modifies this
      ensures params == UpdatedParams(old(params), id, edit) && enumInputs == old(enumInputs)
      ensures emitted == codec.pretty(Schema(params))
    {
      emitted := UpdateParams(UpdatedParams(params, id, edit));
    }

    /** The enum input's `onChange`: record what is typed for that row. */
    method SetEnumInput(paramId: string, text: string)
      modifies this
      ensures enumInputs == old(enumInputs)[paramId := text] && params == old(params)
    {
      enumInputs := enumInputs[paramId := text];
    }

    /** `addEnumValue`; `emitted` is the text handed to `onChange`, if any. */
    method AddEnumValue(paramId: string) returns (emitted: Option<string>)
      modifies this
      ensures ParamsView(params, enumInputs) == EnumAdded(ParamsView(old(params), old(enumInputs)), paramId)
      ensures emitted.Some? <==> AddsEnumValue(ParamsView(old(params), old(enumInputs)), paramId)
      ensures emitted.Some? ==> emitted.value == codec.pretty(Schema(params))
    {
      ghost var before := ParamsView(params, enumInputs);
      var inputValue := if paramId in enumInputs then Trim(enumInputs[paramId]) else "";
      assert inputValue == PendingInput(before, paramId);
      if inputValue == "" {
        assert !AddsEnumValue(before, paramId);
        return None;
      }
      var param := FindParam(params, paramId);
      if param.Some? && JStr(inputValue) !in param.value.enumValues {
        assert AddsEnumValue(before, paramId);
        var text := AppendEnumValue(paramId, param.value.enumValues, inputValue);
        return Some(text);
      }
      assert !AddsEnumValue(before, paramId);
      return None;
    }

    /** The applying case of `addEnumValue`: the row gets the longer list, then the row's input is cleared. */
    method AppendEnumValue(paramId: string, values: seq<Json>, value: string) returns (emitted: string)
      modifies this
      ensures params == UpdatedParams(old(params), paramId, SetEnumValues(values + [JStr(value)]))
      ensures enumInputs == old(enumInputs)[paramId := ""]
      ensures emitted == codec.pretty(Schema(params))
    {
      emitted := UpdateParam(paramId, SetEnumValues(values + [JStr(value)]));
      enumInputs := enumInputs[paramId := ""];
    }

    /** `removeEnumValue`; `emitted` is the text handed to `onChange`, if any. */
    method RemoveEnumValue(paramId: string, value: string) returns (emitted: Option<string>)
      modifies this
      ensures params == EnumRemoved(old(params), paramId, value) && enumInputs == old(enumInputs)
      ensures emitted.Some? <==> FindParam(old(params), paramId).Some?
      ensures emitted.Some? ==> emitted.value == codec.pretty(Schema(params))
    {
      var param := FindParam(params, paramId);
      if param.Some? {
        var text := UpdateParam(paramId, SetEnumValues(WithoutValue(param.value.enumValues, value)));
        return Some(text);
      }
      return None;
    }
  }
}
