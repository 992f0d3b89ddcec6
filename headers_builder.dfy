/**
 * components/headers-builder.tsx: the webhook's request headers edited as an
 * ordered list of rows, read from and written back to a JSON object of
 * `name -> value` members.
 */
module HeadersBuilder {
  import opened Wrappers
  import opened Json
  import opened JsText

  datatype HeaderKind = Secret | Static

  /**
   * One row. `value` keeps whatever the parsed object held for the key (the
   * source casts it to a string without converting it); rows typed in the
   * form hold strings.
   */
  datatype Header = Header(id: string, kind: HeaderKind, name: string, value: Json)

  /** `updateHeader(id, field, value)`: which field of the matching rows is written. */
  datatype HeaderEdit =
    | SetId(id: string)
    | SetKind(kind: HeaderKind)
    | SetName(name: string)
    | SetValue(value: string)

  /** One `static` row per entry, in entry order; `ids(i)` is the generated id of row `i`. */
  function RowsOf(entries: seq<Member>, ids: nat -> string): (rows: seq<Header>)
    ensures |rows| == |entries|
    ensures forall i :: 0 <= i < |entries| ==>
      rows[i] == Header(ids(i), Static, entries[i].key, entries[i].value)
  {
    seq(|entries|, i requires 0 <= i < |entries| => Header(ids(i), Static, entries[i].key, entries[i].value))
  }

  /**
   * The initial rows: none for empty text, for text that does not parse and
   * for `null` (`Object.entries(null)` throws); otherwise one row per entry.
   */
  function InitialHeaders(c: JsonCodec, value: string, ids: nat -> string): (rows: seq<Header>)
    ensures value == "" || c.parse(value).SyntaxError? ==> rows == []
    ensures c.parse(value).Parsed? && c.parse(value).value.JObj? && value != "" ==>
      var j := c.parse(value).value;
      && |rows| == |Entries(j)|
      && forall i :: 0 <= i < |rows| ==>
           (rows[i].kind == Static && rows[i].name == Entries(j)[i].key && rows[i].value == Entries(j)[i].value)
  {
    if value == "" then []
    else match c.parse(value)
      case SyntaxError(_) => []
      case Parsed(j) => if j.JNull? then [] else RowsOf(Entries(j), ids)
  }

  /** One step of the `reduce`: a row with a name writes its value under that name. */
  function Write(acc: Json, h: Header): (r: Json)
    requires acc.JObj?
    ensures r.JObj?
    ensures Emittable(h.name) ==> Get(r, h.name) == Some(h.value)
    ensures !Emittable(h.name) ==> r == acc
    ensures forall other :: other != h.name ==> Get(r, other) == Get(acc, other)
  {
    if h.name != "" then Assign(acc, h.name, h.value) else acc
  }

  /** The object `updateHeaders` builds from the rows, folding them from the first. */
  function HeadersObject(rows: seq<Header>): (o: Json)
    ensures o.JObj?
    decreases |rows|
  {
    if rows == [] then EmptyObject else Write(HeadersObject(rows[..|rows| - 1]), rows[|rows| - 1])
  }

  /** A name is emitted exactly when it is emittable and some row carries it. */
  lemma {:induction false} EmittedNames(rows: seq<Header>, name: string)
    ensures Get(HeadersObject(rows), name).Some? <==>
      Emittable(name) && exists i :: 0 <= i < |rows| && rows[i].name == name
    decreases |rows|
  {
    if rows != [] {
      var front := rows[..|rows| - 1];
      EmittedNames(front, name);
      if Emittable(name) && (exists i :: 0 <= i < |front| && front[i].name == name) {
        var i :| 0 <= i < |front| && front[i].name == name;
        assert rows[i].name == name;
      }
      if Emittable(name) && (exists i :: 0 <= i < |rows| && rows[i].name == name) {
        var i :| 0 <= i < |rows| && rows[i].name == name;
        if i < |front| {
          assert front[i].name == name;
        }
      }
    }
  }

  /** When names repeat, the value of the last row with that name is emitted. */
  lemma {:induction false} LaterRowWins(rows: seq<Header>, i: nat)
    requires i < |rows| && Emittable(rows[i].name)
    requires forall k :: i < k < |rows| ==> rows[k].name != rows[i].name
    ensures Get(HeadersObject(rows), rows[i].name) == Some(rows[i].value)
    decreases |rows|
  {
    var front := rows[..|rows| - 1];
    if i < |front| {
      forall k | i < k < |front| ensures front[k].name != front[i].name {
        assert front[k] == rows[k];
      }
      LaterRowWins(front, i);
    }
  }

  /** The emitted object is well formed when the row values are: each name appears once. */
  lemma {:induction false} EmittedWellFormed(rows: seq<Header>)
    requires forall i :: 0 <= i < |rows| ==> WellFormed(rows[i].value)
    ensures WellFormed(HeadersObject(rows))
    decreases |rows|
  {
    if rows != [] {
      var front := rows[..|rows| - 1];
      forall i | 0 <= i < |front| ensures WellFormed(front[i].value) {
        assert front[i] == rows[i];
      }
      EmittedWellFormed(front);
      var last := rows[|rows| - 1];
      if Emittable(last.name) {
        PutWellFormed(HeadersObject(front), last.name, last.value);
      }
    }
  }

  /** Rows that carry, in order, the keys of an object and their values. */
  predicate Carries(rows: seq<Header>, keys: seq<string>, fields: map<string, Json>)
  {
    && |rows| == |keys|
    && forall i :: 0 <= i < |keys| ==> keys[i] in fields && rows[i].name == keys[i] && rows[i].value == fields[keys[i]]
  }

  /** The emittable keys of a list, in their order. */
  function EmittedKeys(keys: seq<string>): (r: seq<string>)
    ensures forall k :: k in r <==> k in keys && Emittable(k)
    decreases |keys|
  {
    if keys == [] then []
    else
      var front, last := keys[..|keys| - 1], keys[|keys| - 1];
      assert keys == front + [last];
      EmittedKeys(front) + (if Emittable(last) then [last] else [])
  }

  /** The members of `fields` named by the first `n` keys and emitted by the fold. */
  function PrefixFields(keys: seq<string>, fields: map<string, Json>, n: nat): map<string, Json>
    requires n <= |keys|
  {
    map k | k in keys[..n] && k in fields && Emittable(k) :: fields[k]
  }

  /** What survives of an object written out through the rows: its emittable members, in its order. */
  function EmittedPart(j: Json): (r: Json)
    requires j.JObj?
    ensures r.JObj? && r.keys == EmittedKeys(j.keys)
    ensures forall k :: Get(r, k) == if Emittable(k) then Get(j, k) else None
  {
    JObj(EmittedKeys(j.keys), map k | k in j.fields && Emittable(k) :: j.fields[k])
  }

  /** The fold over a prefix one row longer writes that row. */
  lemma FoldStep(rows: seq<Header>, n: nat)
    requires 0 < n <= |rows|
    ensures HeadersObject(rows[..n]) == Write(HeadersObject(rows[..n - 1]), rows[n - 1])
  {
    assert rows[..n][..n - 1] == rows[..n - 1];
  }

  /** The emitted keys of a prefix one key longer. */
  lemma EmittedKeysStep(keys: seq<string>, n: nat)
    requires 0 < n <= |keys|
    ensures EmittedKeys(keys[..n]) ==
      EmittedKeys(keys[..n - 1]) + (if Emittable(keys[n - 1]) then [keys[n - 1]] else [])
  {
    assert keys[..n][..n - 1] == keys[..n - 1];
  }

  /** In an ordered list, a key sorts after every key before it, so creating it appends it. */
  lemma OrderedKeyGoesLast(keys: seq<string>, n: nat, emitted: seq<string>)
    requires JsOrdered(keys) && 0 < n <= |keys|
    requires forall k :: k in emitted ==> k in keys[..n - 1]
    ensures GoesLast(emitted, keys[n - 1])
  {
    if IsIndexKey(keys[n - 1]) {
      forall i | 0 <= i < |emitted|
        ensures IsIndexKey(emitted[i]) && DigitsValue(emitted[i]) < DigitsValue(keys[n - 1])
      {
        assert emitted[i] in emitted;
        assert emitted[i] in keys[..n - 1];
        var m :| 0 <= m < n - 1 && keys[..n - 1][m] == emitted[i];
        assert keys[m] == emitted[i];
      }
    }
  }

  /** One more row writes the next key, which is new and goes last. */
  lemma RebuildStep(keys: seq<string>, fields: map<string, Json>, n: nat, acc: Json, h: Header)
    requires DistinctKeys(keys) && JsOrdered(keys) && 0 < n <= |keys| && keys[n - 1] in fields
    requires h.name == keys[n - 1] && h.value == fields[keys[n - 1]]
    requires acc == JObj(EmittedKeys(keys[..n - 1]), PrefixFields(keys, fields, n - 1))
    ensures Write(acc, h) == JObj(EmittedKeys(keys[..n]), PrefixFields(keys, fields, n))
  {
    var key := keys[n - 1];
    EmittedKeysStep(keys, n);
    PrefixFieldsStep(keys, fields, n);
    if Emittable(key) {
      var front := keys[..n - 1];
      forall i | 0 <= i < |front| ensures front[i] != key {
        assert front[i] == keys[i];
      }
      assert key !in acc.keys;
      OrderedKeyGoesLast(keys, n, acc.keys);
      InsertKeyAppends(acc.keys, key);
    }
  }

  /** The emitted members of a prefix one key longer. */
  lemma PrefixFieldsStep(keys: seq<string>, fields: map<string, Json>, n: nat)
    requires 0 < n <= |keys| && keys[n - 1] in fields
    ensures PrefixFields(keys, fields, n) ==
      if Emittable(keys[n - 1]) then PrefixFields(keys, fields, n - 1)[keys[n - 1] := fields[keys[n - 1]]]
      else PrefixFields(keys, fields, n - 1)
  {
    assert keys[..n] == keys[..n - 1] + [keys[n - 1]];
    forall k ensures k in keys[..n] <==> k in keys[..n - 1] || k == keys[n - 1] {
    }
  }

  /** Folding such rows rebuilds the emittable part of the object one key at a time. */
  lemma {:induction false} RowsRebuildPrefix(rows: seq<Header>, keys: seq<string>, fields: map<string, Json>, n: nat)
    requires Carries(rows, keys, fields) && DistinctKeys(keys) && JsOrdered(keys)
    requires n <= |keys|
    ensures HeadersObject(rows[..n]) == JObj(EmittedKeys(keys[..n]), PrefixFields(keys, fields, n))
  {
    if n > 0 {
      RowsRebuildPrefix(rows, keys, fields, n - 1);
      FoldStep(rows, n);
      RebuildStep(keys, fields, n, HeadersObject(rows[..n - 1]), rows[n - 1]);
    } else {
      assert PrefixFields(keys, fields, 0) == map[];
    }
  }

  /**
   * Round trip: the rows read from an object emit its members again, keys in
   * the same order, except those under the empty name and `__proto__`.
   */
  lemma {:induction false} RowsRebuildObject(j: Json, ids: nat -> string)
    requires j.JObj? && WellFormed(j)
    ensures HeadersObject(RowsOf(Entries(j), ids)) == EmittedPart(j)
  {
    var rows := RowsOf(Entries(j), ids);
    EntriesCarried(j, ids);
    RowsRebuildPrefix(rows, j.keys, j.fields, |j.keys|);
    assert rows[..|j.keys|] == rows;
    assert j.keys[..|j.keys|] == j.keys;
    AllPrefixFields(j.keys, j.fields);
  }

  /** The rows read from a well-formed object carry its keys and values. */
  lemma EntriesCarried(j: Json, ids: nat -> string)
    requires j.JObj? && WellFormed(j)
    ensures Carries(RowsOf(Entries(j), ids), j.keys, j.fields)
  {
  }

  /** All the keys of an object name all its members. */
  lemma AllPrefixFields(keys: seq<string>, fields: map<string, Json>)
    requires forall k :: k in fields ==> k in keys
    ensures PrefixFields(keys, fields, |keys|) == map k | k in fields && Emittable(k) :: fields[k]
  {
    assert keys[..|keys|] == keys;
  }

  /** An object whose every key is emittable survives whole. */
  lemma {:induction false} EmittableObjectSurvives(j: Json)
    requires j.JObj? && WellFormed(j) && (forall k :: k in j.keys ==> Emittable(k))
    ensures EmittedPart(j) == j
  {
    AllEmitted(j.keys);
  }

  lemma {:induction false} AllEmitted(keys: seq<string>)
    requires forall k :: k in keys ==> Emittable(k)
    ensures EmittedKeys(keys) == keys
    decreases |keys|
  {
    if keys != [] {
      var front := keys[..|keys| - 1];
      forall k | k in front ensures Emittable(k) {
        var i :| 0 <= i < |front| && front[i] == k;
        assert keys[i] == k;
      }
      AllEmitted(front);
      assert keys == front + [keys[|keys| - 1]];
    }
  }

  /** Nulling and keeping the emittable members commute. */
  lemma NulledEmittedPart(j: Json)
    requires j.JObj?
    ensures EmittedPart(Nulled(j)) == Nulled(EmittedPart(j))
  {
    var keep := EmittedPart(j);
    NulledFields(j);
    NulledFields(keep);
    EmittedPartMaps(j, Nulled(j), Nulled(keep), Nulled);
  }

  /** Keeping the emittable members commutes with any map applied member by member. */
  lemma EmittedPartMaps(j: Json, mapped: Json, keptMapped: Json, f: Json -> Json)
    requires j.JObj? && mapped.JObj? && keptMapped.JObj?
    requires mapped.keys == j.keys && keptMapped.keys == EmittedPart(j).keys
    requires forall k :: k in mapped.fields <==> k in j.fields
    requires forall k :: k in keptMapped.fields <==> k in EmittedPart(j).fields
    requires forall k :: k in j.fields ==> mapped.fields[k] == f(j.fields[k])
    requires forall k :: k in EmittedPart(j).fields ==> keptMapped.fields[k] == f(EmittedPart(j).fields[k])
    ensures EmittedPart(mapped) == keptMapped
  {
    var lhs, rhs := EmittedPart(mapped).fields, keptMapped.fields;
    forall k | k in lhs ensures k in rhs && lhs[k] == rhs[k] {
      assert k in EmittedPart(j).fields;
    }
    assert lhs == rhs;
  }

  /**
   * The same round trip through the text the builder receives and emits: the
   * emitted text is the text of the emittable members.
   */
  lemma {:induction false} HeadersTextRoundTrip(c: JsonCodec, j: Json, ids: nat -> string)
    requires ReadsBackPretty(c) && PrintsNonFiniteAsNull(c) && RefusesBlank(c)
    requires j.JObj? && WellFormed(j)
    ensures c.pretty(HeadersObject(InitialHeaders(c, c.pretty(j), ids))) == c.pretty(EmittedPart(j))
  {
    assert c.parse(c.pretty(j)) == Parsed(Nulled(j));
    assert c.pretty(j) != "" by {
      assert IsBlank("");
    }
    RowsRebuildObject(Nulled(j), ids);
    NulledEmittedPart(j);
    assert c.pretty(Nulled(EmittedPart(j))) == c.pretty(EmittedPart(j));
  }

  /** `{"Authorization": "Bearer x"}` read into rows and written back is unchanged. */
  lemma AuthorizationRoundTrip(c: JsonCodec, ids: nat -> string)
    requires ReadsBackPretty(c) && PrintsNonFiniteAsNull(c) && RefusesBlank(c)
    ensures var j := JObj(["Authorization"], map["Authorization" := JStr("Bearer x")]);
      c.pretty(HeadersObject(InitialHeaders(c, c.pretty(j), ids))) == c.pretty(j)
  {
    var j := JObj(["Authorization"], map["Authorization" := JStr("Bearer x")]);
    assert WellFormed(j) by {
      assert !IsIndexKey("Authorization");
    }
    HeadersTextRoundTrip(c, j, ids);
    EmittableObjectSurvives(j);
  }

  /** `headers.filter((h) => h.id !== id)`. */
  function WithoutId(rows: seq<Header>, id: string): (r: seq<Header>)
    ensures forall h :: h in r <==> h in rows && h.id != id
    ensures |r| <= |rows|
  {
    if rows == [] then [] else (if rows[0].id == id then [] else [rows[0]]) + WithoutId(rows[1..], id)
  }

  /** Removing keeps the other rows in order: it distributes over concatenation. */
  lemma {:induction false} WithoutIdConcat(a: seq<Header>, b: seq<Header>, id: string)
    ensures WithoutId(a + b, id) == WithoutId(a, id) + WithoutId(b, id)
  {
    if a == [] {
      assert a + b == b;
    } else {
      assert (a + b)[0] == a[0];
      assert (a + b)[1..] == a[1..] + b;
      WithoutIdConcat(a[1..], b, id);
    }
  }

  /** Removing an id no row has changes nothing. */
  lemma {:induction false} WithoutUnknownId(rows: seq<Header>, id: string)
    requires forall i :: 0 <= i < |rows| ==> rows[i].id != id
    ensures WithoutId(rows, id) == rows
  {
    if rows != [] {
      WithoutUnknownId(rows[1..], id);
      assert [rows[0]] + rows[1..] == rows;
    }
  }

  /** `{ ...h, [field]: value }`: the edited field takes the new value, the others keep theirs. */
  function Apply(h: Header, edit: HeaderEdit): (r: Header)
    ensures edit.SetId? ==> r.id == edit.id
    ensures edit.SetKind? ==> r.kind == edit.kind
    ensures edit.SetName? ==> r.name == edit.name
    ensures edit.SetValue? ==> r.value == JStr(edit.value)
    ensures !edit.SetId? ==> r.id == h.id
    ensures !edit.SetKind? ==> r.kind == h.kind
    ensures !edit.SetName? ==> r.name == h.name
    ensures !edit.SetValue? ==> r.value == h.value
  {
    match edit
    case SetId(v) => h.(id := v)
    case SetKind(k) => h.(kind := k)
    case SetName(v) => h.(name := v)
    case SetValue(v) => h.(value := JStr(v))
  }

  /** `headers.map((h) => (h.id === id ? { ...h, [field]: value } : h))`. */
  function Updated(rows: seq<Header>, id: string, edit: HeaderEdit): (r: seq<Header>)
    ensures |r| == |rows|
    ensures forall i :: 0 <= i < |rows| ==> r[i] == if rows[i].id == id then Apply(rows[i], edit) else rows[i]
  {
    seq(|rows|, i requires 0 <= i < |rows| => if rows[i].id == id then Apply(rows[i], edit) else rows[i])
  }

  /** A new row has no name, so appending it leaves the emitted object as it was. */
  lemma {:induction false} BlankRowEmitsNothing(rows: seq<Header>, h: Header)
    requires h.name == ""
    ensures HeadersObject(rows + [h]) == HeadersObject(rows)
  {
    assert (rows + [h])[..|rows|] == rows;
  }

  /** The builder component: its rows, and the text each change hands to `onChange`. */
  class HeadersBuilderState {
    const codec: JsonCodec
    var rows: seq<Header>

    /** The lazy `useState` initialiser; `ids` stands for the generated row ids. */
    constructor(c: JsonCodec, value: string, ids: nat -> string)
      ensures codec == c && rows == InitialHeaders(c, value, ids)
    {
      codec := c;
      rows := InitialHeaders(c, value, ids);
    }

    /** `updateHeaders`: keep the new rows and emit their object, pretty-printed. */
    method UpdateHeaders(newRows: seq<Header>) returns (emitted: string)
      modifies this
      ensures rows == newRows
      ensures emitted == codec.pretty(HeadersObject(newRows))
    {
      rows := newRows;
      emitted := codec.pretty(HeadersObject(newRows));
    }

    /** `addHeader`: append a `secret` row with no name and no value. */
    method AddHeader(freshId: string) returns (emitted: string)
      modifies this
      ensures rows == old(rows) + [Header(freshId, Secret, "", JStr(""))]
      ensures HeadersObject(rows) == HeadersObject(old(rows))
      ensures emitted == codec.pretty(HeadersObject(old(rows)))
    {
      BlankRowEmitsNothing(rows, Header(freshId, Secret, "", JStr("")));
      emitted := UpdateHeaders(rows + [Header(freshId, Secret, "", JStr(""))]);
    }

    /** `removeHeader`: drop every row with that id. */
    method RemoveHeader(id: string) returns (emitted: string)
      modifies this
      ensures rows == WithoutId(old(rows), id)
      ensures emitted == codec.pretty(HeadersObject(rows))
    {
      emitted := UpdateHeaders(WithoutId(rows, id));
    }

    /** `updateHeader`: write one field of every row with that id. */
    method UpdateHeader(id: string, edit: HeaderEdit) returns (emitted: string)
      modifies this
      ensures rows == Updated(old(rows), id, edit)
      ensures emitted == codec.pretty(HeadersObject(rows))
    {
      emitted := UpdateHeaders(Updated(rows, id, edit));
    }
  }
}
