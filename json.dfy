/**
 * JSON values as the editor sees them after `JSON.parse`, the JavaScript
 * object operations it applies to them (property read, property write,
 * `Object.entries`, truthiness), and the parser and printers as an oracle
 * with the laws the editor depends on.
 */
module Json {
  import opened Wrappers
  import opened JsText

  /**
   * A JavaScript number: a finite value `mantissa * 2^exponent`, or one of
   * the three values `JSON.parse` can also produce (`1e400` reads as
   * Infinity). Negative zero is not distinguished from zero.
   */
  datatype Number = Finite(mantissa: int, exponent: int) | PosInfinity | NegInfinity | NaN

  /** The number of binary digits of `n`. */
  function BitLength(n: nat): nat
  {
    if n == 0 then 0 else 1 + BitLength(n / 2)
  }

  /**
   * A value of IEEE 754 binary64, written canonically: zero as `Finite(0, 0)`,
   * otherwise an odd mantissa of at most 53 bits, an exponent no lower than
   * that of the smallest subnormal, and a magnitude below 2^1024.
   */
  predicate IsDouble(n: Number)
  {
    match n
    case Finite(m, e) =>
      if m == 0 then e == 0
      else
        var a := if m < 0 then -m else m;
        && m % 2 == 1
        && a < 0x20_0000_0000_0000
        && -1074 <= e
        && e + BitLength(a) <= 1024
    case _ => true
  }

  datatype Json =
    | JNull
    | JBool(b: bool)
    | JNum(n: Number)
    | JStr(s: string)
    | JArr(items: seq<Json>)
    | JObj(keys: seq<string>, fields: map<string, Json>)

  /** An object's property in enumeration order, as `Object.entries` yields it. */
  datatype Member = Member(key: string, value: Json)

  predicate DistinctKeys(keys: seq<string>)
  {
    forall i, k :: 0 <= i < k < |keys| ==> keys[i] != keys[k]
  }

  /** An array index: the canonical decimal spelling of an integer below 2^32 - 1. */
  predicate IsIndexKey(k: string)
  {
    k != [] && IsDigit(k[0]) && IsCanonical(k) && DigitsValue(k) < 0xFFFF_FFFF
  }

  /**
   * JavaScript's own-property order: array-index keys first, in ascending
   * numeric order, then the other keys (in the order they were created).
   */
  predicate JsOrdered(keys: seq<string>)
  {
    forall i, k :: 0 <= i < k < |keys| && IsIndexKey(keys[k]) ==>
      IsIndexKey(keys[i]) && DigitsValue(keys[i]) < DigitsValue(keys[k])
  }

  /** Where a new key goes in the enumeration order: at the very end. */
  predicate GoesLast(keys: seq<string>, key: string)
  {
    IsIndexKey(key) ==> forall i :: 0 <= i < |keys| ==> IsIndexKey(keys[i]) && DigitsValue(keys[i]) < DigitsValue(key)
  }

  /** An index key goes after the smaller indices and before everything else. */
  function InsertIndex(keys: seq<string>, key: string): (r: seq<string>)
    ensures |r| == |keys| + 1
    ensures forall k :: k in r <==> k in keys || k == key
  {
    if keys == [] || !IsIndexKey(keys[0]) || DigitsValue(key) < DigitsValue(keys[0]) then [key] + keys
    else [keys[0]] + InsertIndex(keys[1..], key)
  }

  /** The keys after a property is created: a non-index key is appended. */
  function InsertKey(keys: seq<string>, key: string): (r: seq<string>)
    ensures |r| == |keys| + 1
    ensures forall k :: k in r <==> k in keys || k == key
  {
    if IsIndexKey(key) then InsertIndex(keys, key) else keys + [key]
  }

  /** Inserting a new index key keeps the keys distinct and in order. */
  lemma {:induction false} InsertIndexOrdered(keys: seq<string>, key: string)
    requires IsIndexKey(key) && key !in keys && DistinctKeys(keys) && JsOrdered(keys)
    ensures DistinctKeys(InsertIndex(keys, key)) && JsOrdered(InsertIndex(keys, key))
    decreases |keys|
  {
    if keys == [] || !IsIndexKey(keys[0]) || DigitsValue(key) < DigitsValue(keys[0]) {
      InsertedFirst(keys, key);
    } else {
      assert DigitsValue(keys[0]) != DigitsValue(key) by {
        if DigitsValue(keys[0]) == DigitsValue(key) {
          CanonicalUnique(keys[0], key);
        }
      }
      InsertIndexOrdered(keys[1..], key);
      InsertedLater(keys, key, InsertIndex(keys[1..], key));
    }
  }

  /** A new index key below every index in the list goes first. */
  lemma InsertedFirst(keys: seq<string>, key: string)
    requires IsIndexKey(key) && key !in keys && DistinctKeys(keys) && JsOrdered(keys)
    requires keys == [] || !IsIndexKey(keys[0]) || DigitsValue(key) < DigitsValue(keys[0])
    ensures DistinctKeys([key] + keys) && JsOrdered([key] + keys)
  {
    var r := [key] + keys;
    forall i, k | 0 <= i < k < |r| && IsIndexKey(r[k])
      ensures IsIndexKey(r[i]) && DigitsValue(r[i]) < DigitsValue(r[k])
    {
      assert r[k] == keys[k - 1];
      if i == 0 && k > 1 {
        assert IsIndexKey(keys[0]) && DigitsValue(keys[0]) < DigitsValue(keys[k - 1]);
      } else if i > 0 {
        assert r[i] == keys[i - 1];
      }
    }
    forall i, k | 0 <= i < k < |r| ensures r[i] != r[k] {
      assert r[k] == keys[k - 1];
      if i > 0 {
        assert r[i] == keys[i - 1];
      }
    }
  }

  /** A new index key above the first index goes into the rest of the list. */
  lemma InsertedLater(keys: seq<string>, key: string, rest: seq<string>)
    requires IsIndexKey(key) && key !in keys && DistinctKeys(keys) && JsOrdered(keys)
    requires keys != [] && IsIndexKey(keys[0]) && DigitsValue(keys[0]) < DigitsValue(key)
    requires forall k :: k in rest <==> k in keys[1..] || k == key
    requires DistinctKeys(rest) && JsOrdered(rest)
    ensures DistinctKeys([keys[0]] + rest) && JsOrdered([keys[0]] + rest)
  {
    var r := [keys[0]] + rest;
    forall i, k | 0 <= i < k < |r| && IsIndexKey(r[k])
      ensures IsIndexKey(r[i]) && DigitsValue(r[i]) < DigitsValue(r[k])
    {
      assert r[k] == rest[k - 1];
      if i == 0 {
        assert r[k] in rest;
        if r[k] != key {
          assert r[k] in keys[1..];
          var m :| 0 <= m < |keys[1..]| && keys[1..][m] == r[k];
          assert keys[m + 1] == r[k];
        }
      } else {
        assert r[i] == rest[i - 1];
      }
    }
    forall i, k | 0 <= i < k < |r| ensures r[i] != r[k] {
      assert r[k] == rest[k - 1];
      if i == 0 {
        assert r[k] in rest;
        if r[k] != key {
          assert r[k] in keys[1..];
          var m :| 0 <= m < |keys[1..]| && keys[1..][m] == r[k];
          assert keys[m + 1] == r[k];
        }
      } else {
        assert r[i] == rest[i - 1];
      }
    }
  }

  /** Creating a property keeps an object's keys distinct and in JavaScript's order. */
  lemma InsertKeyOrdered(keys: seq<string>, key: string)
    requires key !in keys && DistinctKeys(keys) && JsOrdered(keys)
    ensures DistinctKeys(InsertKey(keys, key)) && JsOrdered(InsertKey(keys, key))
  {
    if IsIndexKey(key) {
      InsertIndexOrdered(keys, key);
    } else {
      var r := keys + [key];
      forall i, k | 0 <= i < k < |r| && IsIndexKey(r[k])
        ensures IsIndexKey(r[i]) && DigitsValue(r[i]) < DigitsValue(r[k])
      {
        assert r[i] == keys[i] && r[k] == keys[k];
      }
    }
  }

  /** A key that sorts after all the others is appended. */
  lemma {:induction false} InsertKeyAppends(keys: seq<string>, key: string)
    requires GoesLast(keys, key)
    ensures InsertKey(keys, key) == keys + [key]
  {
    if IsIndexKey(key) {
      InsertIndexAppends(keys, key);
    }
  }

  lemma {:induction false} InsertIndexAppends(keys: seq<string>, key: string)
    requires IsIndexKey(key) && GoesLast(keys, key)
    ensures InsertIndex(keys, key) == keys + [key]
    decreases |keys|
  {
    if keys != [] {
      assert IsIndexKey(keys[0]) && DigitsValue(keys[0]) < DigitsValue(key);
      forall i | 0 <= i < |keys[1..]| ensures IsIndexKey(keys[1..][i]) && DigitsValue(keys[1..][i]) < DigitsValue(key) {
        assert keys[1..][i] == keys[i + 1];
      }
      InsertIndexAppends(keys[1..], key);
      assert keys == [keys[0]] + keys[1..];
    }
  }

  /**
   * What `JSON.parse` can produce: every number is a double, every object
   * lists each of its keys once, in JavaScript's enumeration order, and has a
   * value for exactly those keys.
   */
  predicate WellFormed(j: Json)
  {
    match j
    case JNum(n) => IsDouble(n)
    case JArr(items) => forall i :: 0 <= i < |items| ==> WellFormed(items[i])
    case JObj(keys, fields) =>
      && DistinctKeys(keys)
      && JsOrdered(keys)
      && (forall key :: key in keys ==> key in fields)
      && (forall key :: key in fields ==> key in keys)
      && (forall key :: key in fields ==> WellFormed(fields[key]))
    case _ => true
  }

  /** No NaN and no infinity anywhere inside. */
  predicate AllFinite(j: Json)
  {
    match j
    case JNum(n) => n.Finite?
    case JArr(items) => forall i :: 0 <= i < |items| ==> AllFinite(items[i])
    case JObj(_, fields) => forall key :: key in fields ==> AllFinite(fields[key])
    case _ => true
  }

  /**
   * The value `JSON.stringify` describes: NaN and the infinities are written
   * as `null`, wherever they occur; everything else is kept.
   */
  function Nulled(j: Json): (r: Json)
    ensures AllFinite(r)
    ensures AllFinite(j) ==> r == j
    ensures WellFormed(j) ==> WellFormed(r)
    ensures j.JObj? <==> r.JObj?
    ensures j.JObj? ==> r.keys == j.keys && r.fields.Keys == j.fields.Keys
    ensures j.JArr? <==> r.JArr?
    ensures j.JArr? ==> |r.items| == |j.items|
    ensures (j.JNull? || j.JBool? || j.JStr?) ==> r == j
  {
    match j
    case JNum(n) => if n.Finite? then j else JNull
    case JArr(items) =>
      var r := JArr(seq(|items|, i requires 0 <= i < |items| => Nulled(items[i])));
      assert AllFinite(j) ==> r.items == items;
      r
    case JObj(keys, fields) =>
      var r := JObj(keys, map key | key in fields :: Nulled(fields[key]));
      assert AllFinite(j) ==> r.fields == fields;
      r
    case _ => j
  }

  /** The members of a nulled object are the nulled members. */
  lemma NulledFields(j: Json)
    requires j.JObj?
    ensures forall key :: key in Nulled(j).fields <==> key in j.fields
    ensures forall key :: key in j.fields ==> Nulled(j).fields[key] == Nulled(j.fields[key])
  {
  }

  /** `Nulled` on a property that may be missing. */
  function NulledOpt(v: Option<Json>): (r: Option<Json>)
    ensures r.Some? <==> v.Some?
  {
    if v.Some? then Some(Nulled(v.value)) else None
  }

  /** Nulling twice is nulling once. */
  lemma NulledTwice(j: Json)
    ensures Nulled(Nulled(j)) == Nulled(j)
  {
  }

  /** `{}`. */
  const EmptyObject: Json := JObj([], map[])

  /** `j[key]` on a value that is not null: only objects have own properties here. */
  function Get(j: Json, key: string): Option<Json>
  {
    if j.JObj? && key in j.fields then Some(j.fields[key]) else None
  }

  /** Reading a property of the nulled value is nulling the property. */
  lemma NulledGet(j: Json, key: string)
    ensures Get(Nulled(j), key) == NulledOpt(Get(j, key))
  {
  }

  /** JavaScript truthiness of a property that may be missing (`undefined`). */
  predicate Truthy(v: Option<Json>)
  {
    match v
    case None => false
    case Some(JNull) => false
    case Some(JBool(b)) => b
    case Some(JNum(n)) => !n.NaN? && !(n.Finite? && n.mantissa == 0)
    case Some(JStr(s)) => s != ""
    case Some(_) => true
  }

  /** `v ?? d` applies `d` exactly when `v` is nullish. */
  predicate Nullish(v: Option<Json>)
  {
    v.None? || v.value.JNull?
  }

  /**
   * JavaScript truthiness as the editor relies on it: a nullish value is
   * never truthy, a string is truthy exactly when it is not empty, and an
   * array or object is truthy even when it is empty.
   */
  lemma Falsiness(v: Option<Json>)
    ensures Nullish(v) ==> !Truthy(v)
    ensures v.Some? && v.value.JStr? ==> (Truthy(v) <==> v.value.s != "")
    ensures v.Some? && (v.value.JArr? || v.value.JObj?) ==> Truthy(v)
  {
  }

  /**
   * Creating or overwriting an own data property: an existing key keeps its
   * position and takes the new value; a new key takes its place in the
   * enumeration order (at the end, unless it is an array index).
   */
  function Put(o: Json, key: string, value: Json): (r: Json)
    requires o.JObj?
    ensures r.JObj? && Get(r, key) == Some(value)
    ensures forall other :: other != key ==> Get(r, other) == Get(o, other)
    ensures forall k :: k in r.keys <==> k in o.keys || k == key
    ensures |r.keys| == |o.keys| + (if key in o.keys then 0 else 1)
  {
    JObj(if key in o.keys then o.keys else InsertKey(o.keys, key), o.fields[key := value])
  }

  /** Writing a well-formed value keeps an object well formed. */
  lemma PutWellFormed(o: Json, key: string, value: Json)
    requires o.JObj? && WellFormed(o) && WellFormed(value)
    ensures WellFormed(Put(o, key, value))
  {
    var r := Put(o, key, value);
    if key !in o.keys {
      InsertKeyOrdered(o.keys, key);
    }
    forall other | other in r.fields ensures WellFormed(r.fields[other]) {
      if other != key {
        assert r.fields[other] == o.fields[other];
      }
    }
  }

  /** The name of the prototype accessor that every plain object inherits. */
  const ProtoKey := "__proto__"

  /**
   * `obj[key] = value` on a plain object. Writing `__proto__` goes to the
   * inherited accessor: a primitive is ignored and an object becomes the
   * prototype, so in neither case does an own member appear.
   */
  function Assign(o: Json, key: string, value: Json): (r: Json)
    requires o.JObj?
    ensures r.JObj?
    ensures key == ProtoKey ==> r == o
    ensures key != ProtoKey ==> Get(r, key) == Some(value) && forall k :: k in r.keys <==> k in o.keys || k == key
    ensures forall other :: other != key ==> Get(r, other) == Get(o, other)
  {
    if key == ProtoKey then o else Put(o, key, value)
  }

  /**
   * A key that `if (key) obj[key] = value` turns into an own member: the
   * empty key is skipped by the test, and `__proto__` goes to the prototype.
   */
  predicate Emittable(key: string)
  {
    key != "" && key != ProtoKey
  }

  /** `obj[key] = v` when `v` is defined; an `undefined` value is never written out. */
  function PutOpt(o: Json, key: string, v: Option<Json>): (r: Json)
    requires o.JObj?
    ensures r.JObj? && Get(r, key) == (if v.Some? then v else Get(o, key))
    ensures forall other :: other != key ==> Get(r, other) == Get(o, other)
  {
    if v.Some? then Put(o, key, v.value) else o
  }

  /** The properties of an object, in key order; a key without a value is skipped. */
  function Members(keys: seq<string>, fields: map<string, Json>): (r: seq<Member>)
    ensures (forall key :: key in keys ==> key in fields) ==>
      |r| == |keys| && forall i :: 0 <= i < |keys| ==> r[i] == Member(keys[i], fields[keys[i]])
  {
    if keys == [] then []
    else (if keys[0] in fields then [Member(keys[0], fields[keys[0]])] else []) + Members(keys[1..], fields)
  }

  /** Property key and value pairs of an array, indexed from `from`. */
  function IndexEntries(items: seq<Json>, from: nat): (r: seq<Member>)
    ensures |r| == |items|
    ensures forall i :: 0 <= i < |items| ==> r[i] == Member(NatToString(from + i), items[i])
  {
    if items == [] then [] else [Member(NatToString(from), items[0])] + IndexEntries(items[1..], from + 1)
  }

  /** One-character strings of `s`, indexed from `from`. */
  function CharEntries(s: string, from: nat): (r: seq<Member>)
    ensures |r| == |s|
    ensures forall i :: 0 <= i < |s| ==> r[i] == Member(NatToString(from + i), JStr([s[i]]))
  {
    if s == [] then [] else [Member(NatToString(from), JStr([s[0]]))] + CharEntries(s[1..], from + 1)
  }

  /** `Object.entries(j)` for a value that is not null (on null it throws). */
  function Entries(j: Json): (r: seq<Member>)
    requires !j.JNull?
    ensures j.JObj? ==> r == Members(j.keys, j.fields)
    ensures (j.JBool? || j.JNum?) ==> r == []
  {
    match j
    case JObj(keys, fields) => Members(keys, fields)
    case JArr(items) => IndexEntries(items, 0)
    case JStr(s) => CharEntries(s, 0)
    case _ => []
  }

  datatype ParseResult = Parsed(value: Json) | SyntaxError(message: string)

  /**
   * The foreign JSON primitives: `JSON.parse`, `JSON.stringify(v)`,
   * `JSON.stringify(v, null, 2)` and JavaScript's `String(v)`.
   */
  datatype JsonCodec = JsonCodec(
    parse: string -> ParseResult,
    stringify: Json -> string,
    pretty: Json -> string,
    text: Json -> string)

  /**
   * `JSON.parse(JSON.stringify(j))`: the compact text reads back as the
   * value, with NaN and the infinities turned into `null`.
   */
  ghost predicate ReadsBackCompact(c: JsonCodec)
  {
    forall j :: WellFormed(j) ==> c.parse(c.stringify(j)) == Parsed(Nulled(j))
  }

  /** The same for the indented text of `JSON.stringify(j, null, 2)`. */
  ghost predicate ReadsBackPretty(c: JsonCodec)
  {
    forall j :: WellFormed(j) ==> c.parse(c.pretty(j)) == Parsed(Nulled(j))
  }

  /** Both printers write a non-finite number exactly as they write `null`. */
  ghost predicate PrintsNonFiniteAsNull(c: JsonCodec)
  {
    forall j :: c.stringify(Nulled(j)) == c.stringify(j) && c.pretty(Nulled(j)) == c.pretty(j)
  }

  /** Whatever `JSON.parse` returns is well formed. */
  ghost predicate ParsesWellFormed(c: JsonCodec)
  {
    forall s :: c.parse(s).Parsed? ==> WellFormed(c.parse(s).value)
  }

  /** Empty and whitespace-only text is a syntax error. */
  ghost predicate RefusesBlank(c: JsonCodec)
  {
    forall s :: IsBlank(s) ==> c.parse(s).SyntaxError?
  }

  /** `String(s)` of a string is the string itself. */
  ghost predicate StringsAsText(c: JsonCodec)
  {
    forall s :: c.text(JStr(s)) == s
  }

  /** All the laws together; `JsonWitness` shows that a codec can meet them. */
  ghost predicate Lawful(c: JsonCodec)
  {
    && ReadsBackCompact(c)
    && ReadsBackPretty(c)
    && PrintsNonFiniteAsNull(c)
    && ParsesWellFormed(c)
    && RefusesBlank(c)
    && StringsAsText(c)
  }

  /** `v || d` for a text field: a truthy value converted to text, otherwise `d`. */
  function TextOr(c: JsonCodec, v: Option<Json>, d: string): string
  {
    if Truthy(v) then c.text(v.value) else d
  }

  /** The elements of an array, each converted to text. */
  function Texts(c: JsonCodec, items: seq<Json>): (r: seq<string>)
    ensures |r| == |items|
    ensures forall i :: 0 <= i < |items| ==> r[i] == c.text(items[i])
  {
    if items == [] then [] else [c.text(items[0])] + Texts(c, items[1..])
  }

  /** `v || []` for a list of strings. */
  function TextListOr(c: JsonCodec, v: Option<Json>): seq<string>
  {
    if Truthy(v) && v.value.JArr? then Texts(c, v.value.items) else []
  }

  /** A list of strings as a JSON array. */
  function StrArray(xs: seq<string>): (r: Json)
    ensures r.JArr? && |r.items| == |xs|
    ensures forall i :: 0 <= i < |xs| ==> r.items[i] == JStr(xs[i])
  {
    JArr(seq(|xs|, i requires 0 <= i < |xs| => JStr(xs[i])))
  }

  lemma {:induction false} TextsOfStrArray(c: JsonCodec, xs: seq<string>)
    requires StringsAsText(c)
    ensures Texts(c, StrArray(xs).items) == xs
  {
    var r := Texts(c, StrArray(xs).items);
    forall i | 0 <= i < |xs| ensures r[i] == xs[i] {
      assert StrArray(xs).items[i] == JStr(xs[i]);
    }
  }

  lemma {:induction false} WellFormedStrArray(xs: seq<string>)
    ensures WellFormed(StrArray(xs))
  {
    var a := StrArray(xs);
    forall i | 0 <= i < |a.items| ensures WellFormed(a.items[i]) {
      assert a.items[i] == JStr(xs[i]);
    }
  }

  /** A list of strings holds no number, so `JSON.stringify` changes nothing in it. */
  lemma {:induction false} NulledStrArray(xs: seq<string>)
    ensures Nulled(StrArray(xs)) == StrArray(xs)
  {
    var a := StrArray(xs);
    forall i | 0 <= i < |a.items| ensures AllFinite(a.items[i]) {
      assert a.items[i] == JStr(xs[i]);
    }
  }
}
