/**
 * A codec that meets every law of `Json.Lawful`, so lemmas that assume the
 * laws are not vacuous. Its text format is a simple prefix code, not JSON;
 * only the laws matter.
 */
module JsonWitness {
  import opened Wrappers
  import opened JsText
  import opened Json

  /** A value read from the front of a text, and the text after it. */
  datatype Decoded<T> = Decoded(value: T, rest: string)

  /** `k` in unary (`k` ones and a full stop), followed by `rest`. */
  function NatTo(k: nat, rest: string): string
  {
    if k == 0 then ['.'] + rest else ['1'] + NatTo(k - 1, rest)
  }

  /** A sign and the magnitude in unary, followed by `rest`. */
  function IntTo(m: int, rest: string): string
  {
    if m < 0 then ['-'] + NatTo(-m, rest) else ['+'] + NatTo(m, rest)
  }

  /**
   * The text of a value followed by `rest`; NaN and the infinities are
   * written as `null` is.
   */
  function EncodeTo(j: Json, rest: string): string
    decreases j, 1
  {
    match j
    case JNull => ['n'] + rest
    case JBool(b) => [if b then 't' else 'f'] + rest
    case JNum(n) => if n.Finite? then ['d'] + IntTo(n.mantissa, IntTo(n.exponent, rest)) else ['n'] + rest
    case JStr(s) => ['s'] + NatTo(|s|, s + rest)
    case JArr(items) => ['a'] + NatTo(|items|, ItemsTo(items, rest))
    case JObj(keys, _) => ['o'] + NatTo(|keys|, MembersTo(j, keys, rest))
  }

  function ItemsTo(items: seq<Json>, rest: string): string
    decreases items
  {
    if items == [] then rest else EncodeTo(items[0], ItemsTo(items[1..], rest))
  }

  /** Each key, as its length and its characters, then its value. */
  function MembersTo(j: Json, keys: seq<string>, rest: string): string
    requires j.JObj?
    decreases j, 0, |keys|
  {
    if keys == [] then rest
    else
      var tail := MembersTo(j, keys[1..], rest);
      NatTo(|keys[0]|, keys[0] + (if keys[0] in j.fields then EncodeTo(j.fields[keys[0]], tail) else ['n'] + tail))
  }

  function DecodeNat(s: string): (r: Option<Decoded<nat>>)
    ensures r.Some? ==> |r.value.rest| < |s|
  {
    if s == [] then None
    else if s[0] == '.' then Some(Decoded(0, s[1..]))
    else if s[0] == '1' then
      match DecodeNat(s[1..])
      case None => None
      case Some(d) => Some(Decoded(d.value + 1, d.rest))
    else None
  }

  function DecodeInt(s: string): (r: Option<Decoded<int>>)
    ensures r.Some? ==> |r.value.rest| < |s|
  {
    if s == [] || (s[0] != '+' && s[0] != '-') then None
    else
      match DecodeNat(s[1..])
      case None => None
      case Some(d) =>
        var k: int := d.value;
        Some(Decoded(if s[0] == '-' then -k else k, d.rest))
  }

  /** The value at the front of `s`, if `s` starts with one. */
  function Decode(s: string): (r: Option<Decoded<Json>>)
    ensures r.Some? ==> |r.value.rest| < |s|
    decreases |s|, 0, 0
  {
    if s == [] then None
    else if s[0] == 'n' then Some(Decoded(JNull, s[1..]))
    else if s[0] == 't' then Some(Decoded(JBool(true), s[1..]))
    else if s[0] == 'f' then Some(Decoded(JBool(false), s[1..]))
    else if s[0] == 'd' then DecodeNumber(s[1..])
    else if s[0] == 's' then DecodeString(s[1..])
    else if s[0] == 'a' then DecodeArray(s[1..])
    else if s[0] == 'o' then DecodeObject(s[1..])
    else None
  }

  /** After `d`: the mantissa, then the exponent. */
  function DecodeNumber(t: string): (r: Option<Decoded<Json>>)
    ensures r.Some? ==> |r.value.rest| < |t|
  {
    match DecodeInt(t)
    case None => None
    case Some(m) =>
      match DecodeInt(m.rest)
      case None => None
      case Some(e) => Some(Decoded(JNum(Finite(m.value, e.value)), e.rest))
  }

  /** After `s`: the length, then the characters. */
  function DecodeString(t: string): (r: Option<Decoded<Json>>)
    ensures r.Some? ==> |r.value.rest| < |t|
  {
    match DecodeNat(t)
    case None => None
    case Some(n) => if n.value <= |n.rest| then Some(Decoded(JStr(n.rest[..n.value]), n.rest[n.value..])) else None
  }

  /** After `a`: the number of elements, then the elements. */
  function DecodeArray(t: string): (r: Option<Decoded<Json>>)
    ensures r.Some? ==> |r.value.rest| < |t|
    decreases |t|, 2, 0
  {
    match DecodeNat(t)
    case None => None
    case Some(n) =>
      match DecodeItems(n.rest, n.value)
      case None => None
      case Some(d) => Some(Decoded(JArr(d.value), d.rest))
  }

  /** After `o`: the number of members, then the members. */
  function DecodeObject(t: string): (r: Option<Decoded<Json>>)
    ensures r.Some? ==> |r.value.rest| < |t|
    decreases |t|, 2, 0
  {
    match DecodeNat(t)
    case None => None
    case Some(n) =>
      match DecodeMembers(n.rest, n.value)
      case None => None
      case Some(d) => Some(Decoded(JObj(d.value.0, d.value.1), d.rest))
  }

  /** `count` values one after the other. */
  function DecodeItems(s: string, count: nat): (r: Option<Decoded<seq<Json>>>)
    ensures r.Some? ==> |r.value.rest| <= |s|
    decreases |s|, 1, count
  {
    if count == 0 then Some(Decoded([], s))
    else
      match Decode(s)
      case None => None
      case Some(d) =>
        match DecodeItems(d.rest, count - 1)
        case None => None
        case Some(ds) => Some(Decoded([d.value] + ds.value, ds.rest))
  }

  /** `count` keys with their values: the keys in order, and the value of each. */
  function DecodeMembers(s: string, count: nat): (r: Option<Decoded<(seq<string>, map<string, Json>)>>)
    ensures r.Some? ==> |r.value.rest| <= |s|
    decreases |s|, 1, count
  {
    if count == 0 then Some(Decoded(([], map[]), s))
    else
      match DecodeNat(s)
      case None => None
      case Some(n) =>
        if n.value > |n.rest| then None
        else
          var key := n.rest[..n.value];
          match Decode(n.rest[n.value..])
          case None => None
          case Some(d) =>
            match DecodeMembers(d.rest, count - 1)
            case None => None
            case Some(ds) => Some(Decoded(([key] + ds.value.0, ds.value.1[key := d.value]), ds.rest))
  }

  /** The whole text must be one well-formed value. */
  function Parse(s: string): ParseResult
  {
    match Decode(s)
    case None => SyntaxError("Unexpected end of input")
    case Some(d) => if d.rest == [] && WellFormed(d.value) then Parsed(d.value) else SyntaxError("Unexpected token")
  }

  function Print(j: Json): string
  {
    EncodeTo(Nulled(j), "")
  }

  function Text(j: Json): string
  {
    if j.JStr? then j.s else ""
  }

  function Witness(): JsonCodec
  {
    JsonCodec(Parse, Print, Print, Text)
  }

  lemma {:induction false} DecodeEncodeNat(k: nat, rest: string)
    ensures DecodeNat(NatTo(k, rest)) == Some(Decoded(k, rest))
    decreases k
  {
    if k > 0 {
      DecodeEncodeNat(k - 1, rest);
    }
  }

  lemma DecodeEncodeInt(m: int, rest: string)
    ensures DecodeInt(IntTo(m, rest)) == Some(Decoded(m, rest))
  {
    DecodeEncodeNat(if m < 0 then -m else m, rest);
  }

  /** Finite numbers only, and every object has a value for exactly its keys. */
  predicate Closed(j: Json)
  {
    match j
    case JNum(n) => n.Finite?
    case JArr(items) => forall i :: 0 <= i < |items| ==> Closed(items[i])
    case JObj(keys, fields) =>
      && (forall key :: key in keys ==> key in fields)
      && (forall key :: key in fields ==> key in keys)
      && (forall key :: key in fields ==> Closed(fields[key]))
    case _ => true
  }

  lemma {:induction false} WellFormedIsClosed(j: Json)
    requires WellFormed(j) && AllFinite(j)
    ensures Closed(j)
  {
    match j
    case JArr(items) =>
      forall i | 0 <= i < |items| ensures Closed(items[i]) {
        WellFormedIsClosed(items[i]);
      }
    case JObj(keys, fields) =>
      forall key | key in fields ensures Closed(fields[key]) {
        WellFormedIsClosed(fields[key]);
      }
    case _ =>
  }

  /** Every value reads back from its text, whatever follows it. */
  lemma {:induction false} DecodeEncode(j: Json, rest: string)
    requires Closed(j)
    ensures Decode(EncodeTo(j, rest)) == Some(Decoded(j, rest))
    decreases j, 1
  {
    match j
    case JNull =>
    case JBool(b) =>
    case JNum(n) => NumberReadsBack(n.mantissa, n.exponent, rest);
    case JStr(t) => StringReadsBack(t, rest);
    case JArr(items) => ArrayReadsBack(items, rest);
    case JObj(_, _) => ObjectReadsBack(j, rest);
  }

  lemma NumberReadsBack(m: int, e: int, rest: string)
    ensures Decode(EncodeTo(JNum(Finite(m, e)), rest)) == Some(Decoded(JNum(Finite(m, e)), rest))
  {
    DecodeEncodeInt(m, IntTo(e, rest));
    DecodeEncodeInt(e, rest);
  }

  lemma StringReadsBack(t: string, rest: string)
    ensures Decode(EncodeTo(JStr(t), rest)) == Some(Decoded(JStr(t), rest))
  {
    DecodeEncodeNat(|t|, t + rest);
    assert (t + rest)[..|t|] == t && (t + rest)[|t|..] == rest;
  }

  lemma {:induction false} ArrayReadsBack(items: seq<Json>, rest: string)
    requires forall i :: 0 <= i < |items| ==> Closed(items[i])
    ensures Decode(EncodeTo(JArr(items), rest)) == Some(Decoded(JArr(items), rest))
    decreases items, 1
  {
    DecodeEncodeItems(items, rest);
    DecodeEncodeNat(|items|, ItemsTo(items, rest));
  }

  lemma {:induction false} ObjectReadsBack(j: Json, rest: string)
    requires j.JObj? && Closed(j)
    ensures Decode(EncodeTo(j, rest)) == Some(Decoded(j, rest))
    decreases j, 0, |j.keys| + 1
  {
    DecodeEncodeMembers(j, j.keys, rest);
    RestrictedAll(j.fields, j.keys);
    ObjectTextReads(j.keys, j.fields, MembersTo(j, j.keys, rest), rest);
    assert EncodeTo(j, rest) == ['o'] + NatTo(|j.keys|, MembersTo(j, j.keys, rest));
  }

  lemma ObjectTextReads(keys: seq<string>, fields: map<string, Json>, body: string, rest: string)
    requires DecodeMembers(body, |keys|) == Some(Decoded((keys, fields), rest))
    ensures Decode(['o'] + NatTo(|keys|, body)) == Some(Decoded(JObj(keys, fields), rest))
  {
    DecodeEncodeNat(|keys|, body);
  }

  lemma {:induction false} DecodeEncodeItems(items: seq<Json>, rest: string)
    requires forall i :: 0 <= i < |items| ==> Closed(items[i])
    ensures DecodeItems(ItemsTo(items, rest), |items|) == Some(Decoded(items, rest))
    decreases items, 0
  {
    if items != [] {
      DecodeEncode(items[0], ItemsTo(items[1..], rest));
      DecodeEncodeItems(items[1..], rest);
      assert [items[0]] + items[1..] == items;
    }
  }

  lemma {:induction false} DecodeEncodeMembers(j: Json, keys: seq<string>, rest: string)
    requires j.JObj?
    requires forall k :: k in keys ==> k in j.fields && Closed(j.fields[k])
    ensures DecodeMembers(MembersTo(j, keys, rest), |keys|) == Some(Decoded((keys, Restricted(j.fields, keys)), rest))
    decreases j, 0, |keys|
  {
    if keys != [] {
      var key := keys[0];
      var v := j.fields[key];
      var tail := MembersTo(j, keys[1..], rest);
      DecodeEncode(v, tail);
      DecodeEncodeMembers(j, keys[1..], rest);
      MemberReadsBack(key, v, tail, keys[1..], Restricted(j.fields, keys[1..]), rest);
      RestrictedStep(j.fields, keys);
    }
  }

  /** The members of `fields` named in `keys`. */
  function Restricted(fields: map<string, Json>, keys: seq<string>): map<string, Json>
    requires forall k :: k in keys ==> k in fields
  {
    map k | k in keys :: fields[k]
  }

  lemma RestrictedStep(fields: map<string, Json>, keys: seq<string>)
    requires keys != [] && forall k :: k in keys ==> k in fields
    ensures Restricted(fields, keys[1..])[keys[0] := fields[keys[0]]] == Restricted(fields, keys)
    ensures [keys[0]] + keys[1..] == keys
  {
  }

  lemma RestrictedAll(fields: map<string, Json>, keys: seq<string>)
    requires forall k :: k in keys <==> k in fields
    ensures Restricted(fields, keys) == fields
  {
  }

  /** One member: its key's length and characters, its value, then the other members. */
  lemma MemberReadsBack(key: string, v: Json, tail: string, keys: seq<string>, fields: map<string, Json>, rest: string)
    requires Decode(EncodeTo(v, tail)) == Some(Decoded(v, tail))
    requires DecodeMembers(tail, |keys|) == Some(Decoded((keys, fields), rest))
    ensures DecodeMembers(NatTo(|key|, key + EncodeTo(v, tail)), |keys| + 1)
            == Some(Decoded(([key] + keys, fields[key := v]), rest))
  {
    var after := key + EncodeTo(v, tail);
    DecodeEncodeNat(|key|, after);
    assert after[..|key|] == key && after[|key|..] == EncodeTo(v, tail);
  }

  /** Blank text does not start with any value. */
  lemma BlankDoesNotDecode(s: string)
    requires IsBlank(s)
    ensures Decode(s).None?
  {
    if s != [] {
      assert IsWhitespace(s[0]);
    }
  }

  /** The witness codec meets every law. */
  lemma WitnessIsLawful()
    ensures Lawful(Witness())
  {
    var c := Witness();
    forall j | WellFormed(j) ensures c.parse(c.stringify(j)) == Parsed(Nulled(j)) {
      WellFormedIsClosed(Nulled(j));
      DecodeEncode(Nulled(j), []);
    }
    assert ReadsBackCompact(c);
    assert ReadsBackPretty(c);
    forall j ensures c.stringify(Nulled(j)) == c.stringify(j) && c.pretty(Nulled(j)) == c.pretty(j) {
      NulledTwice(j);
    }
    forall s | IsBlank(s) ensures c.parse(s).SyntaxError? {
      BlankDoesNotDecode(s);
    }
  }
}
