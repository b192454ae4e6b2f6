/** Dynamic values as the console code and `encoding/json` handle them: the JSON values plus
    JavaScript's `undefined`, with objects as their properties in insertion order. Numbers
    are integers; floating point is not modelled. */
module JsonValue {
  import opened StrUtil

  datatype Json =
    | JUndefined
    | JNull
    | JBool(b: bool)
    | JNum(n: int)
    | JStr(s: string)
    | JArr(items: seq<Json>)
    | JObj(props: seq<(string, Json)>)

  /** The property names of an object, in order. */
  function Keys(props: seq<(string, Json)>): (r: seq<string>)
    ensures |r| == |props| && forall i :: 0 <= i < |props| ==> r[i] == props[i].0
  {
    if props == [] then [] else [props[0].0] + Keys(props[1..])
  }

  /** `obj[key]` on a property list: the value of the first property of that name, or
      `undefined`. */
  function Lookup(props: seq<(string, Json)>, key: string): (r: Json)
    ensures key !in Keys(props) ==> r == JUndefined
  {
    if props == [] then JUndefined
    else if props[0].0 == key then props[0].1
    else Lookup(props[1..], key)
  }

  /** The property a lookup finds, by position. */
  function FoundAt(props: seq<(string, Json)>, key: string): (i: nat)
    requires key in Keys(props)
    ensures i < |props| && props[i].0 == key && Lookup(props, key) == props[i].1
  {
    if props[0].0 == key then 0
    else 1 + FoundAt(props[1..], key)
  }

  /** `v[key]`: a property of an object; any other value has none here. */
  function Get(v: Json, key: string): Json {
    if v.JObj? then Lookup(v.props, key) else JUndefined
  }

  /** A property found is a part of the object. */
  lemma GetPart(v: Json, key: string)
    ensures Get(v, key) == JUndefined || Get(v, key) < v
  {
    if v.JObj? && key in Keys(v.props) {
      var i := FoundAt(v.props, key);
      assert v.props[i] in v.props;
    }
  }

  /** A canonical array index: decimal digits without a leading zero. */
  predicate IsIndexKey(key: string) {
    |key| >= 1 && AllDigits(key) && (key[0] == '0' ==> key == "0")
  }

  /** `v[key]` for any value in the subset modelled: own properties of an object, the
      elements and `length` of arrays and strings, and nothing on the other values.
      Properties inherited through prototypes (`toString`, `constructor`) are not
      modelled. */
  function Prop(v: Json, key: string): (r: Json)
    ensures v.JObj? ==> r == Lookup(v.props, key)
    ensures !IsIndexKey(key) && key != "length" ==> r == Get(v, key)
  {
    match v
    case JObj(props) => Lookup(props, key)
    case JArr(items) =>
      if IsIndexKey(key) && DigitsValue(key) < |items| then items[DigitsValue(key)]
      else if key == "length" then JNum(|items|)
      else JUndefined
    case JStr(s) =>
      if IsIndexKey(key) && DigitsValue(key) < |s| then JStr([s[DigitsValue(key)]])
      else if key == "length" then JNum(|s|)
      else JUndefined
    case _ => JUndefined
  }

  /** The own enumerable properties of a container (`Object.keys` with the values): an
      object's properties, or an array's elements under their index names. The values are
      parts of `v`. */
  function Entries(v: Json): (r: seq<(string, Json)>)
    ensures forall i :: 0 <= i < |r| ==> r[i].1 < v
    ensures v.JObj? ==> r == v.props
    ensures v.JArr? ==> |r| == |v.items| && forall i :: 0 <= i < |r| ==> r[i] == (NatToString(i), v.items[i])
    ensures !v.JObj? && !v.JArr? ==> r == []
  {
    match v
    case JObj(props) =>
      assert forall i :: 0 <= i < |props| ==> props[i].1 < v by {
        forall i | 0 <= i < |props| ensures props[i].1 < v {
          assert props[i] in props;
        }
      }
      props
    case JArr(items) => seq(|items|, i requires 0 <= i < |items| => (NatToString(i), items[i]))
    case _ => []
  }

  /** A property name that is not an index: every container's entries have it exactly as
      `v[key]` reads it, and other values have none. */
  lemma EntriesNamed(v: Json, key: string)
    requires !AllDigits(key) && key != "length"
    ensures Lookup(Entries(v), key) == Prop(v, key)
  {
    if v.JArr? {
      assert key !in Keys(Entries(v)) by {
        forall i | 0 <= i < |Entries(v)| ensures Keys(Entries(v))[i] != key {
          assert AllDigits(NatToString(i));
        }
      }
    }
  }

  /** `String(v)`: the text JavaScript converts a value to. */
  function JsString(v: Json): string
    decreases v
  {
    match v
    case JUndefined => "undefined"
    case JNull => "null"
    case JBool(b) => if b then "true" else "false"
    case JNum(n) => IntToString(n)
    case JStr(s) => s
    case JArr(items) => ElementsString(items, v)
    case JObj(_) => "[object Object]"
  }

  /** `Array.prototype.join(',')`, with `undefined` and `null` elements as empty text. */
  function ElementsString(items: seq<Json>, ghost parent: Json): string
    requires forall i :: 0 <= i < |items| ==> items[i] < parent
    decreases parent, |items|
  {
    if items == [] then ""
    else
      var last := items[|items| - 1];
      var text := if last == JUndefined || last == JNull then "" else JsString(last);
      if |items| == 1 then text else ElementsString(items[..|items| - 1], parent) + "," + text
  }

  /** `obj[key] = value`: an existing property keeps its place and takes the new value; a new
      one goes last. */
  function Put(props: seq<(string, Json)>, key: string, value: Json): (r: seq<(string, Json)>)
    ensures Lookup(r, key) == value
    ensures forall k :: k != key ==> Lookup(r, k) == Lookup(props, k)
    ensures key in Keys(props) ==> Keys(r) == Keys(props)
    ensures key !in Keys(props) ==> Keys(r) == Keys(props) + [key]
  {
    if props == [] then [(key, value)]
    else
      if props[0].0 == key then
        var r := [(key, value)] + props[1..];
        assert r[1..] == props[1..];
        r
      else
        var rest := Put(props[1..], key, value);
        var r := [props[0]] + rest;
        assert r[1..] == rest;
        assert Keys(props) == [props[0].0] + Keys(props[1..]);
        assert key in Keys(props) <==> key in Keys(props[1..]);
        r
  }

  /** Writing back the value a property already has changes nothing. */
  lemma {:induction false} PutSame(props: seq<(string, Json)>, key: string)
    requires key in Keys(props)
    ensures Put(props, key, Lookup(props, key)) == props
  {
    if props[0].0 != key {
      PutSame(props[1..], key);
    }
  }

  /** A second write of a property overrides the first. */
  lemma {:induction false} PutPut(props: seq<(string, Json)>, key: string, a: Json, b: Json)
    ensures Put(Put(props, key, a), key, b) == Put(props, key, b)
  {
    if props != [] && props[0].0 != key {
      PutPut(props[1..], key, a, b);
      var once := Put(props[1..], key, a);
      assert ([props[0]] + once)[1..] == once;
    }
  }

  /** `delete obj[key]` on a property list. */
  function Remove(props: seq<(string, Json)>, key: string): (r: seq<(string, Json)>)
    ensures key !in Keys(r)
    ensures forall k :: k != key ==> Lookup(r, k) == Lookup(props, k)
    ensures forall k :: k in Keys(r) <==> k in Keys(props) && k != key
  {
    if props == [] then []
    else if props[0].0 == key then Remove(props[1..], key)
    else
      var rest := Remove(props[1..], key);
      assert ([props[0]] + rest)[1..] == rest;
      [props[0]] + rest
  }

  /** `{ ...a, ...b }` on property lists: the properties of `b` written over those of `a`,
      in order. */
  function Merge(a: seq<(string, Json)>, b: seq<(string, Json)>): (r: seq<(string, Json)>)
    decreases |b|
  {
    if b == [] then a else Merge(Put(a, b[0].0, b[0].1), b[1..])
  }

  /** No property name appears twice, as in every object JavaScript builds. */
  predicate DistinctKeys(props: seq<(string, Json)>) {
    forall i, j :: 0 <= i < j < |props| ==> props[i].0 != props[j].0
  }

  /** A merged property comes from `b` when `b` has it, otherwise from `a`. */
  lemma {:induction false} MergeLookup(a: seq<(string, Json)>, b: seq<(string, Json)>, k: string)
    requires DistinctKeys(b)
    ensures Lookup(Merge(a, b), k) == if k in Keys(b) then Lookup(b, k) else Lookup(a, k)
    decreases |b|
  {
    if b != [] {
      assert DistinctKeys(b[1..]) by {
        forall i, j | 0 <= i < j < |b[1..]| ensures b[1..][i].0 != b[1..][j].0 {
          assert b[1..][i] == b[i + 1] && b[1..][j] == b[j + 1];
        }
      }
      MergeLookup(Put(a, b[0].0, b[0].1), b[1..], k);
      if k == b[0].0 {
        assert k !in Keys(b[1..]) by {
          forall i | 0 <= i < |b[1..]| ensures Keys(b[1..])[i] != k {
            assert b[1..][i] == b[i + 1];
          }
        }
      }
    }
  }

  /** JavaScript truthiness; `NaN` does not occur. */
  predicate Truthy(v: Json) {
    match v
    case JUndefined => false
    case JNull => false
    case JBool(b) => b
    case JNum(n) => n != 0
    case JStr(s) => s != ""
    case _ => true
  }

  /** The results of JavaScript's `typeof` on the values modelled. */
  datatype JsType = TUndefined | TObject | TBoolean | TNumber | TString

  /** The text `typeof` gives. */
  function TypeName(t: JsType): string {
    match t
    case TUndefined => "undefined"
    case TObject => "object"
    case TBoolean => "boolean"
    case TNumber => "number"
    case TString => "string"
  }

  /** JavaScript `typeof`: `null`, arrays and objects are all objects. */
  function TypeOf(v: Json): (r: JsType)
    ensures r == TObject <==> v.JNull? || v.JArr? || v.JObj?
  {
    match v
    case JUndefined => TUndefined
    case JBool(_) => TBoolean
    case JNum(_) => TNumber
    case JStr(_) => TString
    case _ => TObject
  }

  /** `v === undefined || v === null || v === ''`: the test for a missing value. */
  predicate Blank(v: Json) {
    v == JUndefined || v == JNull || v == JStr("")
  }

  /** `typeof v === 'object' && !Array.isArray(v)`, which holds for `null` too. */
  predicate IsObjectLike(v: Json) {
    TypeOf(v) == TObject && !v.JArr?
  }

  /** A value that JSON text can express: no `undefined` anywhere. */
  predicate Plain(v: Json)
    decreases v
  {
    match v
    case JUndefined => false
    case JArr(items) => forall i :: 0 <= i < |items| ==> Plain(items[i])
    case JObj(props) => forall i :: 0 <= i < |props| ==> Plain(props[i].1)
    case _ => true
  }

  /** The name `encoding/json` gives a JSON value's kind in its type errors. */
  function GoKind(v: Json): string {
    match v
    case JBool(_) => "bool"
    case JNum(_) => "number"
    case JStr(_) => "string"
    case JArr(_) => "array"
    case JObj(_) => "object"
    case _ => "null"
  }
}
