/** The visual JSON Schema editor of the switch-factor form: the schema it edits, how a
    loaded schema is normalised (a missing type inferred from `format` or `pattern`), which
    fields each type offers, and the edits that add, remove or change a field. Each edit
    builds a shallow copy of the schema, stores it and hands its JSON text on. */
module SwitchFactorEditor {
  import opened Wrappers
  import opened StrUtil
  import opened JsonValue
  import SwitchFactorSchema

  // ---------------------------------------------------------------------------------------
  // processSchemaData
  // ---------------------------------------------------------------------------------------

  /** A property found in a container's entries is a part of the container. */
  lemma LookupBelow(props: seq<(string, Json)>, key: string, parent: Json)
    requires forall i :: 0 <= i < |props| ==> props[i].1 < parent
    ensures Lookup(props, key) == JUndefined || Lookup(props, key) < parent
  {
    if key in Keys(props) {
      var i := FoundAt(props, key);
    }
  }

  /** Whether the type is inferred: a `format` or a `pattern` and no type. */
  predicate InfersString(e: seq<(string, Json)>) {
    (Truthy(Lookup(e, "format")) || Truthy(Lookup(e, "pattern"))) && !Truthy(Lookup(e, "type"))
  }

  /** The copy with its type inferred. */
  function Typed(e: seq<(string, Json)>): seq<(string, Json)> {
    if InfersString(e) then Put(e, "type", JStr("string")) else e
  }

  /** `processSchemaData`: values that are not objects (or are `null`) are kept; an object
      or array is copied into an object, gets type `string` when it has a `format` or a
      `pattern` but no type, and has its `anyOf`/`oneOf`/`allOf` arrays, its `items` and
      its `properties` processed in turn. */
  function ProcessSchema(data: Json): (r: Json)
    decreases data, 3
  {
    if TypeOf(data) != TObject || data == JNull then data
    else
      var e := Entries(data);
      JObj(ProcessNested(ProcessCombinators(Typed(e), e, data), e, data))
  }

  /** The three combinator fields, in the order the code visits them. */
  function ProcessCombinators(p: seq<(string, Json)>, e: seq<(string, Json)>, ghost data: Json)
    : seq<(string, Json)>
    requires forall i :: 0 <= i < |e| ==> e[i].1 < data
    decreases data, 2
  {
    var p1 := ProcessCombinator(p, e, "anyOf", data);
    var p2 := ProcessCombinator(p1, e, "oneOf", data);
    ProcessCombinator(p2, e, "allOf", data)
  }

  /** One of `anyOf`, `oneOf`, `allOf`: an array value is replaced by its processed
      elements. */
  function ProcessCombinator(p: seq<(string, Json)>, e: seq<(string, Json)>, key: string, ghost data: Json)
    : seq<(string, Json)>
    requires forall i :: 0 <= i < |e| ==> e[i].1 < data
    decreases data, 1
  {
    var v := Lookup(e, key);
    LookupBelow(e, key, data);
    if v.JArr? then Put(p, key, JArr(ProcessItems(v.items, v))) else p
  }

  /** `items` when truthy, then `properties` when it is a truthy object. */
  function ProcessNested(p: seq<(string, Json)>, e: seq<(string, Json)>, ghost data: Json)
    : seq<(string, Json)>
    requires forall i :: 0 <= i < |e| ==> e[i].1 < data
    decreases data, 2
  {
    var items := Lookup(e, "items");
    LookupBelow(e, "items", data);
    var p4 := if Truthy(items) then Put(p, "items", ProcessSchema(items)) else p;
    var props := Lookup(e, "properties");
    LookupBelow(e, "properties", data);
    if Truthy(props) && TypeOf(props) == TObject
    then Put(p4, "properties", JObj(ProcessEntries(Entries(props), props))) else p4
  }

  /** `items.map(processSchemaData)`. */
  function ProcessItems(items: seq<Json>, ghost parent: Json): (r: seq<Json>)
    requires forall i :: 0 <= i < |items| ==> items[i] < parent
    ensures |r| == |items|
    decreases parent, 0, |items|
  {
    if items == [] then [] else [ProcessSchema(items[0])] + ProcessItems(items[1..], parent)
  }

  /** The processed `properties`: each key with its processed schema. */
  function ProcessEntries(pe: seq<(string, Json)>, ghost parent: Json): (r: seq<(string, Json)>)
    requires forall i :: 0 <= i < |pe| ==> pe[i].1 < parent
    ensures Keys(r) == Keys(pe)
    decreases parent, 0, |pe|
  {
    if pe == [] then []
    else
      var rest := ProcessEntries(pe[1..], parent);
      var r := [(pe[0].0, ProcessSchema(pe[0].1))] + rest;
      assert r[1..] == rest;
      r
  }

  /** Each element of a combinator array is processed, in place. */
  lemma {:induction false} ProcessItemsElementwise(items: seq<Json>, parent: Json, i: nat)
    requires forall k :: 0 <= k < |items| ==> items[k] < parent
    requires i < |items|
    ensures ProcessItems(items, parent)[i] == ProcessSchema(items[i])
    decreases |items|
  {
    if i > 0 {
      ProcessItemsElementwise(items[1..], parent, i - 1);
    }
  }

  /** Each property schema is processed under its own name. */
  lemma {:induction false} ProcessEntriesLookup(pe: seq<(string, Json)>, parent: Json, key: string)
    requires forall k :: 0 <= k < |pe| ==> pe[k].1 < parent
    requires key in Keys(pe)
    ensures Lookup(ProcessEntries(pe, parent), key) == ProcessSchema(Lookup(pe, key))
    decreases |pe|
  {
    var rest := ProcessEntries(pe[1..], parent);
    assert ([(pe[0].0, ProcessSchema(pe[0].1))] + rest)[1..] == rest;
    if pe[0].0 != key {
      ProcessEntriesLookup(pe[1..], parent, key);
    }
  }

  /** Values that are not objects pass through unchanged; objects and arrays come out as
      objects. */
  lemma ProcessShape(data: Json)
    ensures TypeOf(data) != TObject || data == JNull ==> ProcessSchema(data) == data
    ensures TypeOf(data) == TObject && data != JNull ==> ProcessSchema(data).JObj?
  {
  }

  /** The combinator steps leave every other field as it was. */
  lemma CombinatorsKeep(p: seq<(string, Json)>, e: seq<(string, Json)>, data: Json, k: string)
    requires forall i :: 0 <= i < |e| ==> e[i].1 < data
    requires k != "anyOf" && k != "oneOf" && k != "allOf"
    ensures Lookup(ProcessCombinators(p, e, data), k) == Lookup(p, k)
  {
  }

  /** Each combinator step replaces an array by its processed elements. */
  lemma CombinatorsSet(p: seq<(string, Json)>, e: seq<(string, Json)>, data: Json, key: string)
    requires forall i :: 0 <= i < |e| ==> e[i].1 < data
    requires key == "anyOf" || key == "oneOf" || key == "allOf"
    requires Lookup(e, key).JArr?
    ensures Lookup(e, key) < data
    ensures Lookup(ProcessCombinators(p, e, data), key) == JArr(ProcessItems(Lookup(e, key).items, Lookup(e, key)))
  {
    LookupBelow(e, key, data);
    var p1 := ProcessCombinator(p, e, "anyOf", data);
    var p2 := ProcessCombinator(p1, e, "oneOf", data);
    if key == "anyOf" {
      assert Lookup(p2, key) == Lookup(p1, key);
    } else if key == "oneOf" {
      assert Lookup(p2, key) == JArr(ProcessItems(Lookup(e, key).items, Lookup(e, key)));
    }
  }

  /** The nested step leaves every field other than `items` and `properties`. */
  lemma NestedKeeps(p: seq<(string, Json)>, e: seq<(string, Json)>, data: Json, k: string)
    requires forall i :: 0 <= i < |e| ==> e[i].1 < data
    requires k != "items" && k != "properties"
    ensures Lookup(ProcessNested(p, e, data), k) == Lookup(p, k)
  {
  }

  /** The type: `string` when it is inferred, otherwise whatever type the schema had. */
  lemma ProcessType(data: Json)
    requires TypeOf(data) == TObject && data != JNull
    ensures Get(ProcessSchema(data), "type")
      == if InfersString(Entries(data)) then JStr("string") else Lookup(Entries(data), "type")
  {
    var e := Entries(data);
    CombinatorsKeep(Typed(e), e, data, "type");
    NestedKeeps(ProcessCombinators(Typed(e), e, data), e, data, "type");
  }

  /** A schema with a `format` or a `pattern` and no type comes out typed `string`, at every
      level the processing reaches. */
  lemma ProcessInfersString(data: Json)
    requires data.JObj? && InfersString(data.props)
    ensures Get(ProcessSchema(data), "type") == JStr("string")
  {
    ProcessType(data);
  }

  /** A truthy type is never replaced. */
  lemma ProcessKeepsType(data: Json)
    requires data.JObj? && Truthy(Get(data, "type"))
    ensures Get(ProcessSchema(data), "type") == Get(data, "type")
  {
    ProcessType(data);
  }

  /** The fields after the combinators: `items` processed when truthy, and an object
      `properties` processed property by property. */
  lemma ProcessNestedFields(data: Json, key: string)
    requires data.JObj?
    ensures Truthy(Get(data, "items")) ==> Get(ProcessSchema(data), "items") == ProcessSchema(Get(data, "items"))
    ensures var props := Get(data, "properties");
      props.JObj? && key in Keys(props.props) ==>
        Get(ProcessSchema(data), "properties").JObj?
        && Lookup(Get(ProcessSchema(data), "properties").props, key) == ProcessSchema(Lookup(props.props, key))
  {
    var e := Entries(data);
    var props := Lookup(e, "properties");
    if props.JObj? && key in Keys(props.props) {
      LookupBelow(e, "properties", data);
      ProcessEntriesLookup(Entries(props), props, key);
    }
  }

  /** A combinator array is replaced by its elements, each processed. */
  lemma ProcessCombinatorElements(data: Json, key: string, i: nat)
    requires data.JObj? && (key == "anyOf" || key == "oneOf" || key == "allOf")
    requires Get(data, key).JArr? && i < |Get(data, key).items|
    ensures Get(ProcessSchema(data), key).JArr?
    ensures |Get(ProcessSchema(data), key).items| == |Get(data, key).items|
    ensures Get(ProcessSchema(data), key).items[i] == ProcessSchema(Get(data, key).items[i])
  {
    var e := Entries(data);
    CombinatorsSet(Typed(e), e, data, key);
    NestedKeeps(ProcessCombinators(Typed(e), e, data), e, data, key);
    ProcessItemsElementwise(Get(data, key).items, Get(data, key), i);
  }

  /** Every other field is copied as it was. */
  lemma ProcessKeepsOthers(data: Json, k: string)
    requires data.JObj?
    requires k != "type" && k != "anyOf" && k != "oneOf" && k != "allOf" && k != "items" && k != "properties"
    ensures Get(ProcessSchema(data), k) == Get(data, k)
  {
    var e := Entries(data);
    CombinatorsKeep(Typed(e), e, data, k);
    NestedKeeps(ProcessCombinators(Typed(e), e, data), e, data, k);
  }

  // ---------------------------------------------------------------------------------------
  // Fields offered per type
  // ---------------------------------------------------------------------------------------

  /** The fields every type offers. */
  const CommonProps: seq<string> := ["description", "title", "default", "examples", "anyOf", "oneOf", "allOf"]

  /** `getAvailableProperties(type)`. */
  function AvailableProperties(t: Json): (r: seq<string>)
    ensures forall n :: n in CommonProps ==> n in r
  {
    if t == JStr("string") then CommonProps + ["minLength", "maxLength", "pattern", "format", "enum"]
    else if t == JStr("number") || t == JStr("integer") then CommonProps + ["minimum", "maximum", "multipleOf", "enum"]
    else if t == JStr("array") then CommonProps + ["items", "minItems", "maxItems", "uniqueItems"]
    else if t == JStr("object") then
      CommonProps + ["properties", "required", "additionalProperties", "minProperties", "maxProperties"]
    else CommonProps
  }

  /** The fields the add menu offers: without a type none; otherwise the available ones the
      schema does not have yet. */
  function UnusedProperties(schemaData: Json): (r: seq<string>)
    ensures forall i :: 0 <= i < |r| ==> !SwitchFactorSchema.HasOwn(schemaData, r[i])
  {
    var t := Get(schemaData, "type");
    if !Truthy(t) then []
    else Unowned(AvailableProperties(t), schemaData)
  }

  /** `names.filter(prop => !data.hasOwnProperty(prop))`. */
  function Unowned(names: seq<string>, data: Json): (r: seq<string>)
    ensures forall i :: 0 <= i < |r| ==> !SwitchFactorSchema.HasOwn(data, r[i])
    ensures forall n :: n in r <==> n in names && !SwitchFactorSchema.HasOwn(data, n)
  {
    if names == [] then []
    else (if SwitchFactorSchema.HasOwn(data, names[0]) then [] else [names[0]]) + Unowned(names[1..], data)
  }

  // ---------------------------------------------------------------------------------------
  // The edits, on values
  // ---------------------------------------------------------------------------------------

  /** A `{ type: 'string' }` schema. */
  const StringSchema := JObj([("type", JStr("string"))])

  /** The value `addProperty(propName)` gives the field, from the value it had: containers
      are kept when present, lists and combinators start empty or with one string schema,
      flags start false, and anything else starts as empty text. */
  function AddedValue(propName: string, current: Json): Json {
    if propName == "properties" then (if Truthy(current) then current else JObj([]))
    else if propName == "required" then (if Truthy(current) then current else JArr([]))
    else if propName == "enum" || propName == "examples" then JArr([])
    else if propName == "anyOf" || propName == "oneOf" || propName == "allOf" then JArr([StringSchema])
    else if propName == "items" then StringSchema
    else if propName == "additionalProperties" || propName == "uniqueItems" then JBool(false)
    else JStr("")
  }

  /** `{ ...data }`: the own enumerable properties of the value, in order. */
  function Spread(data: Json): seq<(string, Json)> {
    Entries(data)
  }

  /** The schema after `addProperty(propName)`. */
  function WithProperty(data: Json, propName: string): (r: Json)
    ensures r.JObj? && propName in Keys(r.props)
    ensures forall k :: k != propName ==> Lookup(r.props, k) == Lookup(Spread(data), k)
  {
    JObj(Put(Spread(data), propName, AddedValue(propName, Lookup(Spread(data), propName))))
  }

  /** The schema after `removeProperty(propName)`. */
  function WithoutProperty(data: Json, propName: string): (r: Json)
    ensures r.JObj? && propName !in Keys(r.props)
    ensures forall k :: k != propName ==> Lookup(r.props, k) == Lookup(Spread(data), k)
  {
    JObj(Remove(Spread(data), propName))
  }

  /** Whether a field survives a type change: `type` itself or one the new type offers. */
  predicate Survives(key: string, available: seq<string>) {
    key == "type" || key in available
  }

  /** The fields that survive a type change, in order. */
  function KeepAvailable(props: seq<(string, Json)>, available: seq<string>): (r: seq<(string, Json)>)
    ensures forall k :: k in Keys(r) <==> k in Keys(props) && Survives(k, available)
    ensures forall k :: Survives(k, available) ==> Lookup(r, k) == Lookup(props, k)
  {
    if props == [] then []
    else
      var rest := KeepAvailable(props[1..], available);
      if Survives(props[0].0, available) then
        var r := [props[0]] + rest;
        assert r[1..] == rest;
        r
      else rest
  }

  /** The schema after `updateProperty(propName, propValue)`: the field is set, and a new
      type drops every field the type does not offer. */
  function WithUpdate(data: Json, propName: string, propValue: Json): (r: Json) {
    var withField := Put(Spread(data), propName, propValue);
    if propName == "type" then JObj(KeepAvailable(withField, AvailableProperties(propValue))) else JObj(withField)
  }

  /** After a type change every field is `type` or one the new type offers, the type is
      the new one, and the offered fields keep their values. */
  lemma TypeChangeKeepsOffered(data: Json, t: Json)
    ensures var r := WithUpdate(data, "type", t);
      r.JObj?
      && (forall k :: k in Keys(r.props) ==> k == "type" || k in AvailableProperties(t))
      && Lookup(r.props, "type") == t
      && (forall k :: k in AvailableProperties(t) ==> Lookup(r.props, k) == Lookup(Spread(data), k) || k == "type")
  {
  }

  /** Any other update sets that one field and leaves the rest. */
  lemma UpdateSetsField(data: Json, propName: string, propValue: Json)
    requires propName != "type"
    ensures var r := WithUpdate(data, propName, propValue);
      r.JObj? && Lookup(r.props, propName) == propValue
      && forall k :: k != propName ==> Lookup(r.props, k) == Lookup(Spread(data), k)
  {
  }

  /** A field just added no longer appears in the add menu. */
  lemma AddedNotOffered(data: Json, propName: string)
    ensures propName !in UnusedProperties(WithProperty(data, propName))
  {
    var r := WithProperty(data, propName);
    assert SwitchFactorSchema.HasOwn(r, propName);
  }

  /** Adding a container field that is already present keeps its contents. */
  lemma AddKeepsPresentContainer(data: Json, propName: string)
    requires propName == "properties" || propName == "required"
    requires Truthy(Lookup(Spread(data), propName))
    ensures WithProperty(data, propName).props == Put(Spread(data), propName, Lookup(Spread(data), propName))
  {
  }

  // ---------------------------------------------------------------------------------------
  // The type-change loop
  // ---------------------------------------------------------------------------------------

  /** The fields left once every name in `seen` that does not survive has been deleted. */
  function DropSeen(props: seq<(string, Json)>, available: seq<string>, seen: seq<string>): (r: seq<(string, Json)>)
  {
    if props == [] then []
    else
      var rest := DropSeen(props[1..], available, seen);
      if props[0].0 in seen && !Survives(props[0].0, available) then rest else [props[0]] + rest
  }

  /** Deleting a name that does not survive extends what was dropped. */
  lemma {:induction false} DropSeenRemove(props: seq<(string, Json)>, available: seq<string>, seen: seq<string>, k: string)
    requires !Survives(k, available)
    ensures Remove(DropSeen(props, available, seen), k) == DropSeen(props, available, seen + [k])
  {
    if props != [] {
      DropSeenRemove(props[1..], available, seen, k);
      var rest := DropSeen(props[1..], available, seen);
      if !(props[0].0 in seen && !Survives(props[0].0, available)) {
        assert ([props[0]] + rest)[1..] == rest;
      }
    }
  }

  /** Passing over a name that survives changes nothing. */
  lemma {:induction false} DropSeenKeep(props: seq<(string, Json)>, available: seq<string>, seen: seq<string>, k: string)
    requires Survives(k, available)
    ensures DropSeen(props, available, seen) == DropSeen(props, available, seen + [k])
  {
    if props != [] {
      DropSeenKeep(props[1..], available, seen, k);
    }
  }

  /** One step of the loop: a name that does not survive is deleted, any other kept. */
  lemma DropSeenStep(props: seq<(string, Json)>, available: seq<string>, seen: seq<string>, k: string)
    ensures DropSeen(props, available, seen + [k])
      == if Survives(k, available) then DropSeen(props, available, seen) else Remove(DropSeen(props, available, seen), k)
  {
    if Survives(k, available) {
      DropSeenKeep(props, available, seen, k);
    } else {
      DropSeenRemove(props, available, seen, k);
    }
  }

  /** Once every name has been seen, what is left is exactly the surviving fields. */
  lemma {:induction false} DropSeenAll(props: seq<(string, Json)>, available: seq<string>, seen: seq<string>)
    requires forall k :: k in Keys(props) ==> k in seen
    ensures DropSeen(props, available, seen) == KeepAvailable(props, available)
  {
    if props != [] {
      assert forall k :: k in Keys(props[1..]) ==> k in Keys(props);
      DropSeenAll(props[1..], available, seen);
    }
  }

  /** Nothing seen, nothing dropped. */
  lemma {:induction false} DropSeenNone(props: seq<(string, Json)>, available: seq<string>)
    ensures DropSeen(props, available, []) == props
  {
    if props != [] {
      DropSeenNone(props[1..], available);
    }
  }

  /** The `Object.keys(newData).forEach` that deletes every field the new type does not
      offer. */
  method DropUnavailable(props: seq<(string, Json)>, available: seq<string>) returns (r: seq<(string, Json)>)
    ensures r == KeepAvailable(props, available)
  {
    r := DropEach(props, available, Keys(props));
    DropSeenAll(props, available, Keys(props));
  }

  /** The loop itself: deletes, one name after another, each of `keys` that does not
      survive. */
  method DropEach(props: seq<(string, Json)>, available: seq<string>, keys: seq<string>) returns (r: seq<(string, Json)>)
    ensures r == DropSeen(props, available, keys)
  {
    r := props;
    DropSeenNone(props, available);
    var i := 0;
    while i < |keys|
      invariant 0 <= i <= |keys|
      invariant r == DropSeen(props, available, keys[..i])
    {
      var key := keys[i];
      DropSeenStep(props, available, keys[..i], key);
      if key != "type" && key !in available {
        r := Remove(r, key);
      }
      assert keys[..i + 1] == keys[..i] + [key];
      i := i + 1;
    }
    assert keys[..i] == keys;
  }

  // ---------------------------------------------------------------------------------------
  // The editor
  // ---------------------------------------------------------------------------------------

  /** The editor's state: the schema being edited and every text it has handed to
      `onChange`; a read-only editor changes neither. */
  class SchemaEditor {
    var schemaData: Json
    var sent: seq<string>
    const readOnly: bool

    /** The editor starts on an empty schema. */
    constructor(readOnly: bool)
      ensures schemaData == JObj([]) && sent == [] && this.readOnly == readOnly
    {
      schemaData := JObj([]);
      sent := [];
      this.readOnly := readOnly;
    }

    /** The effect on a new `value`: non-empty text that parses replaces the schema;
        anything else leaves it. */
    method Load(value: string, parse: string -> Result<Json>)
      modifies this
      ensures sent == old(sent)
      ensures value != "" && parse(value).Ok? ==> schemaData == parse(value).value
      ensures value == "" || parse(value).Err? ==> schemaData == old(schemaData)
    {
      if value != "" {
        var parsed := parse(value);
        if parsed.Ok? {
          schemaData := parsed.value;
        }
      }
    }

    /** `updateSchema`: unless read-only, store the schema and hand on its text
        (`stringify` models `JSON.stringify(newData, null, 2)`). */
    method UpdateSchema(newData: Json, stringify: Json -> string)
      modifies this
      ensures readOnly ==> schemaData == old(schemaData) && sent == old(sent)
      ensures !readOnly ==> schemaData == newData && sent == old(sent) + [stringify(newData)]
    {
      if readOnly {
        return;
      }
      schemaData := newData;
      sent := sent + [stringify(newData)];
    }

    /** `addProperty`. */
    method AddProperty(propName: string, stringify: Json -> string)
      modifies this
      ensures readOnly ==> schemaData == old(schemaData) && sent == old(sent)
      ensures !readOnly ==> schemaData == WithProperty(old(schemaData), propName)
      ensures !readOnly ==> sent == old(sent) + [stringify(schemaData)]
    {
      var newData := Spread(schemaData);
      newData := Put(newData, propName, AddedValue(propName, Lookup(newData, propName)));
      UpdateSchema(JObj(newData), stringify);
    }

    /** `removeProperty`. */
    method RemoveProperty(propName: string, stringify: Json -> string)
      modifies this
      ensures readOnly ==> schemaData == old(schemaData) && sent == old(sent)
      ensures !readOnly ==> schemaData == WithoutProperty(old(schemaData), propName)
      ensures !readOnly ==> sent == old(sent) + [stringify(schemaData)]
    {
      var newData := Spread(schemaData);
      newData := Remove(newData, propName);
      UpdateSchema(JObj(newData), stringify);
    }

    /** `updateProperty`. */
    method UpdateProperty(propName: string, propValue: Json, stringify: Json -> string)
      modifies this
      ensures readOnly ==> schemaData == old(schemaData) && sent == old(sent)
      ensures !readOnly ==> schemaData == WithUpdate(old(schemaData), propName, propValue)
      ensures !readOnly ==> sent == old(sent) + [stringify(schemaData)]
    {
      var newData := Spread(schemaData);
      newData := Put(newData, propName, propValue);
      if propName == "type" {
        var available := AvailableProperties(propValue);
        newData := DropUnavailable(newData, available);
      }
      UpdateSchema(JObj(newData), stringify);
    }
  }
}
