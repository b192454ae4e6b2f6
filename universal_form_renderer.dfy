/** The schema-driven value editor of the console: which schema it renders, the value it
    starts from, how a string value is read as JSON, and how an edit at a field path is
    written back into a copy of the value and handed on. */
module UniversalFormRenderer {
  import opened Wrappers
  import opened StrUtil
  import opened JsonValue
  import opened RuleBuilder

  // ---------------------------------------------------------------------------------------
  // Choosing the schema
  // ---------------------------------------------------------------------------------------

  /** `isValidSchema`: a truthy object that names at least one of `type`, `properties`,
      `$schema`, `items` or `enum`. `typeof` also lets arrays and null through, but neither
      carries such a field, so only an object literal with some property can be valid. */
  predicate IsValidSchema(input: Json): (r: bool)
    ensures r ==> input.JObj? && |input.props| >= 1
  {
    Truthy(input) && TypeOf(input) == TObject
    && (Truthy(Get(input, "type")) || Truthy(Get(input, "properties")) || Truthy(Get(input, "$schema"))
        || Truthy(Get(input, "items")) || Truthy(Get(input, "enum")))
  }

  /** The schema used when the one given is not valid: a single string titled `Value`. */
  const FallbackSchema := JObj([("type", JStr("string")), ("title", JStr("Value"))])

  /** The schema the editor renders. */
  function EffectiveSchema(input: Json): (r: Json)
    ensures IsValidSchema(input) ==> r == input
    ensures !IsValidSchema(input) ==> r == FallbackSchema
  {
    if IsValidSchema(input) then input else FallbackSchema
  }

  /** Whatever it is given, the editor renders a valid schema, and choosing again changes
      nothing. */
  lemma EffectiveSchemaValid(input: Json)
    ensures IsValidSchema(EffectiveSchema(input))
    ensures EffectiveSchema(EffectiveSchema(input)) == EffectiveSchema(input)
  {
    if !IsValidSchema(input) {
      assert Get(FallbackSchema, "type") == JStr("string");
    }
  }

  // ---------------------------------------------------------------------------------------
  // Default values
  // ---------------------------------------------------------------------------------------

  /** The `type` names the editor distinguishes. */
  datatype FormType = FObject | FArray | FString | FNumber | FInteger | FBoolean | FNull | FOther

  function FormTypeOf(t: Json): FormType {
    if t == JStr("object") then FObject
    else if t == JStr("array") then FArray
    else if t == JStr("string") then FString
    else if t == JStr("number") then FNumber
    else if t == JStr("integer") then FInteger
    else if t == JStr("boolean") then FBoolean
    else if t == JStr("null") then FNull
    else FOther
  }

  /** The empty value of each type; `undefined` for an unknown one. */
  function EmptyOf(t: FormType): Json {
    match t
    case FObject => JObj([])
    case FArray => JArr([])
    case FString => JStr("")
    case FNumber => JNum(0)
    case FInteger => JNum(0)
    case FBoolean => JBool(false)
    case FNull => JNull
    case FOther => JUndefined
  }

  /** `getDefaultValue`: the schema's own `default` when it has one, otherwise the empty
      value of its type. */
  function DefaultValue(schema: Json): Json {
    var d := Get(schema, "default");
    if d != JUndefined then d else EmptyOf(FormTypeOf(Get(schema, "type")))
  }

  /** Whether a value has the JSON type a type name asks for. */
  predicate HasFormType(v: Json, t: FormType) {
    match t
    case FObject => v.JObj?
    case FArray => v.JArr?
    case FString => v.JStr?
    case FNumber => v.JNum?
    case FInteger => v.JNum?
    case FBoolean => v.JBool?
    case FNull => v.JNull?
    case FOther => true
  }

  /** Without a `default`, the default value has the schema's type, and it is the falsy one
      of that type, or `{}` and `[]` for objects and arrays; an unknown type gives
      `undefined`. */
  lemma DefaultValueTyped(schema: Json)
    requires Get(schema, "default") == JUndefined
    ensures HasFormType(DefaultValue(schema), FormTypeOf(Get(schema, "type")))
    ensures !Truthy(DefaultValue(schema)) && !DefaultValue(schema).JArr? && !DefaultValue(schema).JObj?
      <==> FormTypeOf(Get(schema, "type")) !in {FObject, FArray}
    ensures DefaultValue(schema) == JUndefined <==> FormTypeOf(Get(schema, "type")) == FOther
    ensures FormTypeOf(Get(schema, "type")) == FObject ==> DefaultValue(schema) == JObj([])
    ensures FormTypeOf(Get(schema, "type")) == FArray ==> DefaultValue(schema) == JArr([])
  {
  }

  /** A `default` that is present always wins, whatever the type says. */
  lemma ExplicitDefaultWins(schema: Json, d: Json)
    requires schema.JObj? && Get(schema, "default") == d && d != JUndefined
    ensures DefaultValue(schema) == d
  {
  }

  // ---------------------------------------------------------------------------------------
  // Reading the value
  // ---------------------------------------------------------------------------------------

  /** The types whose values the editor keeps as they are rather than as JSON text. */
  predicate IsPrimitiveType(schema: Json) {
    FormTypeOf(Get(schema, "type")) in {FString, FNumber, FBoolean}
  }

  /** The `formData` memo: a missing or empty value reads as the default; a string for a
      primitive type is the value itself; any other string is parsed as JSON (`parse`, which
      models `JSON.parse`), falling back to the default when that fails; values that are not
      strings are used as they are. */
  function FormData(value: Json, schema: Json, parse: string -> Result<Json>): (r: Json) {
    if value == JUndefined || value == JStr("") then DefaultValue(schema)
    else if value.JStr? then
      if IsPrimitiveType(schema) then value
      else match parse(value.s)
        case Ok(v) => v
        case Err(_) => DefaultValue(schema)
    else value
  }

  /** What the editor works on: JSON text is read back, anything unreadable or absent is the
      default, and values that are not text are untouched. */
  lemma FormDataCases(value: Json, schema: Json, parse: string -> Result<Json>)
    ensures !value.JStr? && value != JUndefined ==> FormData(value, schema, parse) == value
    ensures Blank(value) && value != JNull ==> FormData(value, schema, parse) == DefaultValue(schema)
    ensures value.JStr? && value.s != "" && !IsPrimitiveType(schema) && parse(value.s).Ok?
      ==> FormData(value, schema, parse) == parse(value.s).value
    ensures value.JStr? && !IsPrimitiveType(schema) && parse(value.s).Err?
      ==> FormData(value, schema, parse) == DefaultValue(schema)
  {
  }

  /** Text the editor once emitted for a structured schema reads back as the value it
      held, as long as the JSON text round-trips. */
  lemma FormDataReadsEmitted(v: Json, schema: Json, parse: string -> Result<Json>, stringify: Json -> string)
    requires !IsPrimitiveType(schema)
    requires stringify(v) != "" && parse(stringify(v)) == Ok(v)
    ensures FormData(JStr(stringify(v)), schema, parse) == v
  {
  }

  // ---------------------------------------------------------------------------------------
  // Writing at a path
  // ---------------------------------------------------------------------------------------

  /** `current[key]` as a read that can throw: reading a property of `undefined` or `null`
      is a `TypeError`, which is `None`. */
  function Read(v: Json, key: string): (r: Option<Json>)
    ensures r.None? <==> v == JUndefined || v == JNull
    ensures r.Some? ==> r.value == Prop(v, key)
  {
    if v == JUndefined || v == JNull then None else Some(Prop(v, key))
  }

  /** `current[key] = x`: on an object it sets the property; on an array an index key sets
      that element (growing the array with holes) and any other key names a property that is
      not an element, which JSON text drops; on any other value the module's strict mode
      throws a `TypeError`, which is `None`. */
  function Write(v: Json, key: string, x: Json): (r: Option<Json>)
    ensures r.Some? <==> v.JObj? || v.JArr?
    ensures v.JObj? ==> r == Some(JObj(Put(v.props, key, x)))
    ensures v.JArr? && IsIndexKey(key) ==> r == Some(JArr(SetElement(v.items, DigitsValue(key), x)))
    ensures v.JArr? && !IsIndexKey(key) ==> r == Some(v)
  {
    match v
    case JObj(props) => Some(JObj(Put(props, key, x)))
    case JArr(items) => if IsIndexKey(key) then Some(JArr(SetElement(items, DigitsValue(key), x))) else Some(v)
    case _ => None
  }

  /** `/^\d+$/.test(key)`. */
  predicate IsNumericKey(key: string) {
    |key| >= 1 && AllDigits(key)
  }

  /** The container made for a missing step: an array when the next key is numeric, an
      object otherwise. */
  function Fresh(nextKey: string): (r: Json)
    ensures r.JArr? <==> IsNumericKey(nextKey)
    ensures r.JObj? <==> !IsNumericKey(nextKey)
  {
    if IsNumericKey(nextKey) then JArr([]) else JObj([])
  }

  /** The value after the path-walking loop of `handleChange` writes `x` at `path`: each
      falsy step is first replaced by a fresh container, and the final key receives `x`.
      `None` when a read or a write throws. */
  function SetPath(v: Json, path: seq<string>, x: Json): Option<Json>
    requires |path| >= 1
    decreases |path|
  {
    if |path| == 1 then Write(v, path[0], x)
    else
      match Read(v, path[0])
      case None => None
      case Some(child) =>
        var start := if Truthy(child) then child else Fresh(path[1]);
        var base := if Truthy(child) then Some(v) else Write(v, path[0], start);
        match base
        case None => None
        case Some(b) =>
          match SetPath(start, path[1..], x)
          case None => None
          case Some(c) => Write(b, path[0], c)
  }

  /** The value found by following `path` one key at a time, as the walk of `handleChange`
      steps with `current = current[key]`: the value at the path without its last key, read
      at that key. */
  function GetPath(v: Json, path: seq<string>): (r: Json)
    ensures |path| >= 1 ==> r == Prop(GetPath(v, path[..|path| - 1]), path[|path| - 1])
    decreases |path|
  {
    if path == [] then v
    else
      assert |path| >= 2 ==> path[1..][..|path| - 2] == path[..|path| - 1][1..];
      GetPath(Prop(v, path[0]), path[1..])
  }

  /** The walk reaches only containers whose step it can store: objects, and arrays
      addressed by an index. */
  predicate Writable(v: Json, key: string) {
    v.JObj? || (v.JArr? && IsIndexKey(key))
  }

  /** The containers the walk of `path` passes through, starting from `v`, are all
      writable at their step. */
  predicate Lands(v: Json, path: seq<string>)
    requires |path| >= 1
    decreases |path|
  {
    Writable(v, path[0])
    && (|path| > 1 ==>
      var child := Prop(v, path[0]);
      Lands(if Truthy(child) then child else Fresh(path[1]), path[1..]))
  }

  /** A written element can be read back. */
  lemma WriteThenProp(v: Json, key: string, x: Json)
    requires Writable(v, key)
    ensures Write(v, key, x).Some? && Prop(Write(v, key, x).value, key) == x
  {
    if v.JArr? {
      var items := SetElement(v.items, DigitsValue(key), x);
      assert items[DigitsValue(key)] == x;
    }
  }

  /** Setting an element twice keeps the second value. */
  lemma SetElementTwice(items: seq<Json>, k: nat, a: Json, b: Json)
    ensures SetElement(SetElement(items, k, a), k, b) == SetElement(items, k, b)
  {
    var once := SetElement(items, k, a);
    assert k < |once|;
    var lhs := SetElement(once, k, b);
    var rhs := SetElement(items, k, b);
    assert |lhs| == |rhs|;
    forall i | 0 <= i < |lhs| ensures lhs[i] == rhs[i] {
      if k >= |items| && |items| <= i < k {
        assert once[i] == JUndefined;
      }
    }
  }

  /** Rewriting a step of the walk first with a fresh container and then with the filled
      one is the same as the second write alone. */
  lemma WriteWrite(v: Json, key: string, a: Json, b: Json)
    requires Write(v, key, a).Some?
    ensures Write(Write(v, key, a).value, key, b) == Write(v, key, b)
  {
    if v.JObj? {
      PutPut(v.props, key, a, b);
    } else if IsIndexKey(key) {
      SetElementTwice(v.items, DigitsValue(key), a, b);
    }
  }

  /** Where every step is writable, the write succeeds and the value at `path` is `x`. */
  lemma {:induction false} SetPathLands(v: Json, path: seq<string>, x: Json)
    requires |path| >= 1 && Lands(v, path)
    ensures SetPath(v, path, x).Some?
    ensures GetPath(SetPath(v, path, x).value, path) == x
    decreases |path|, 1
  {
    if |path| == 1 {
      WriteThenProp(v, path[0], x);
      assert GetPath(SetPath(v, path, x).value, path) == GetPath(x, []);
    } else {
      LandsStep(v, path, x);
    }
  }

  /** The step case of `SetPathLands`. */
  lemma {:induction false} LandsStep(v: Json, path: seq<string>, x: Json)
    requires |path| > 1 && Lands(v, path)
    ensures SetPath(v, path, x).Some?
    ensures GetPath(SetPath(v, path, x).value, path) == x
    decreases |path|, 0
  {
    var child := Prop(v, path[0]);
    var start := if Truthy(child) then child else Fresh(path[1]);
    assert Lands(start, path[1..]);
    SetPathLands(start, path[1..], x);
    var c := SetPath(start, path[1..], x).value;
    assert Read(v, path[0]) == Some(child);
    var b := if Truthy(child) then v else Write(v, path[0], start).value;
    assert Writable(b, path[0]);
    WriteThenProp(b, path[0], c);
    var r := Write(b, path[0], c).value;
    assert SetPath(v, path, x) == Some(r);
    assert GetPath(r, path) == GetPath(Prop(r, path[0]), path[1..]);
  }

  /** A write through an object changes only the property it walks into; that property
      is the result of writing the rest of the path into it (or into a fresh container when
      it was falsy), and no property is lost. */
  lemma SetPathInObject(v: Json, path: seq<string>, x: Json, r: Json)
    requires v.JObj? && |path| >= 1 && SetPath(v, path, x) == Some(r)
    ensures r.JObj?
    ensures forall k :: k != path[0] ==> Get(r, k) == Get(v, k)
    ensures forall k :: k in Keys(v.props) ==> k in Keys(r.props)
    ensures |path| == 1 ==> Get(r, path[0]) == x
    ensures |path| > 1 ==>
      var child := Get(v, path[0]);
      SetPath(if Truthy(child) then child else Fresh(path[1]), path[1..], x) == Some(Get(r, path[0]))
  {
    if |path| > 1 {
      var child := Get(v, path[0]);
      var start := if Truthy(child) then child else Fresh(path[1]);
      var c := SetPath(start, path[1..], x).value;
      var b := if Truthy(child) then v else Write(v, path[0], start).value;
      assert r == JObj(Put(b.props, path[0], c));
    }
  }

  /** A falsy step is replaced by an array exactly when the key after it is numeric. */
  lemma SetPathCreates(v: Json, path: seq<string>, x: Json, r: Json)
    requires v.JObj? && |path| >= 2 && !Truthy(Get(v, path[0])) && SetPath(v, path, x) == Some(r)
    ensures Get(r, path[0]).JArr? <==> IsNumericKey(path[1])
    ensures Get(r, path[0]).JObj? <==> !IsNumericKey(path[1])
  {
    SetPathInObject(v, path, x, r);
    var start := Fresh(path[1]);
    var inner := Get(r, path[0]);
    if |path| == 2 {
      assert SetPath(start, path[1..], x) == Write(start, path[1], x);
    } else {
      var grand := Prop(start, path[1]);
      assert grand == JUndefined;
      var s2 := Fresh(path[2]);
      var b2 := Write(start, path[1], s2);
      assert SetPath(start, path[1..], x) == Write(b2.value, path[1], SetPath(s2, path[2..], x).value);
    }
  }

  /** Writing below a truthy primitive (a number, `true`, a non-empty string) always
      throws. */
  lemma {:induction false} SetPathPrimitiveFails(v: Json, path: seq<string>, x: Json)
    requires |path| >= 1 && !v.JObj? && !v.JArr?
    ensures SetPath(v, path, x).None?
    decreases |path|
  {
    if |path| > 1 && v != JUndefined && v != JNull {
      var child := Prop(v, path[0]);
      if Truthy(child) {
        assert !child.JObj? && !child.JArr?;
        SetPathPrimitiveFails(child, path[1..], x);
      }
    }
  }

  // ---------------------------------------------------------------------------------------
  // The path-walking loop
  // ---------------------------------------------------------------------------------------

  /** The steps the walk passed, as the container at each step and the key taken there. */
  type Frames = seq<(Json, string)>

  /** Storing `inner` back up through the frames, innermost first. */
  function Rebuild(frames: Frames, inner: Option<Json>): Option<Json>
    decreases |frames|
  {
    if frames == [] then inner
    else
      var last := frames[|frames| - 1];
      var stored := match inner case None => None case Some(c) => Write(last.0, last.1, c);
      Rebuild(frames[..|frames| - 1], stored)
  }

  /** A throw anywhere inside is a throw of the whole. */
  lemma {:induction false} RebuildNone(frames: Frames)
    ensures Rebuild(frames, None) == None
    decreases |frames|
  {
    if frames != [] {
      RebuildNone(frames[..|frames| - 1]);
    }
  }

  /** One step of the walk: descending into `path[i]` moves the unfolding of `SetPath`
      into a new frame. */
  lemma DescendStep(frames: Frames, current: Json, path: seq<string>, i: nat, x: Json,
                    child: Json, start: Json, b: Json)
    requires i + 1 < |path|
    requires Read(current, path[i]) == Some(child)
    requires start == (if Truthy(child) then child else Fresh(path[i + 1]))
    requires (if Truthy(child) then Some(current) else Write(current, path[i], start)) == Some(b)
    ensures Rebuild(frames, SetPath(current, path[i..], x))
         == Rebuild(frames + [(b, path[i])], SetPath(start, path[i + 1..], x))
  {
    var rest := path[i..];
    assert rest[0] == path[i] && rest[1] == path[i + 1] && rest[1..] == path[i + 1..];
    var frames' := frames + [(b, path[i])];
    assert frames'[..|frames'| - 1] == frames;
  }

  /** A step whose read or whose creating write throws makes the whole walk throw. */
  lemma StepFails(current: Json, path: seq<string>, i: nat, x: Json)
    requires i + 1 < |path|
    requires Read(current, path[i]).None?
      || (!Truthy(Read(current, path[i]).value) && Write(current, path[i], Fresh(path[i + 1])).None?)
    ensures SetPath(current, path[i..], x) == None
  {
    var rest := path[i..];
    assert rest[0] == path[i] && rest[1] == path[i + 1];
  }

  /** The descending loop of `handleChange`: it follows `path` up to its last key, creating
      every falsy step, and records each container it passes. */
  method Descend(data: Json, path: seq<string>, x: Json) returns (frames: Frames, current: Json, ok: bool)
    requires |path| >= 1
    ensures ok ==> |frames| == |path| - 1
    ensures ok ==> Rebuild(frames, Write(current, path[|path| - 1], x)) == SetPath(data, path, x)
    ensures !ok ==> SetPath(data, path, x) == None
  {
    frames := [];
    current := data;
    var i := 0;
    while i < |path| - 1
      invariant 0 <= i <= |path| - 1 && |frames| == i
      invariant Rebuild(frames, SetPath(current, path[i..], x)) == SetPath(data, path, x)
    {
      var key := path[i];
      var read := Read(current, key);
      if read.None? {
        StepFails(current, path, i, x);
        RebuildNone(frames);
        return frames, current, false;
      }
      var child := read.value;
      var start := child;
      var b := current;
      if !Truthy(child) {
        start := Fresh(path[i + 1]);
        var written := Write(current, key, start);
        if written.None? {
          StepFails(current, path, i, x);
          RebuildNone(frames);
          return frames, current, false;
        }
        b := written.value;
      }
      DescendStep(frames, current, path, i, x, child, start, b);
      frames := frames + [(b, key)];
      current := start;
      i := i + 1;
    }
    assert path[i..] == [path[i]];
    ok := true;
  }

  /** The stores back up the frames, innermost first. */
  method Ascend(frames: Frames, inner: Option<Json>) returns (r: Option<Json>)
    ensures r == Rebuild(frames, inner)
  {
    r := inner;
    var j := |frames|;
    assert frames[..j] == frames;
    while j > 0
      invariant 0 <= j <= |frames|
      invariant Rebuild(frames[..j], r) == Rebuild(frames, inner)
    {
      assert frames[..j][..j - 1] == frames[..j - 1];
      if r.None? {
        RebuildNone(frames[..j]);
        return;
      }
      r := Write(frames[j - 1].0, frames[j - 1].1, r.value);
      j := j - 1;
    }
    assert frames[..0] == [];
  }

  /** `updatedData` after the walk in `handleChange`: the loop descends, creating every
      missing step, writes `x` under the last key and then stores each level back into the
      one above it. */
  method UpdatePath(data: Json, path: seq<string>, x: Json) returns (r: Option<Json>)
    requires |path| >= 1
    ensures r == SetPath(data, path, x)
  {
    var frames, current, ok := Descend(data, path, x);
    if !ok {
      return None;
    }
    r := Ascend(frames, Write(current, path[|path| - 1], x));
  }

  // ---------------------------------------------------------------------------------------
  // handleChange
  // ---------------------------------------------------------------------------------------

  /** `JSON.stringify(v)` as a value: `undefined` stringifies to `undefined`, anything else
      to text (`stringify` models the text). */
  function Stringified(v: Json, stringify: Json -> string): (r: Json)
    ensures v == JUndefined ==> r == JUndefined
    ensures v != JUndefined ==> r == JStr(stringify(v))
  {
    if v == JUndefined then JUndefined else JStr(stringify(v))
  }

  /** What an edit at the root hands on: a primitive schema passes the value on, a
      structured one re-stringifies it when the editor was given text. */
  function RootChange(newValue: Json, givenText: bool, primitive: bool, stringify: Json -> string): (r: Json)
    ensures primitive || !givenText ==> r == newValue
    ensures !primitive && givenText ==> r == Stringified(newValue, stringify)
  {
    if primitive then newValue
    else if givenText then Stringified(newValue, stringify)
    else newValue
  }

  /** What an edit below the root hands on, given the deep copy of the form data: the copy
      with `newValue` written at the path, as text exactly when the editor was given text. */
  function NestedChange(copy: Json, path: seq<string>, newValue: Json, givenText: bool,
                        stringify: Json -> string): Option<Json>
    requires |path| >= 1
  {
    match SetPath(copy, path, newValue)
    case None => None
    case Some(updated) => Some(if givenText then Stringified(updated, stringify) else updated)
  }

  /** The edit below the root on the form data `data`: `handleChange` deep-copies it
      through JSON text (so `undefined` form data throws in `JSON.parse`) and writes into
      the copy. */
  function CopyAndChange(data: Json, path: seq<string>, newValue: Json, givenText: bool,
                         parse: string -> Result<Json>, stringify: Json -> string): Option<Json>
    requires |path| >= 1
  {
    if data == JUndefined then None
    else match parse(stringify(data))
      case Err(_) => None
      case Ok(copy) => NestedChange(copy, path, newValue, givenText, stringify)
  }

  /** The value `handleChange(path, newValue)` hands to `onChange`, for the editor's current
      `value` and `schema`; `None` when it throws. */
  function ChangeResult(path: seq<string>, newValue: Json, value: Json, schema: Json,
                        parse: string -> Result<Json>, stringify: Json -> string): Option<Json>
  {
    if path == [] then Some(RootChange(newValue, value.JStr?, IsPrimitiveType(schema), stringify))
    else CopyAndChange(FormData(value, schema, parse), path, newValue, value.JStr?, parse, stringify)
  }

  /** `handleChange`. */
  method HandleChange(path: seq<string>, newValue: Json, value: Json, schema: Json,
                      parse: string -> Result<Json>, stringify: Json -> string)
    returns (emitted: Option<Json>)
    ensures emitted == ChangeResult(path, newValue, value, schema, parse, stringify)
  {
    if path == [] {
      return Some(RootChange(newValue, value.JStr?, IsPrimitiveType(schema), stringify));
    }
    var data := FormData(value, schema, parse);
    emitted := CopyChange(data, path, newValue, value.JStr?, parse, stringify);
  }

  /** The deep copy of the form data, followed by the write. */
  method CopyChange(data: Json, path: seq<string>, newValue: Json, givenText: bool,
                    parse: string -> Result<Json>, stringify: Json -> string) returns (emitted: Option<Json>)
    requires |path| >= 1
    ensures emitted == CopyAndChange(data, path, newValue, givenText, parse, stringify)
  {
    if data == JUndefined {
      return None;
    }
    var copied := parse(stringify(data));
    if copied.Err? {
      return None;
    }
    emitted := ApplyChange(copied.value, path, newValue, givenText, stringify);
  }

  /** The write into the copy and the hand-off at the end of `handleChange`. */
  method ApplyChange(copy: Json, path: seq<string>, newValue: Json, givenText: bool,
                     stringify: Json -> string) returns (emitted: Option<Json>)
    requires |path| >= 1
    ensures emitted == NestedChange(copy, path, newValue, givenText, stringify)
  {
    var updated := UpdatePath(copy, path, newValue);
    if updated.None? {
      return None;
    }
    emitted := Some(if givenText then Stringified(updated.value, stringify) else updated.value);
  }

  /** Below the root, an edit goes out as JSON text exactly when the editor was given text,
      and that text is the updated value's. */
  lemma ChangeKeepsForm(path: seq<string>, newValue: Json, value: Json, schema: Json,
                        parse: string -> Result<Json>, stringify: Json -> string)
    requires path != [] && ChangeResult(path, newValue, value, schema, parse, stringify).Some?
    ensures var e := ChangeResult(path, newValue, value, schema, parse, stringify).value;
      e.JStr? <==> value.JStr?
  {
    var data := FormData(value, schema, parse);
    var copy := parse(stringify(data)).value;
    var updated := SetPath(copy, path, newValue).value;
    if |path| == 1 {
      assert Write(copy, path[0], newValue).Some?;
    } else {
      var child := Read(copy, path[0]).value;
      var start := if Truthy(child) then child else Fresh(path[1]);
      var b := if Truthy(child) then copy else Write(copy, path[0], start).value;
      assert SetPath(copy, path, newValue) == Write(b, path[0], SetPath(start, path[1..], newValue).value);
    }
    assert updated.JObj? || updated.JArr?;
  }

  /** An edit below the root of a copy that round-trips lands its value at the path, and
      the text sent back reads as the updated form data. */
  lemma ChangeLandsValue(path: seq<string>, newValue: Json, value: Json, schema: Json,
                         parse: string -> Result<Json>, stringify: Json -> string)
    requires path != []
    requires FormData(value, schema, parse) != JUndefined
    requires parse(stringify(FormData(value, schema, parse))) == Ok(FormData(value, schema, parse))
    requires Lands(FormData(value, schema, parse), path)
    ensures ChangeResult(path, newValue, value, schema, parse, stringify).Some?
    ensures !value.JStr? ==>
      GetPath(ChangeResult(path, newValue, value, schema, parse, stringify).value, path) == newValue
    ensures value.JStr? ==>
      ChangeResult(path, newValue, value, schema, parse, stringify).value
        == JStr(stringify(SetPath(FormData(value, schema, parse), path, newValue).value))
  {
    SetPathLands(FormData(value, schema, parse), path, newValue);
  }

  /** At the root, a primitive schema hands the new value on untouched. */
  lemma RootPrimitiveChange(newValue: Json, value: Json, schema: Json,
                            parse: string -> Result<Json>, stringify: Json -> string)
    requires IsPrimitiveType(schema)
    ensures ChangeResult([], newValue, value, schema, parse, stringify) == Some(newValue)
  {
  }

  // ---------------------------------------------------------------------------------------
  // Array items
  // ---------------------------------------------------------------------------------------

  /** The element the add-item button appends: an empty object for object items, else an
      empty string. */
  function NewArrayItem(items: Json): Json {
    if Get(items, "type") == JStr("object") then JObj([]) else JStr("")
  }

  /** The array after the add-item button, which is then handed to `handleChange`. */
  function AddArrayItem(arrayValue: seq<Json>, items: Json): (r: seq<Json>)
    ensures |r| == |arrayValue| + 1 && r[..|arrayValue|] == arrayValue
  {
    arrayValue + [NewArrayItem(items)]
  }

  /** The new element is the default of an object or string item schema without its own
      `default`, so freshly added items start empty. */
  lemma NewItemIsDefault(arrayValue: seq<Json>, items: Json)
    requires Get(items, "default") == JUndefined
    requires FormTypeOf(Get(items, "type")) in {FObject, FString}
    ensures AddArrayItem(arrayValue, items)[|arrayValue|] == DefaultValue(items)
    ensures !Truthy(AddArrayItem(arrayValue, items)[|arrayValue|]) || AddArrayItem(arrayValue, items)[|arrayValue|] == JObj([])
  {
  }
}
