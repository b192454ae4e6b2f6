/** The check the switch-factor form runs on the JSON Schema text a factor carries before
    it is saved: blank text, unparsable text and a set of structural rules of JSON Schema
    draft 7 each give errors, and the schema is valid when there are none. Messages are
    kept as their kinds; their translated wording is not modelled. */
module SwitchFactorSchema {
  import opened Wrappers
  import opened StrUtil
  import opened JsonValue

  datatype SchemaError =
    | InputContent
    | MustBeObject
    | UnsupportedType(shown: string)
    | PropertiesMustBeObject
    | RequiredMustBeArray
    | RequiredItemMustBeString(index: nat)
    | RequiredFieldNotInProperties(name: string)
    | RequiredFieldMissingProperties
    | ItemsMustBeObject
    | MinimumMustBeNumber
    | MaximumMustBeNumber
    | MinLengthMustBeNonNegative
    | MaxLengthMustBeNonNegative
    | MinCannotExceedMax
    | MinLengthCannotExceedMaxLength
    | ObjectNeedsProperties
    | ArrayNeedsItems
    | LengthConstraintsForString
    | NumericConstraintsForNumber
    | ArrayConstraintsForArray
    | SyntaxError(message: string)

  /** `{ isValid, errors }`. */
  datatype SchemaCheck = SchemaCheck(isValid: bool, errors: seq<SchemaError>)

  /** The `type` names the check accepts. */
  const AllowedTypes: seq<string> := ["string", "number", "integer", "boolean", "object", "array", "null"]

  /** `names.includes(v)`: only a string can equal one of the names. */
  predicate Includes(names: seq<string>, v: Json) {
    v.JStr? && v.s in names
  }

  /** The message JavaScript gives when a property of `null` is read, as the parsed schema
      `null` does at its first `schema.type`. */
  const NullReadMessage := "Cannot read properties of null (reading 'type')"

  /** One error when `c` holds, none otherwise. */
  function Flag(c: bool, e: SchemaError): seq<SchemaError> {
    if c then [e] else []
  }

  // ---------------------------------------------------------------------------------------
  // JavaScript's `>` on the values modelled
  // ---------------------------------------------------------------------------------------

  /** Lexicographic order of strings, character by character. */
  predicate StrLess(a: string, b: string)
    decreases |a|
  {
    if a == [] then b != []
    else if b == [] then false
    else if a[0] != b[0] then a[0] < b[0]
    else StrLess(a[1..], b[1..])
  }

  /** `ToPrimitive` for a comparison: arrays and objects become their text. */
  function Primitive(v: Json): (r: Json)
    ensures !r.JArr? && !r.JObj?
  {
    match v
    case JArr(_) => JStr(JsString(v))
    case JObj(_) => JStr("[object Object]")
    case _ => v
  }

  /** `Number(text)` for text that is empty or an optionally signed run of decimal digits;
      any other text is `NaN`, which is `None`. */
  function NumberOfText(t: string): Option<int> {
    var s := JsTrim(t);
    if s == "" then Some(0)
    else if AllDigits(s) then Some(DigitsValue(s))
    else if |s| >= 2 && (s[0] == '-' || s[0] == '+') && AllDigits(s[1..]) then
      var magnitude: int := DigitsValue(s[1..]);
      Some(if s[0] == '-' then -magnitude else magnitude)
    else None
  }

  /** `Number(v)` on a primitive; `None` is `NaN`. */
  function NumberOf(v: Json): Option<int> {
    match v
    case JNull => Some(0)
    case JBool(b) => Some(if b then 1 else 0)
    case JNum(n) => Some(n)
    case JStr(s) => NumberOfText(s)
    case _ => None
  }

  /** `a > b`: two strings compare as text, anything else as numbers, and `NaN` compares
      false. */
  predicate JsGreater(a: Json, b: Json) {
    var pa := Primitive(a);
    var pb := Primitive(b);
    if pa.JStr? && pb.JStr? then StrLess(pb.s, pa.s)
    else NumberOf(pa).Some? && NumberOf(pb).Some? && NumberOf(pa).value > NumberOf(pb).value
  }

  /** Between numbers, `>` is the order of the integers. */
  lemma GreaterOnNumbers(a: int, b: int)
    ensures JsGreater(JNum(a), JNum(b)) <==> a > b
  {
  }

  // ---------------------------------------------------------------------------------------
  // The rules, in the order they push their errors
  // ---------------------------------------------------------------------------------------

  /** `obj.hasOwnProperty(key)` on an object or an array. */
  predicate HasOwn(v: Json, key: string) {
    match v
    case JObj(props) => key in Keys(props)
    case JArr(items) => (IsIndexKey(key) && DigitsValue(key) < |items|) || key == "length"
    case _ => false
  }

  /** A `type` the check refuses: truthy and none of the allowed names. */
  predicate IsUnsupportedType(t: Json) {
    Truthy(t) && !Includes(AllowedTypes, t)
  }

  /** The base rules: the schema is an object, its `type` is one of the allowed names and
      its `properties` is an object. */
  function HeadErrorsOf(isObject: bool, t: Json, p: Json): seq<SchemaError> {
    Flag(!isObject, MustBeObject)
    + Flag(IsUnsupportedType(t), UnsupportedType(JsString(t)))
    + Flag(Truthy(p) && TypeOf(p) != TObject, PropertiesMustBeObject)
  }

  /** `required[i] must be a string`, for every element that is not one. */
  function RequiredItemErrors(items: seq<Json>): (r: seq<SchemaError>)
    ensures forall i :: 0 <= i < |r| ==> r[i].RequiredItemMustBeString? && r[i].index < |items|
  {
    if items == [] then []
    else
      var n := |items| - 1;
      RequiredItemErrors(items[..n]) + Flag(!items[n].JStr?, RequiredItemMustBeString(n))
  }

  /** `required field "x" is not in properties`, for every string element that names no own
      property of `properties`. */
  function RequiredNameErrors(items: seq<Json>, properties: Json): (r: seq<SchemaError>)
    ensures forall i :: 0 <= i < |r| ==> r[i].RequiredFieldNotInProperties?
  {
    if items == [] then []
    else
      var n := |items| - 1;
      RequiredNameErrors(items[..n], properties)
      + (if items[n].JStr? && !HasOwn(properties, items[n].s) then [RequiredFieldNotInProperties(items[n].s)] else [])
  }

  /** The rule on names in `required`: each names a property when `properties` is an
      object, and there are none when it is not. */
  function RequiredNamesOrMissing(items: seq<Json>, p: Json): seq<SchemaError> {
    if Truthy(p) && TypeOf(p) == TObject then RequiredNameErrors(items, p)
    else Flag(|items| > 0, RequiredFieldMissingProperties)
  }

  /** The rules on `required`: an array whose elements are strings, each naming a property
      when `properties` is an object, and empty when there is none. */
  function RequiredErrors(schema: Json): seq<SchemaError> {
    var req := Get(schema, "required");
    if !Truthy(req) then []
    else if !req.JArr? then [RequiredMustBeArray]
    else RequiredItemErrors(req.items) + RequiredNamesOrMissing(req.items, Get(schema, "properties"))
  }

  /** The rules on `items` and on the numeric constraints' own types. */
  function BoundErrorsOf(items: Json, min: Json, max: Json, minL: Json, maxL: Json): seq<SchemaError> {
    Flag(Truthy(items) && TypeOf(items) != TObject, ItemsMustBeObject)
    + Flag(min != JUndefined && !min.JNum?, MinimumMustBeNumber)
    + Flag(max != JUndefined && !max.JNum?, MaximumMustBeNumber)
    + Flag(minL != JUndefined && (!minL.JNum? || minL.n < 0), MinLengthMustBeNonNegative)
    + Flag(maxL != JUndefined && (!maxL.JNum? || maxL.n < 0), MaxLengthMustBeNonNegative)
  }

  /** The rules relating lower and upper bounds. */
  function RangeErrorsOf(min: Json, max: Json, minL: Json, maxL: Json): seq<SchemaError> {
    Flag(min != JUndefined && max != JUndefined && JsGreater(min, max), MinCannotExceedMax)
    + Flag(minL != JUndefined && maxL != JUndefined && JsGreater(minL, maxL), MinLengthCannotExceedMaxLength)
  }

  /** An object that forbids additional properties must list some; an array needs
      `items`. */
  function TypeRuleErrorsOf(t: Json, p: Json, additional: Json, items: Json): seq<SchemaError> {
    Flag(t == JStr("object") && !Truthy(p) && additional == JBool(false), ObjectNeedsProperties)
    + Flag(t == JStr("array") && !Truthy(items), ArrayNeedsItems)
  }

  /** Length constraints belong to strings, numeric ones to numbers and integers, and item
      constraints to arrays; each flag says whether any constraint of its group is
      present. */
  function ApplicabilityErrorsOf(t: Json, lengths: bool, numerics: bool, itemBounds: bool): seq<SchemaError> {
    Flag(Truthy(t) && t != JStr("string") && lengths, LengthConstraintsForString)
    + Flag(Truthy(t) && !Includes(["number", "integer"], t) && numerics, NumericConstraintsForNumber)
    + Flag(Truthy(t) && t != JStr("array") && itemBounds, ArrayConstraintsForArray)
  }

  /** Whether any of the named constraints is present. */
  predicate AnyPresent(schema: Json, a: string, b: string, c: string) {
    Get(schema, a) != JUndefined || Get(schema, b) != JUndefined || Get(schema, c) != JUndefined
  }

  /** The rules after `required`, on the values of the fields they read. */
  function TailErrorsOf(t: Json, p: Json, additional: Json, items: Json, min: Json, max: Json, minL: Json, maxL: Json,
                        lengths: bool, numerics: bool, itemBounds: bool): seq<SchemaError> {
    BoundErrorsOf(items, min, max, minL, maxL) + RangeErrorsOf(min, max, minL, maxL)
    + TypeRuleErrorsOf(t, p, additional, items) + ApplicabilityErrorsOf(t, lengths, numerics, itemBounds)
  }

  /** The rules after `required`, on the schema's own fields. */
  function TailErrors(schema: Json): seq<SchemaError> {
    TailErrorsOf(Get(schema, "type"), Get(schema, "properties"), Get(schema, "additionalProperties"),
      Get(schema, "items"), Get(schema, "minimum"), Get(schema, "maximum"),
      Get(schema, "minLength"), Get(schema, "maxLength"),
      AnyPresent(schema, "minLength", "maxLength", "pattern"),
      AnyPresent(schema, "minimum", "maximum", "multipleOf"), AnyPresent(schema, "minItems", "maxItems", "uniqueItems"))
  }

  /** Every error the rules find in a parsed schema other than `null`, in order. */
  function SchemaErrors(schema: Json): seq<SchemaError> {
    HeadErrorsOf(TypeOf(schema) == TObject, Get(schema, "type"), Get(schema, "properties"))
    + RequiredErrors(schema) + TailErrors(schema)
  }

  /** `validateJsonSchema(schemaStr)`, with `parse` modelling `JSON.parse` (its error the
      exception's message). Parsing to `null` makes the first property read throw, which the
      same handler reports as a syntax error. The schema is valid exactly when there are no
      errors. */
  function SchemaValidation(schemaStr: string, parse: string -> Result<Json>): (r: SchemaCheck)
    ensures r.isValid <==> r.errors == []
  {
    if JsTrim(schemaStr) == "" then SchemaCheck(false, [InputContent])
    else match parse(schemaStr)
      case Err(message) => SchemaCheck(false, [SyntaxError(message)])
      case Ok(schema) =>
        if schema == JNull then SchemaCheck(false, [SyntaxError(NullReadMessage)])
        else
          var errors := SchemaErrors(schema);
          SchemaCheck(|errors| == 0, errors)
  }

  // ---------------------------------------------------------------------------------------
  // The checking code
  // ---------------------------------------------------------------------------------------

  /** The `forEach` over `required` that reports non-string elements. */
  method CheckRequiredItems(items: seq<Json>) returns (errors: seq<SchemaError>)
    ensures errors == RequiredItemErrors(items)
  {
    errors := [];
    var i := 0;
    while i < |items|
      invariant 0 <= i <= |items|
      invariant errors == RequiredItemErrors(items[..i])
    {
      assert items[..i + 1][..i] == items[..i];
      if !items[i].JStr? {
        errors := errors + [RequiredItemMustBeString(i)];
      }
      i := i + 1;
    }
    assert items[..i] == items;
  }

  /** The `forEach` over `required` that reports names missing from `properties`. */
  method CheckRequiredNames(items: seq<Json>, properties: Json) returns (errors: seq<SchemaError>)
    ensures errors == RequiredNameErrors(items, properties)
  {
    errors := [];
    var i := 0;
    while i < |items|
      invariant 0 <= i <= |items|
      invariant errors == RequiredNameErrors(items[..i], properties)
    {
      assert items[..i + 1][..i] == items[..i];
      if items[i].JStr? && !HasOwn(properties, items[i].s) {
        errors := errors + [RequiredFieldNotInProperties(items[i].s)];
      }
      i := i + 1;
    }
    assert items[..i] == items;
  }

  /** The checks on `required`. */
  method CheckRequired(schema: Json) returns (errors: seq<SchemaError>)
    ensures errors == RequiredErrors(schema)
  {
    var req := Get(schema, "required");
    errors := [];
    if !Truthy(req) {
      return;
    }
    if !req.JArr? {
      return [RequiredMustBeArray];
    }
    errors := CheckRequiredItems(req.items);
    var p := Get(schema, "properties");
    if Truthy(p) && TypeOf(p) == TObject {
      var missing := CheckRequiredNames(req.items, p);
      errors := errors + missing;
    } else if |req.items| > 0 {
      errors := errors + [RequiredFieldMissingProperties];
    }
  }

  /** The checks on `items` and on the constraints' own types. */
  method CheckBounds(items: Json, min: Json, max: Json, minL: Json, maxL: Json) returns (errors: seq<SchemaError>)
    ensures errors == BoundErrorsOf(items, min, max, minL, maxL)
  {
    errors := [];
    if Truthy(items) && TypeOf(items) != TObject {
      errors := errors + [ItemsMustBeObject];
    }
    assert errors == Flag(Truthy(items) && TypeOf(items) != TObject, ItemsMustBeObject);
    ghost var sofar := errors;
    if min != JUndefined && !min.JNum? {
      errors := errors + [MinimumMustBeNumber];
    }
    assert errors == sofar + Flag(min != JUndefined && !min.JNum?, MinimumMustBeNumber);
    sofar := errors;
    if max != JUndefined && !max.JNum? {
      errors := errors + [MaximumMustBeNumber];
    }
    assert errors == sofar + Flag(max != JUndefined && !max.JNum?, MaximumMustBeNumber);
    sofar := errors;
    if minL != JUndefined && (!minL.JNum? || minL.n < 0) {
      errors := errors + [MinLengthMustBeNonNegative];
    }
    assert errors == sofar + Flag(minL != JUndefined && (!minL.JNum? || minL.n < 0), MinLengthMustBeNonNegative);
    sofar := errors;
    if maxL != JUndefined && (!maxL.JNum? || maxL.n < 0) {
      errors := errors + [MaxLengthMustBeNonNegative];
    }
    assert errors == sofar + Flag(maxL != JUndefined && (!maxL.JNum? || maxL.n < 0), MaxLengthMustBeNonNegative);
  }

  /** The checks relating bounds. */
  method CheckRanges(min: Json, max: Json, minL: Json, maxL: Json) returns (errors: seq<SchemaError>)
    ensures errors == RangeErrorsOf(min, max, minL, maxL)
  {
    errors := [];
    if min != JUndefined && max != JUndefined && JsGreater(min, max) {
      errors := errors + [MinCannotExceedMax];
    }
    assert errors == Flag(min != JUndefined && max != JUndefined && JsGreater(min, max), MinCannotExceedMax);
    ghost var sofar := errors;
    if minL != JUndefined && maxL != JUndefined && JsGreater(minL, maxL) {
      errors := errors + [MinLengthCannotExceedMaxLength];
    }
    assert errors == sofar + Flag(minL != JUndefined && maxL != JUndefined && JsGreater(minL, maxL), MinLengthCannotExceedMaxLength);
  }

  /** The checks by type. */
  method CheckTypeRules(t: Json, p: Json, additional: Json, items: Json) returns (errors: seq<SchemaError>)
    ensures errors == TypeRuleErrorsOf(t, p, additional, items)
  {
    errors := [];
    if t == JStr("object") && !Truthy(p) && additional == JBool(false) {
      errors := errors + [ObjectNeedsProperties];
    }
    if t == JStr("array") && !Truthy(items) {
      errors := errors + [ArrayNeedsItems];
    }
  }

  /** The checks of which constraints apply to which type. */
  method CheckApplicability(t: Json, lengths: bool, numerics: bool, itemBounds: bool) returns (errors: seq<SchemaError>)
    ensures errors == ApplicabilityErrorsOf(t, lengths, numerics, itemBounds)
  {
    errors := [];
    if Truthy(t) && t != JStr("string") && lengths {
      errors := errors + [LengthConstraintsForString];
    }
    if Truthy(t) && !Includes(["number", "integer"], t) && numerics {
      errors := errors + [NumericConstraintsForNumber];
    }
    if Truthy(t) && t != JStr("array") && itemBounds {
      errors := errors + [ArrayConstraintsForArray];
    }
  }

  /** The checks after `required`. */
  method CheckTail(schema: Json) returns (errors: seq<SchemaError>)
    ensures errors == TailErrors(schema)
  {
    var t := Get(schema, "type");
    var items := Get(schema, "items");
    var min := Get(schema, "minimum");
    var max := Get(schema, "maximum");
    var minL := Get(schema, "minLength");
    var maxL := Get(schema, "maxLength");
    var bounds := CheckBounds(items, min, max, minL, maxL);
    var ranges := CheckRanges(min, max, minL, maxL);
    var rules := CheckTypeRules(t, Get(schema, "properties"), Get(schema, "additionalProperties"), items);
    var applicable := CheckApplicability(t, AnyPresent(schema, "minLength", "maxLength", "pattern"),
      AnyPresent(schema, "minimum", "maximum", "multipleOf"), AnyPresent(schema, "minItems", "maxItems", "uniqueItems"));
    errors := bounds + ranges + rules + applicable;
  }

  /** The base checks. */
  method CheckHead(isObject: bool, t: Json, p: Json) returns (errors: seq<SchemaError>)
    ensures errors == HeadErrorsOf(isObject, t, p)
  {
    errors := [];
    if !isObject {
      errors := errors + [MustBeObject];
    }
    if IsUnsupportedType(t) {
      errors := errors + [UnsupportedType(JsString(t))];
    }
    if Truthy(p) && TypeOf(p) != TObject {
      errors := errors + [PropertiesMustBeObject];
    }
  }

  /** `validateJsonSchema`. */
  method ValidateJsonSchema(schemaStr: string, parse: string -> Result<Json>) returns (r: SchemaCheck)
    ensures r == SchemaValidation(schemaStr, parse)
  {
    if JsTrim(schemaStr) == "" {
      return SchemaCheck(false, [InputContent]);
    }
    var parsed := parse(schemaStr);
    if parsed.Err? {
      return SchemaCheck(false, [SyntaxError(parsed.msg)]);
    }
    var schema := parsed.value;
    if schema == JNull {
      return SchemaCheck(false, [SyntaxError(NullReadMessage)]);
    }
    var head := CheckHead(TypeOf(schema) == TObject, Get(schema, "type"), Get(schema, "properties"));
    var required := CheckRequired(schema);
    var tail := CheckTail(schema);
    var errors := head + required + tail;
    r := SchemaCheck(|errors| == 0, errors);
  }

  // ---------------------------------------------------------------------------------------
  // Properties of the check
  // ---------------------------------------------------------------------------------------

  /** Blank text is rejected with the single request for content. */
  lemma BlankRejected(schemaStr: string, parse: string -> Result<Json>)
    requires forall i :: 0 <= i < |schemaStr| ==> IsJsSpace(schemaStr[i])
    ensures SchemaValidation(schemaStr, parse) == SchemaCheck(false, [InputContent])
  {
    TrimLeftAll(schemaStr, IsJsSpace);
  }

  /** Trimming text made only of trimmed characters leaves nothing. */
  lemma {:induction false} TrimLeftAll(s: string, p: char -> bool)
    requires forall i :: 0 <= i < |s| ==> p(s[i])
    ensures TrimLeft(s, p) == ""
    decreases |s|
  {
    if s != [] {
      TrimLeftAll(s[1..], p);
    }
  }

  /** Text that does not parse is rejected with the single syntax error carrying the
      parser's message. */
  lemma SyntaxErrorRejected(schemaStr: string, parse: string -> Result<Json>)
    requires JsTrim(schemaStr) != "" && parse(schemaStr).Err?
    ensures SchemaValidation(schemaStr, parse) == SchemaCheck(false, [SyntaxError(parse(schemaStr).msg)])
  {
  }

  /** Text that parses to anything but `null` is judged by the rules alone. */
  lemma ParsedJudgedByRules(schemaStr: string, parse: string -> Result<Json>)
    requires JsTrim(schemaStr) != "" && parse(schemaStr).Ok? && parse(schemaStr).value != JNull
    ensures SchemaValidation(schemaStr, parse).errors == SchemaErrors(parse(schemaStr).value)
    ensures SchemaValidation(schemaStr, parse).isValid <==> SchemaErrors(parse(schemaStr).value) == []
  {
  }

  /** A `type` is reported unsupported exactly when it is truthy and is not one of the seven
      names, and the report shows it as text. */
  lemma UnsupportedTypeExactly(schema: Json, shown: string)
    ensures UnsupportedType(shown) in SchemaErrors(schema)
      <==> IsUnsupportedType(Get(schema, "type")) && shown == JsString(Get(schema, "type"))
  {
    var t := Get(schema, "type");
    var head := HeadErrorsOf(TypeOf(schema) == TObject, t, Get(schema, "properties"));
    var req := RequiredErrors(schema);
    var tail := TailErrors(schema);
    HeadUnsupported(TypeOf(schema) == TObject, t, Get(schema, "properties"), shown);
    RequiredNoUnsupported(schema, shown);
    TailLacks(schema, UnsupportedType(shown));
    assert SchemaErrors(schema) == head + req + tail;
  }

  /** Among the base rules, only the type rule reports an unsupported type. */
  lemma HeadUnsupported(isObject: bool, t: Json, p: Json, shown: string)
    ensures UnsupportedType(shown) in HeadErrorsOf(isObject, t, p) <==> IsUnsupportedType(t) && shown == JsString(t)
  {
  }

  /** The rules on `required` never report a type as unsupported. */
  lemma RequiredNoUnsupported(schema: Json, shown: string)
    ensures UnsupportedType(shown) !in RequiredErrors(schema)
  {
  }

  /** The range rules report only the two range errors, whatever the bounds compare to. */
  lemma RangeOwnKinds(min: Json, max: Json, minL: Json, maxL: Json, e: SchemaError)
    requires !e.MinCannotExceedMax? && !e.MinLengthCannotExceedMaxLength?
    ensures e !in RangeErrorsOf(min, max, minL, maxL)
  {
    var lower := min != JUndefined && max != JUndefined && JsGreater(min, max);
    var length := minL != JUndefined && maxL != JUndefined && JsGreater(minL, maxL);
    assert RangeErrorsOf(min, max, minL, maxL) == Flag(lower, MinCannotExceedMax) + Flag(length, MinLengthCannotExceedMaxLength);
  }

  /** The rules after `required` never report a type or a `required` element. */
  lemma TailOwnKinds(t: Json, p: Json, additional: Json, items: Json, min: Json, max: Json, minL: Json, maxL: Json,
                     lengths: bool, numerics: bool, itemBounds: bool, e: SchemaError)
    requires e.UnsupportedType? || e.RequiredFieldNotInProperties? || e.RequiredItemMustBeString?
    ensures e !in TailErrorsOf(t, p, additional, items, min, max, minL, maxL, lengths, numerics, itemBounds)
  {
    assert e !in BoundErrorsOf(items, min, max, minL, maxL);
    RangeOwnKinds(min, max, minL, maxL, e);
    assert e !in TypeRuleErrorsOf(t, p, additional, items);
    assert e !in ApplicabilityErrorsOf(t, lengths, numerics, itemBounds);
  }

  /** The same, on a schema. */
  lemma TailLacks(schema: Json, e: SchemaError)
    requires e.UnsupportedType? || e.RequiredFieldNotInProperties? || e.RequiredItemMustBeString?
    ensures e !in TailErrors(schema)
  {
    TailOwnKinds(Get(schema, "type"), Get(schema, "properties"), Get(schema, "additionalProperties"),
      Get(schema, "items"), Get(schema, "minimum"), Get(schema, "maximum"),
      Get(schema, "minLength"), Get(schema, "maxLength"),
      AnyPresent(schema, "minLength", "maxLength", "pattern"),
      AnyPresent(schema, "minimum", "maximum", "multipleOf"), AnyPresent(schema, "minItems", "maxItems", "uniqueItems"), e);
  }

  /** With `required` an array and `properties` an object, a name is reported missing
      exactly when `required` lists it and `properties` lacks it. */
  lemma RequiredNameReported(schema: Json, name: string)
    requires Get(schema, "required").JArr?
    requires Truthy(Get(schema, "properties")) && TypeOf(Get(schema, "properties")) == TObject
    ensures RequiredFieldNotInProperties(name) in SchemaErrors(schema)
      <==> JStr(name) in Get(schema, "required").items && !HasOwn(Get(schema, "properties"), name)
  {
    var e := RequiredFieldNotInProperties(name);
    var items := Get(schema, "required").items;
    var p := Get(schema, "properties");
    var head := HeadErrorsOf(TypeOf(schema) == TObject, Get(schema, "type"), p);
    HeadLacks(TypeOf(schema) == TObject, Get(schema, "type"), p, e);
    TailLacks(schema, e);
    assert e !in RequiredItemErrors(items);
    RequiredNameExactly(items, p, name);
    assert RequiredErrors(schema) == RequiredItemErrors(items) + RequiredNameErrors(items, p);
    assert SchemaErrors(schema) == head + RequiredErrors(schema) + TailErrors(schema);
  }

  /** With `required` an array, its element `i` is reported exactly when it is not a
      string. */
  lemma RequiredItemReported(schema: Json, i: nat)
    requires Get(schema, "required").JArr? && i < |Get(schema, "required").items|
    ensures RequiredItemMustBeString(i) in SchemaErrors(schema) <==> !Get(schema, "required").items[i].JStr?
  {
    var e := RequiredItemMustBeString(i);
    var items := Get(schema, "required").items;
    var p := Get(schema, "properties");
    HeadLacks(TypeOf(schema) == TObject, Get(schema, "type"), p, e);
    TailLacks(schema, e);
    RequiredItemsPart(items, p, i);
    RequiredOfArray(schema);
    InParts(HeadErrorsOf(TypeOf(schema) == TObject, Get(schema, "type"), p), RequiredErrors(schema), TailErrors(schema), e);
  }

  /** The rules on an array `required`. */
  lemma RequiredOfArray(schema: Json)
    requires Get(schema, "required").JArr?
    ensures RequiredErrors(schema)
      == RequiredItemErrors(Get(schema, "required").items) + RequiredNamesOrMissing(Get(schema, "required").items, Get(schema, "properties"))
  {
  }

  /** Membership in the three groups of rules. */
  lemma InParts(a: seq<SchemaError>, b: seq<SchemaError>, c: seq<SchemaError>, e: SchemaError)
    ensures e in a + b + c <==> e in a || e in b || e in c
  {
  }

  /** The base rules never report a `required` element. */
  lemma HeadLacks(isObject: bool, t: Json, p: Json, e: SchemaError)
    requires e.RequiredFieldNotInProperties? || e.RequiredItemMustBeString?
    ensures e !in HeadErrorsOf(isObject, t, p)
  {
  }

  /** Among the rules on an array `required`, element `i` is reported exactly when it is
      not a string. */
  lemma RequiredItemsPart(items: seq<Json>, p: Json, i: nat)
    requires i < |items|
    ensures RequiredItemMustBeString(i) in RequiredItemErrors(items) + RequiredNamesOrMissing(items, p)
      <==> !items[i].JStr?
  {
    RequiredItemExactly(items, i);
    var rest := RequiredNamesOrMissing(items, p);
    assert RequiredItemMustBeString(i) !in rest;
  }

  /** Element `i` of `required` is reported exactly when it is not a string. */
  lemma {:induction false} RequiredItemExactly(items: seq<Json>, i: nat)
    requires i < |items|
    ensures RequiredItemMustBeString(i) in RequiredItemErrors(items) <==> !items[i].JStr?
  {
    var n := |items| - 1;
    var init := RequiredItemErrors(items[..n]);
    var last := Flag(!items[n].JStr?, RequiredItemMustBeString(n));
    assert RequiredItemErrors(items) == init + last;
    if i < n {
      RequiredItemExactly(items[..n], i);
      assert RequiredItemMustBeString(i) !in last;
    } else {
      forall k | 0 <= k < |init|
        ensures init[k] != RequiredItemMustBeString(i)
      {
        assert init[k].index < |items[..n]|;
      }
    }
  }

  /** A name is reported missing exactly when some string element of `required` is that
      name and `properties` has no own property of that name. */
  lemma {:induction false} RequiredNameExactly(items: seq<Json>, properties: Json, name: string)
    ensures RequiredFieldNotInProperties(name) in RequiredNameErrors(items, properties)
      <==> JStr(name) in items && !HasOwn(properties, name)
  {
    if items != [] {
      var n := |items| - 1;
      RequiredNameExactly(items[..n], properties, name);
      assert items == items[..n] + [items[n]];
      assert JStr(name) in items <==> JStr(name) in items[..n] || items[n] == JStr(name);
    }
  }

  /** A lower bound above the upper bound is always reported. */
  lemma MinAboveMaxReported(schema: Json, min: int, max: int)
    requires Get(schema, "minimum") == JNum(min) && Get(schema, "maximum") == JNum(max) && min > max
    ensures MinCannotExceedMax in SchemaErrors(schema)
  {
    var ranges := RangeErrorsOf(JNum(min), JNum(max), Get(schema, "minLength"), Get(schema, "maxLength"));
    assert MinCannotExceedMax in ranges;
    TailContainsRange(schema, MinCannotExceedMax);
  }

  /** A minimum length above the maximum length is always reported. */
  lemma MinLengthAboveMaxLengthReported(schema: Json, minL: int, maxL: int)
    requires Get(schema, "minLength") == JNum(minL) && Get(schema, "maxLength") == JNum(maxL) && minL > maxL
    ensures MinLengthCannotExceedMaxLength in SchemaErrors(schema)
  {
    var ranges := RangeErrorsOf(Get(schema, "minimum"), Get(schema, "maximum"), JNum(minL), JNum(maxL));
    assert MinLengthCannotExceedMaxLength in ranges;
    TailContainsRange(schema, MinLengthCannotExceedMaxLength);
  }

  /** A bound error found is an error of the whole check. */
  lemma TailContainsRange(schema: Json, e: SchemaError)
    requires e in RangeErrorsOf(Get(schema, "minimum"), Get(schema, "maximum"), Get(schema, "minLength"), Get(schema, "maxLength"))
    ensures e in SchemaErrors(schema)
  {
    assert e in TailErrors(schema);
  }

  /** An array schema without `items` is always reported. */
  lemma ArrayWithoutItemsReported(schema: Json)
    requires Get(schema, "type") == JStr("array") && !Truthy(Get(schema, "items"))
    ensures ArrayNeedsItems in SchemaErrors(schema)
  {
    var rules := TypeRuleErrorsOf(JStr("array"), Get(schema, "properties"), Get(schema, "additionalProperties"), Get(schema, "items"));
    assert ArrayNeedsItems in rules;
    assert ArrayNeedsItems in TailErrors(schema);
  }

  /** A string schema with its length bounds in order and no other field is accepted. */
  lemma OrderedStringSchemaAccepted(schema: Json, minL: nat, maxL: nat)
    requires schema.JObj? && Keys(schema.props) == ["type", "minLength", "maxLength"]
    requires Get(schema, "type") == JStr("string")
    requires Get(schema, "minLength") == JNum(minL) && Get(schema, "maxLength") == JNum(maxL)
    requires minL <= maxL
    ensures SchemaErrors(schema) == []
  {
    assert HeadErrorsOf(true, JStr("string"), Get(schema, "properties")) == [];
    assert Get(schema, "required") == JUndefined;
    OrderedStringTail(schema, minL, maxL);
  }

  /** The rules after `required` on such a schema. */
  lemma OrderedStringTail(schema: Json, minL: nat, maxL: nat)
    requires schema.JObj? && Keys(schema.props) == ["type", "minLength", "maxLength"]
    requires Get(schema, "type") == JStr("string")
    requires Get(schema, "minLength") == JNum(minL) && Get(schema, "maxLength") == JNum(maxL)
    requires minL <= maxL
    ensures TailErrors(schema) == []
  {
    OnlyListedFields(schema);
    assert BoundErrorsOf(JUndefined, JUndefined, JUndefined, JNum(minL), JNum(maxL)) == [];
    assert RangeErrorsOf(JUndefined, JUndefined, JNum(minL), JNum(maxL)) == [];
    assert TypeRuleErrorsOf(JStr("string"), JUndefined, JUndefined, JUndefined) == [];
    assert ApplicabilityErrorsOf(JStr("string"), true, false, false) == [];
  }

  /** The fields such a schema does not list read as `undefined`. */
  lemma OnlyListedFields(schema: Json)
    requires schema.JObj? && Keys(schema.props) == ["type", "minLength", "maxLength"]
    ensures Get(schema, "items") == JUndefined && Get(schema, "minimum") == JUndefined
    ensures Get(schema, "maximum") == JUndefined && Get(schema, "properties") == JUndefined
    ensures Get(schema, "additionalProperties") == JUndefined
    ensures !AnyPresent(schema, "minimum", "maximum", "multipleOf")
    ensures !AnyPresent(schema, "minItems", "maxItems", "uniqueItems")
  {
  }
}
