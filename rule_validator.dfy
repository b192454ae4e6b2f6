/** The rule-tree validator of the switch editor (`ruleValidator.ts`): a parsed rule tree is
    checked node by node against the factor catalogue, and each leaf's config against the
    JSON Schema of its factor. Errors carry a message key for translation, the path of the
    offending node and the factor concerned. `JSON.parse` is the parameter `parse`, and the
    translation function of the message formatter is the parameter `fmt`. */
module RuleValidator {
  import opened Wrappers
  import opened StrUtil
  import opened JsonValue

  /** The message keys of the validator, each standing for `pages.ruleValidator.<name>`. */
  datatype MessageKey =
    | FieldRequired
    | TypeExpectedObject
    | TypeExpectedArray
    | TypeExpectedString
    | TypeExpectedNumber
    | TypeExpectedBoolean
    | FactorIdRequired
    | FactorNameRequired
    | FactorConfigRequired
    | FactorNotFound
    | JsonSchemaInvalid
    | GroupNodeChildrenRequired
    | InvalidNodeType
    | ValidationPassed
    | PathLabel

  /** The translation id of a key. */
  function KeyId(k: MessageKey): string {
    "pages.ruleValidator." +
      match k
      case FieldRequired => "fieldRequired"
      case TypeExpectedObject => "typeExpectedObject"
      case TypeExpectedArray => "typeExpectedArray"
      case TypeExpectedString => "typeExpectedString"
      case TypeExpectedNumber => "typeExpectedNumber"
      case TypeExpectedBoolean => "typeExpectedBoolean"
      case FactorIdRequired => "factorIdRequired"
      case FactorNameRequired => "factorNameRequired"
      case FactorConfigRequired => "factorConfigRequired"
      case FactorNotFound => "factorNotFound"
      case JsonSchemaInvalid => "jsonSchemaInvalid"
      case GroupNodeChildrenRequired => "groupNodeChildrenRequired"
      case InvalidNodeType => "invalidNodeType"
      case ValidationPassed => "validationPassed"
      case PathLabel => "path"
  }

  /** The keys a config check can report. */
  const ConfigKeys: set<MessageKey> :=
    {FieldRequired, TypeExpectedObject, TypeExpectedArray, TypeExpectedString, TypeExpectedNumber, TypeExpectedBoolean}

  /** The keys a leaf's catalogue check can report. */
  const CatalogueKeys: set<MessageKey> := ConfigKeys + {FactorNotFound, JsonSchemaInvalid}

  /** The type names a schema's `type` can select a check by. */
  datatype SchemaType = SObject | SArray | SString | SNumber | SBoolean | SOther

  function SchemaTypeOf(t: Json): SchemaType {
    if t == JStr("object") then SObject
    else if t == JStr("array") then SArray
    else if t == JStr("string") then SString
    else if t == JStr("number") then SNumber
    else if t == JStr("boolean") then SBoolean
    else SOther
  }

  /** A factor of the catalogue: its id, its key (the `factor` a rule leaf names), its
      display name (possibly absent) and its JSON Schema text, empty when absent. */
  datatype FactorOption = FactorOption(id: int, factor: string, name: Json, jsonSchema: string)

  /** One problem found: where, which message with which parameters, and for which factor. */
  datatype ValidationError = ValidationError(
    path: string,
    messageKey: MessageKey,
    messageParams: Option<seq<(string, Json)>>,
    factorId: Json,
    factorName: Json)

  datatype ValidationResult = ValidationResult(isValid: bool, errors: seq<ValidationError>)

  /** The path of a property below `path`; the top level has no prefix. */
  function SubPath(path: string, key: string): (r: string)
    ensures HasPrefix(r, path)
    ensures path == "" ==> r == key
  {
    if path == "" then key else path + "." + key
  }

  /** The path of the `index`-th child of a group. */
  function ChildPath(path: string, index: nat): (r: string)
    ensures HasPrefix(r, path + ".children[")
  {
    path + ".children[" + NatToString(index) + "]"
  }

  // ---------------------------------------------------------------------------------
  // validateConfigBySchema

  /** A required field counts as missing when the config itself is falsy, or the field is
      `undefined`, `null` or empty text. */
  predicate FieldMissing(config: Json, field: string) {
    !Truthy(config) || Blank(Prop(config, field))
  }

  function FieldError(field: Json, factorId: Json, factorName: Json, path: string): ValidationError {
    ValidationError(SubPath(path, JsString(field)), FieldRequired, Some([("field", field)]), factorId, factorName)
  }

  /** The error of one required name: one when it is missing, none otherwise. */
  function MissingError(config: Json, field: Json, factorId: Json, factorName: Json, path: string): seq<ValidationError> {
    if FieldMissing(config, JsString(field)) then [FieldError(field, factorId, factorName, path)] else []
  }

  /** One `fieldRequired` error per missing name of `required`, in their order. */
  function RequiredErrors(config: Json, required: seq<Json>, factorId: Json, factorName: Json, path: string): seq<ValidationError> {
    if required == [] then []
    else
      RequiredErrors(config, required[..|required| - 1], factorId, factorName, path)
        + MissingError(config, required[|required| - 1], factorId, factorName, path)
  }

  /** The required names are checked one after the other. */
  lemma RequiredStep(config: Json, fields: seq<Json>, i: nat, factorId: Json, factorName: Json, path: string)
    requires i < |fields|
    ensures RequiredErrors(config, fields[..i + 1], factorId, factorName, path)
      == RequiredErrors(config, fields[..i], factorId, factorName, path) + MissingError(config, fields[i], factorId, factorName, path)
  {
    assert fields[..i + 1][..i] == fields[..i];
  }

  function TypeMismatch(key: MessageKey, actualType: string, factorId: Json, factorName: Json, path: string): ValidationError {
    ValidationError(path, key, Some([("actualType", JStr(actualType))]), factorId, factorName)
  }

  /** The schemas declared under `properties`, with their names; a string's or a number's
      keys (characters, none) name string schemas, which check nothing, so only objects and
      arrays of schemas have entries. */
  function SubSchemas(schema: Json): (r: seq<(string, Json)>)
    ensures forall i :: 0 <= i < |r| ==> r[i].1 < schema
  {
    GetPart(schema, "properties");
    Entries(Get(schema, "properties"))
  }

  /** The errors of a config against a schema: the required fields first, then the type
      check, which for objects descends into the declared properties. */
  function ConfigErrors(config: Json, schema: Json, factorId: Json, factorName: Json, path: string): seq<ValidationError>
    decreases schema, 3
  {
    if !Truthy(schema) || TypeOf(schema) != TObject then []
    else RequiredPart(config, schema, factorId, factorName, path) + TypePart(config, schema, factorId, factorName, path)
  }

  /** The required-field errors, when `required` is an array. */
  function RequiredPart(config: Json, schema: Json, factorId: Json, factorName: Json, path: string): seq<ValidationError> {
    var required := Get(schema, "required");
    if required.JArr? then RequiredErrors(config, required.items, factorId, factorName, path) else []
  }

  /** The type errors, when the schema has a `type` and the config is neither `undefined`
      nor `null`. */
  function TypePart(config: Json, schema: Json, factorId: Json, factorName: Json, path: string): seq<ValidationError>
    decreases schema, 2
  {
    if Truthy(Get(schema, "type")) && config != JUndefined && config != JNull
    then TypeErrors(config, schema, factorId, factorName, path)
    else []
  }

  /** The type check of a defined, non-null config. */
  function TypeErrors(config: Json, schema: Json, factorId: Json, factorName: Json, path: string): seq<ValidationError>
    decreases schema, 1
  {
    var t := SchemaTypeOf(Get(schema, "type"));
    if t == SObject then
      if TypeOf(config) != TObject || config.JArr? then
        [TypeMismatch(TypeExpectedObject, if config.JArr? then "array" else TypeName(TypeOf(config)), factorId, factorName, path)]
      else if Truthy(Get(schema, "properties")) then
        Properties(config, SubSchemas(schema), factorId, factorName, path, schema)
      else []
    else ScalarTypeErrors(config, t, factorId, factorName, path)
  }

  /** The key a scalar or array `type` reports a mismatch with; the other types check
      nothing. */
  function ScalarExpectation(t: SchemaType): Option<MessageKey> {
    match t
    case SArray => Some(TypeExpectedArray)
    case SString => Some(TypeExpectedString)
    case SNumber => Some(TypeExpectedNumber)
    case SBoolean => Some(TypeExpectedBoolean)
    case _ => None
  }

  /** `Array.isArray(config)`, or `typeof config` naming the scalar type. */
  predicate Conforms(config: Json, t: SchemaType) {
    match t
    case SArray => config.JArr?
    case SString => config.JStr?
    case SNumber => config.JNum?
    case SBoolean => config.JBool?
    case _ => true
  }

  /** The array and scalar type checks: at most one error, at `path`. */
  function ScalarTypeErrors(config: Json, t: SchemaType, factorId: Json, factorName: Json, path: string): (r: seq<ValidationError>)
    ensures |r| <= 1 && KeysIn(r, ConfigKeys) && PathsUnder(r, path)
  {
    match ScalarExpectation(t)
    case None => []
    case Some(key) =>
      if Conforms(config, t) then [] else [TypeMismatch(key, TypeName(TypeOf(config)), factorId, factorName, path)]
  }

  /** The errors of each declared property, in declaration order. */
  function Properties(config: Json, entries: seq<(string, Json)>, factorId: Json, factorName: Json, path: string, ghost parent: Json): seq<ValidationError>
    requires forall i :: 0 <= i < |entries| ==> entries[i].1 < parent
    decreases parent, 0, |entries|
  {
    if entries == [] then []
    else
      var (key, sub) := entries[|entries| - 1];
      Properties(config, entries[..|entries| - 1], factorId, factorName, path, parent)
        + ConfigErrors(Prop(config, key), sub, factorId, factorName, SubPath(path, key))
  }

  /** The declared properties are checked one after the other. */
  lemma PropertiesStep(config: Json, entries: seq<(string, Json)>, i: nat, factorId: Json, factorName: Json, path: string, parent: Json)
    requires forall k :: 0 <= k < |entries| ==> entries[k].1 < parent
    requires i < |entries|
    ensures Properties(config, entries[..i + 1], factorId, factorName, path, parent)
      == Properties(config, entries[..i], factorId, factorName, path, parent)
         + ConfigErrors(Prop(config, entries[i].0), entries[i].1, factorId, factorName, SubPath(path, entries[i].0))
  {
    assert entries[..i + 1][..i] == entries[..i];
  }

  /** `validateConfigBySchema`, pushing errors as it goes. */
  method ValidateConfigBySchema(config: Json, jsonSchema: Json, factorId: Json, factorName: Json, path: string)
    returns (errors: seq<ValidationError>)
    ensures errors == ConfigErrors(config, jsonSchema, factorId, factorName, path)
    decreases jsonSchema, 3
  {
    errors := [];
    if !Truthy(jsonSchema) || TypeOf(jsonSchema) != TObject {
      return;
    }
    errors := CheckRequiredPart(config, jsonSchema, factorId, factorName, path);
    var typeErrors := CheckTypePart(config, jsonSchema, factorId, factorName, path);
    errors := errors + typeErrors;
  }

  /** The `required` check of `validateConfigBySchema`. */
  method CheckRequiredPart(config: Json, jsonSchema: Json, factorId: Json, factorName: Json, path: string)
    returns (errors: seq<ValidationError>)
    ensures errors == RequiredPart(config, jsonSchema, factorId, factorName, path)
  {
    errors := [];
    var required := Get(jsonSchema, "required");
    if Truthy(required) && required.JArr? {
      errors := CheckRequired(config, required.items, factorId, factorName, path);
    }
  }

  /** The guard of the type check of `validateConfigBySchema`. */
  method CheckTypePart(config: Json, jsonSchema: Json, factorId: Json, factorName: Json, path: string)
    returns (errors: seq<ValidationError>)
    ensures errors == TypePart(config, jsonSchema, factorId, factorName, path)
    decreases jsonSchema, 2
  {
    errors := [];
    var t := Get(jsonSchema, "type");
    if Truthy(t) && config != JUndefined && config != JNull {
      errors := CheckType(config, jsonSchema, factorId, factorName, path);
    }
  }

  /** The `required.forEach` of `validateConfigBySchema`. */
  method CheckRequired(config: Json, fields: seq<Json>, factorId: Json, factorName: Json, path: string)
    returns (errors: seq<ValidationError>)
    ensures errors == RequiredErrors(config, fields, factorId, factorName, path)
  {
    errors := [];
    for i := 0 to |fields|
      invariant errors == RequiredErrors(config, fields[..i], factorId, factorName, path)
    {
      RequiredStep(config, fields, i, factorId, factorName, path);
      var field := fields[i];
      if !Truthy(config) || Blank(Prop(config, JsString(field))) {
        errors := errors + [FieldError(field, factorId, factorName, path)];
      }
    }
    assert fields[..|fields|] == fields;
  }

  /** The `switch (type)` of `validateConfigBySchema`. */
  method CheckType(config: Json, jsonSchema: Json, factorId: Json, factorName: Json, path: string)
    returns (errors: seq<ValidationError>)
    ensures errors == TypeErrors(config, jsonSchema, factorId, factorName, path)
    decreases jsonSchema, 1
  {
    errors := [];
    var t := SchemaTypeOf(Get(jsonSchema, "type"));
    var properties := Get(jsonSchema, "properties");
    if t == SObject {
      if TypeOf(config) != TObject || config.JArr? {
        var actualType := if config.JArr? then "array" else TypeName(TypeOf(config));
        errors := [TypeMismatch(TypeExpectedObject, actualType, factorId, factorName, path)];
      } else if Truthy(properties) {
        errors := CheckProperties(config, jsonSchema, factorId, factorName, path);
      }
    } else {
      errors := CheckScalarType(config, t, factorId, factorName, path);
    }
  }

  /** The recursion into each declared property of an object schema. */
  method CheckProperties(config: Json, jsonSchema: Json, factorId: Json, factorName: Json, path: string)
    returns (errors: seq<ValidationError>)
    ensures errors == Properties(config, SubSchemas(jsonSchema), factorId, factorName, path, jsonSchema)
    decreases jsonSchema, 0
  {
    errors := [];
    var entries := SubSchemas(jsonSchema);
    for i := 0 to |entries|
      invariant errors == Properties(config, entries[..i], factorId, factorName, path, jsonSchema)
    {
      PropertiesStep(config, entries, i, factorId, factorName, path, jsonSchema);
      var key := entries[i].0;
      var subErrors := ValidateConfigBySchema(Prop(config, key), entries[i].1, factorId, factorName, SubPath(path, key));
      errors := errors + subErrors;
    }
    assert entries[..|entries|] == entries;
  }

  /** The `array`, `string`, `number` and `boolean` cases of the type switch. */
  method CheckScalarType(config: Json, t: SchemaType, factorId: Json, factorName: Json, path: string)
    returns (errors: seq<ValidationError>)
    ensures errors == ScalarTypeErrors(config, t, factorId, factorName, path)
  {
    errors := [];
    var actualType := TypeName(TypeOf(config));
    match t {
      case SArray =>
        if !config.JArr? {
          errors := [TypeMismatch(TypeExpectedArray, actualType, factorId, factorName, path)];
        }
      case SString =>
        if !config.JStr? {
          errors := [TypeMismatch(TypeExpectedString, actualType, factorId, factorName, path)];
        }
      case SNumber =>
        if !config.JNum? {
          errors := [TypeMismatch(TypeExpectedNumber, actualType, factorId, factorName, path)];
        }
      case SBoolean =>
        if !config.JBool? {
          errors := [TypeMismatch(TypeExpectedBoolean, actualType, factorId, factorName, path)];
        }
      case _ =>
    }
  }

  // ---------------------------------------------------------------------------------
  // validateRuleNode

  /** `factorOptions.find(f => f.id === id)`: the first factor with that id. */
  function FindOption(options: seq<FactorOption>, id: Json): (r: Option<FactorOption>)
    ensures r.None? <==> forall i :: 0 <= i < |options| ==> JNum(options[i].id) != id
    ensures r.Some? ==> r.value in options && JNum(r.value.id) == id
  {
    if options == [] then None
    else if JNum(options[0].id) == id then Some(options[0])
    else FindOption(options[1..], id)
  }

  /** The factor found is the first one with that id. */
  lemma {:induction false} FindOptionFirst(options: seq<FactorOption>, id: Json, i: nat)
    requires i < |options| && JNum(options[i].id) == id
    requires forall j :: 0 <= j < i ==> JNum(options[j].id) != id
    ensures FindOption(options, id) == Some(options[i])
  {
    if i > 0 {
      FindOptionFirst(options[1..], id, i - 1);
    }
  }

  /** A group node: its `nodeType` is `AND` or `OR`. */
  predicate IsGroupNode(node: Json) {
    var t := Get(node, "nodeType");
    Truthy(t) && (t == JStr("AND") || t == JStr("OR"))
  }

  /** A factor leaf: it has no `nodeType`. */
  predicate IsFactorNode(node: Json) {
    !Truthy(Get(node, "nodeType"))
  }

  function NodeError(node: Json, path: string, key: MessageKey, params: Option<seq<(string, Json)>>): ValidationError {
    ValidationError(path, key, params, Get(node, "id"), Get(node, "factor"))
  }

  /** The error `e` if the check `c` fails, none otherwise. */
  function Flag(c: bool, e: ValidationError): seq<ValidationError> {
    if c then [e] else []
  }

  /** The three presence checks of a leaf, in order. */
  function BasicLeafErrors(node: Json, path: string): seq<ValidationError> {
    Flag(!Truthy(Get(node, "id")), NodeError(node, path, FactorIdRequired, None))
      + Flag(!Truthy(Get(node, "factor")), NodeError(node, path, FactorNameRequired, None))
      + Flag(Blank(Get(node, "config")), NodeError(node, path, FactorConfigRequired, None))
  }

  /** The catalogue and schema checks of a leaf with an id and a factor name: an unknown id
      or an unparsable schema is one error and ends the check; otherwise the config is
      checked under `path.config`. An absent schema text is the empty schema `{}`. */
  function CatalogueErrors(node: Json, options: seq<FactorOption>, path: string, parse: string -> Result<Json>): seq<ValidationError> {
    var id := Get(node, "id");
    match FindOption(options, id)
    case None => [NodeError(node, path, FactorNotFound, Some([("id", id)]))]
    case Some(f) =>
      match parse(if f.jsonSchema == "" then "{}" else f.jsonSchema)
      case Err(_) => [NodeError(node, path, JsonSchemaInvalid, Some([("name", f.name)]))]
      case Ok(schema) =>
        ConfigErrors(Get(node, "config"), schema, id, if Truthy(f.name) then f.name else Get(node, "factor"), path + ".config")
  }

  function GroupChildrenError(node: Json, path: string): ValidationError {
    NodeError(node, path, GroupNodeChildrenRequired, Some([("nodeType", Get(node, "nodeType"))]))
  }

  /** The errors of a rule node and everything below it. */
  function NodeErrors(node: Json, options: seq<FactorOption>, path: string, parse: string -> Result<Json>): seq<ValidationError>
    decreases node, 2
  {
    if !Truthy(node) then []
    else if IsFactorNode(node) then LeafErrors(node, options, path, parse)
    else if IsGroupNode(node) then GroupErrors(node, options, path, parse)
    else [NodeError(node, path, InvalidNodeType, None)]
  }

  /** The errors of a leaf: the presence checks, then, with an id and a factor name, the
      catalogue checks. */
  function LeafErrors(node: Json, options: seq<FactorOption>, path: string, parse: string -> Result<Json>): seq<ValidationError> {
    BasicLeafErrors(node, path) + LeafCatalogue(node, options, path, parse)
  }

  function LeafCatalogue(node: Json, options: seq<FactorOption>, path: string, parse: string -> Result<Json>): seq<ValidationError> {
    if Truthy(Get(node, "id")) && Truthy(Get(node, "factor")) then CatalogueErrors(node, options, path, parse) else []
  }

  /** The errors of a group: one when it has no children, else those of its children. */
  function GroupErrors(node: Json, options: seq<FactorOption>, path: string, parse: string -> Result<Json>): seq<ValidationError>
    decreases node, 1
  {
    var children := ChildNodes(node);
    if children == [] then [GroupChildrenError(node, path)]
    else Children(children, options, path, parse, node)
  }

  /** The children of a node: the elements of its `children` array, if it has one. */
  function ChildNodes(node: Json): (r: seq<Json>)
    ensures forall i :: 0 <= i < |r| ==> r[i] < node
    ensures Get(node, "children").JArr? ==> r == Get(node, "children").items
    ensures !Get(node, "children").JArr? ==> r == []
  {
    var children := Get(node, "children");
    if children.JArr? then
      GetPart(node, "children");
      assert forall i :: 0 <= i < |children.items| ==> children.items[i] < node by {
        forall i | 0 <= i < |children.items| ensures children.items[i] < node {
          assert children.items[i] in children.items;
        }
      }
      children.items
    else []
  }

  /** The errors of the children of a group, child by child. */
  function Children(items: seq<Json>, options: seq<FactorOption>, path: string, parse: string -> Result<Json>, ghost parent: Json): seq<ValidationError>
    requires forall i :: 0 <= i < |items| ==> items[i] < parent
    decreases parent, 0, |items|
  {
    if items == [] then []
    else
      Children(items[..|items| - 1], options, path, parse, parent)
        + NodeErrors(items[|items| - 1], options, ChildPath(path, |items| - 1), parse)
  }

  /** `validateRuleNode`, pushing errors as it goes. */
  method ValidateRuleNode(node: Json, factorOptions: seq<FactorOption>, path: string, parse: string -> Result<Json>)
    returns (errors: seq<ValidationError>)
    ensures errors == NodeErrors(node, factorOptions, path, parse)
    decreases node, 1
  {
    errors := [];
    if !Truthy(node) {
      return;
    }
    var nodeType := Get(node, "nodeType");
    var isGroupNode := Truthy(nodeType) && (nodeType == JStr("AND") || nodeType == JStr("OR"));
    var isFactorNode := !Truthy(nodeType);
    if isFactorNode {
      errors := ValidateLeaf(node, factorOptions, path, parse);
    }
    if isGroupNode {
      var groupErrors := ValidateGroup(node, factorOptions, path, parse);
      errors := errors + groupErrors;
    }
    if !isGroupNode && !isFactorNode {
      errors := errors + [NodeError(node, path, InvalidNodeType, None)];
    }
  }

  /** The group part of `validateRuleNode`: the children are checked in order under
      `path.children[i]`. */
  method ValidateGroup(node: Json, factorOptions: seq<FactorOption>, path: string, parse: string -> Result<Json>)
    returns (errors: seq<ValidationError>)
    ensures errors == GroupErrors(node, factorOptions, path, parse)
    decreases node, 0
  {
    errors := [];
    var children := Get(node, "children");
    if !children.JArr? || |children.items| == 0 {
      errors := [GroupChildrenError(node, path)];
    } else {
      var items := children.items;
      assert items == ChildNodes(node);
      for index := 0 to |items|
        invariant errors == Children(items[..index], factorOptions, path, parse, node)
      {
        ChildrenStep(items, index, factorOptions, path, parse, node);
        var childErrors := ValidateRuleNode(items[index], factorOptions, ChildPath(path, index), parse);
        errors := errors + childErrors;
      }
      assert items[..|items|] == items;
    }
  }

  /** The children are checked one after the other. */
  lemma ChildrenStep(items: seq<Json>, i: nat, options: seq<FactorOption>, path: string, parse: string -> Result<Json>, parent: Json)
    requires forall k :: 0 <= k < |items| ==> items[k] < parent
    requires i < |items|
    ensures Children(items[..i + 1], options, path, parse, parent)
      == Children(items[..i], options, path, parse, parent) + NodeErrors(items[i], options, ChildPath(path, i), parse)
  {
    assert items[..i + 1][..i] == items[..i];
  }

  /** The leaf part of `validateRuleNode`. */
  method ValidateLeaf(node: Json, factorOptions: seq<FactorOption>, path: string, parse: string -> Result<Json>)
    returns (errors: seq<ValidationError>)
    ensures errors == LeafErrors(node, factorOptions, path, parse)
  {
    var id := Get(node, "id");
    var factorName := Get(node, "factor");
    errors := [];
    if !Truthy(id) {
      errors := errors + [NodeError(node, path, FactorIdRequired, None)];
    }
    if !Truthy(factorName) {
      errors := errors + [NodeError(node, path, FactorNameRequired, None)];
    }
    if Blank(Get(node, "config")) {
      errors := errors + [NodeError(node, path, FactorConfigRequired, None)];
    }
    assert errors == BasicLeafErrors(node, path);
    if Truthy(id) && Truthy(factorName) {
      var catalogueErrors := CheckCatalogue(node, factorOptions, path, parse);
      errors := errors + catalogueErrors;
    }
  }

  /** The catalogue lookup and schema check of a leaf with an id and a factor name; an
      unknown factor or a schema that does not parse ends the leaf's check. */
  method CheckCatalogue(node: Json, factorOptions: seq<FactorOption>, path: string, parse: string -> Result<Json>)
    returns (errors: seq<ValidationError>)
    ensures errors == CatalogueErrors(node, factorOptions, path, parse)
  {
    var id := Get(node, "id");
    var factor := FindOption(factorOptions, id);
    if factor.None? {
      return [NodeError(node, path, FactorNotFound, Some([("id", id)]))];
    }
    var f := factor.value;
    var jsonSchema := parse(if f.jsonSchema == "" then "{}" else f.jsonSchema);
    if jsonSchema.Err? {
      return [NodeError(node, path, JsonSchemaInvalid, Some([("name", f.name)]))];
    }
    errors := ValidateConfigBySchema(Get(node, "config"), jsonSchema.value, id,
      if Truthy(f.name) then f.name else Get(node, "factor"), path + ".config");
  }

  /** `validateParsedRule`: the tree is checked from `root`, and it is valid exactly when no
      error was found. */
  method ValidateParsedRule(parsedRule: Json, factorOptions: seq<FactorOption>, parse: string -> Result<Json>)
    returns (r: ValidationResult)
    ensures r.errors == NodeErrors(parsedRule, factorOptions, "root", parse)
    ensures r.isValid <==> r.errors == []
  {
    var errors := ValidateRuleNode(parsedRule, factorOptions, "root", parse);
    return ValidationResult(|errors| == 0, errors);
  }

  // ---------------------------------------------------------------------------------
  // formatValidationErrors

  /** One error as a line: the factor in brackets when there is one, the message, and the
      path. */
  function ErrorLine(e: ValidationError, fmt: (string, Option<seq<(string, Json)>>) -> string): string {
    (if Truthy(e.factorName) then "[" + JsString(e.factorName) + "] " else "")
      + fmt(KeyId(e.messageKey), e.messageParams) + " (" + fmt(KeyId(PathLabel), None) + ": " + e.path + ")"
  }

  function ErrorLines(errors: seq<ValidationError>, fmt: (string, Option<seq<(string, Json)>>) -> string): (r: seq<string>)
    ensures |r| == |errors| && forall i :: 0 <= i < |errors| ==> r[i] == ErrorLine(errors[i], fmt)
  {
    seq(|errors|, i requires 0 <= i < |errors| => ErrorLine(errors[i], fmt))
  }

  /** `formatValidationErrors`: the "passed" message, or one line per error. As long as no
      line itself holds a line break, splitting the text at line breaks gives back exactly
      one line per error, in order. */
  function FormatValidationErrors(errors: seq<ValidationError>, fmt: (string, Option<seq<(string, Json)>>) -> string): (r: string)
    ensures |errors| == 0 ==> r == fmt(KeyId(ValidationPassed), None)
    ensures |errors| >= 1 && (forall i :: 0 <= i < |errors| ==> '\n' !in ErrorLine(errors[i], fmt)) ==>
      Split(r, '\n') == ErrorLines(errors, fmt)
  {
    if |errors| == 0 then fmt(KeyId(ValidationPassed), None)
    else
      var lines := ErrorLines(errors, fmt);
      if forall i :: 0 <= i < |errors| ==> '\n' !in ErrorLine(errors[i], fmt) then
        JoinSplit(lines, '\n');
        Join(lines, '\n')
      else Join(lines, '\n')
  }

  // ---------------------------------------------------------------------------------
  // Properties

  /** Each line ends with the path of its error. */
  lemma ErrorLineEndsWithPath(e: ValidationError, fmt: (string, Option<seq<(string, Json)>>) -> string)
    ensures HasSuffix(ErrorLine(e, fmt), ": " + e.path + ")")
  {
    var head := (if Truthy(e.factorName) then "[" + JsString(e.factorName) + "] " else "")
      + fmt(KeyId(e.messageKey), e.messageParams) + " (" + fmt(KeyId(PathLabel), None);
    assert ErrorLine(e, fmt) == head + (": " + e.path + ")");
  }

  /** A factor name is shown in brackets at the head of the line exactly when there is one. */
  lemma ErrorLineNamesFactor(e: ValidationError, fmt: (string, Option<seq<(string, Json)>>) -> string)
    ensures Truthy(e.factorName) ==> HasPrefix(ErrorLine(e, fmt), "[" + JsString(e.factorName) + "] ")
    ensures !Truthy(e.factorName) ==> HasPrefix(ErrorLine(e, fmt), fmt(KeyId(e.messageKey), e.messageParams))
  {
  }

  /** Every error of `errs` has one of the `keys`. */
  predicate KeysIn(errs: seq<ValidationError>, keys: set<MessageKey>) {
    forall i :: 0 <= i < |errs| ==> errs[i].messageKey in keys
  }

  /** Every error of `errs` lies at or below `p`. */
  predicate PathsUnder(errs: seq<ValidationError>, p: string) {
    forall i :: 0 <= i < |errs| ==> HasPrefix(errs[i].path, p)
  }

  lemma ConcatKeysIn(a: seq<ValidationError>, b: seq<ValidationError>, keys: set<MessageKey>)
    requires KeysIn(a, keys) && KeysIn(b, keys)
    ensures KeysIn(a + b, keys)
  {
  }

  lemma ConcatPathsUnder(a: seq<ValidationError>, b: seq<ValidationError>, p: string)
    requires PathsUnder(a, p) && PathsUnder(b, p)
    ensures PathsUnder(a + b, p)
  {
  }

  /** Errors below a path are below each of its prefixes. */
  lemma WidenPathsUnder(errs: seq<ValidationError>, q: string, p: string)
    requires PathsUnder(errs, q) && HasPrefix(q, p)
    ensures PathsUnder(errs, p)
  {
    forall i | 0 <= i < |errs|
      ensures HasPrefix(errs[i].path, p)
    {
      assert errs[i].path[..|p|] == errs[i].path[..|q|][..|p|];
    }
  }

  /** The error a required name is reported with when it is missing. */
  predicate ReportedFor(e: ValidationError, config: Json, required: seq<Json>, factorId: Json, factorName: Json, path: string) {
    exists i :: 0 <= i < |required| && FieldMissing(config, JsString(required[i])) && e == FieldError(required[i], factorId, factorName, path)
  }

  /** Every required-field error is the error of a missing name. */
  lemma {:induction false} RequiredErrorsSound(config: Json, required: seq<Json>, factorId: Json, factorName: Json, path: string, e: ValidationError)
    requires e in RequiredErrors(config, required, factorId, factorName, path)
    ensures ReportedFor(e, config, required, factorId, factorName, path)
  {
    var init := required[..|required| - 1];
    var field := required[|required| - 1];
    var head := RequiredErrors(config, init, factorId, factorName, path);
    if e in head {
      RequiredErrorsSound(config, init, factorId, factorName, path, e);
      var i :| 0 <= i < |init| && FieldMissing(config, JsString(init[i])) && e == FieldError(init[i], factorId, factorName, path);
      assert required[i] == init[i];
    } else {
      assert FieldMissing(config, JsString(field)) && e == FieldError(field, factorId, factorName, path);
    }
  }

  /** Every missing name is reported. */
  lemma {:induction false} RequiredErrorsComplete(config: Json, required: seq<Json>, factorId: Json, factorName: Json, path: string, i: nat)
    requires i < |required| && FieldMissing(config, JsString(required[i]))
    ensures FieldError(required[i], factorId, factorName, path) in RequiredErrors(config, required, factorId, factorName, path)
  {
    var init := required[..|required| - 1];
    var head := RequiredErrors(config, init, factorId, factorName, path);
    var tail := MissingError(config, required[|required| - 1], factorId, factorName, path);
    assert RequiredErrors(config, required, factorId, factorName, path) == head + tail;
    if i < |required| - 1 {
      assert init[i] == required[i];
      RequiredErrorsComplete(config, init, factorId, factorName, path, i);
    } else {
      assert tail == [FieldError(required[i], factorId, factorName, path)];
    }
  }

  /** The required-field errors are exactly one per missing name. */
  lemma RequiredErrorsExactly(config: Json, required: seq<Json>, factorId: Json, factorName: Json, path: string, e: ValidationError)
    ensures e in RequiredErrors(config, required, factorId, factorName, path) <==> ReportedFor(e, config, required, factorId, factorName, path)
  {
    if e in RequiredErrors(config, required, factorId, factorName, path) {
      RequiredErrorsSound(config, required, factorId, factorName, path, e);
    }
    if ReportedFor(e, config, required, factorId, factorName, path) {
      var i :| 0 <= i < |required| && FieldMissing(config, JsString(required[i])) && e == FieldError(required[i], factorId, factorName, path);
      RequiredErrorsComplete(config, required, factorId, factorName, path, i);
    }
  }

  /** Required-field errors are reported below the config's path. */
  lemma {:induction false} RequiredErrorsShape(config: Json, required: seq<Json>, factorId: Json, factorName: Json, path: string)
    ensures KeysIn(RequiredErrors(config, required, factorId, factorName, path), {FieldRequired})
    ensures PathsUnder(RequiredErrors(config, required, factorId, factorName, path), path)
  {
    if required != [] {
      var init := required[..|required| - 1];
      var field := required[|required| - 1];
      RequiredErrorsShape(config, init, factorId, factorName, path);
      var head := RequiredErrors(config, init, factorId, factorName, path);
      var tail := MissingError(config, field, factorId, factorName, path);
      ConcatKeysIn(head, tail, {FieldRequired});
      ConcatPathsUnder(head, tail, path);
    }
  }

  /** A falsy config misses every required field. */
  lemma {:induction false} FalsyConfigMissesAll(config: Json, required: seq<Json>, factorId: Json, factorName: Json, path: string)
    requires !Truthy(config)
    ensures |RequiredErrors(config, required, factorId, factorName, path)| == |required|
  {
    if required != [] {
      FalsyConfigMissesAll(config, required[..|required| - 1], factorId, factorName, path);
    }
  }

  /** Every error a config check reports is a required-field or a type error, at or below
      the path the check was started with. */
  lemma {:induction false} ConfigErrorsShape(config: Json, schema: Json, factorId: Json, factorName: Json, path: string)
    ensures KeysIn(ConfigErrors(config, schema, factorId, factorName, path), ConfigKeys)
    ensures PathsUnder(ConfigErrors(config, schema, factorId, factorName, path), path)
    decreases schema, 3
  {
    if Truthy(schema) && TypeOf(schema) == TObject {
      var a := RequiredPart(config, schema, factorId, factorName, path);
      var b := TypePart(config, schema, factorId, factorName, path);
      RequiredPartShape(config, schema, factorId, factorName, path);
      TypePartShape(config, schema, factorId, factorName, path);
      ConcatKeysIn(a, b, ConfigKeys);
      ConcatPathsUnder(a, b, path);
    }
  }

  lemma RequiredPartShape(config: Json, schema: Json, factorId: Json, factorName: Json, path: string)
    ensures KeysIn(RequiredPart(config, schema, factorId, factorName, path), ConfigKeys)
    ensures PathsUnder(RequiredPart(config, schema, factorId, factorName, path), path)
  {
    var required := Get(schema, "required");
    if required.JArr? {
      RequiredErrorsShape(config, required.items, factorId, factorName, path);
      WidenKeysIn(RequiredErrors(config, required.items, factorId, factorName, path), {FieldRequired}, ConfigKeys);
    }
  }

  lemma {:induction false} TypePartShape(config: Json, schema: Json, factorId: Json, factorName: Json, path: string)
    ensures KeysIn(TypePart(config, schema, factorId, factorName, path), ConfigKeys)
    ensures PathsUnder(TypePart(config, schema, factorId, factorName, path), path)
    decreases schema, 2
  {
    if Truthy(Get(schema, "type")) && config != JUndefined && config != JNull {
      TypeErrorsShape(config, schema, factorId, factorName, path);
    }
  }

  lemma WidenKeysIn(errs: seq<ValidationError>, keys: set<MessageKey>, wider: set<MessageKey>)
    requires KeysIn(errs, keys) && keys <= wider
    ensures KeysIn(errs, wider)
  {
  }

  lemma {:induction false} TypeErrorsShape(config: Json, schema: Json, factorId: Json, factorName: Json, path: string)
    ensures KeysIn(TypeErrors(config, schema, factorId, factorName, path), ConfigKeys)
    ensures PathsUnder(TypeErrors(config, schema, factorId, factorName, path), path)
    decreases schema, 1
  {
    if SchemaTypeOf(Get(schema, "type")) == SObject {
      if !(TypeOf(config) != TObject || config.JArr?) && Truthy(Get(schema, "properties")) {
        PropertiesShape(config, SubSchemas(schema), factorId, factorName, path, schema);
      }
    }
  }

  lemma {:induction false} PropertiesShape(config: Json, entries: seq<(string, Json)>, factorId: Json, factorName: Json, path: string, parent: Json)
    requires forall i :: 0 <= i < |entries| ==> entries[i].1 < parent
    ensures KeysIn(Properties(config, entries, factorId, factorName, path, parent), ConfigKeys)
    ensures PathsUnder(Properties(config, entries, factorId, factorName, path, parent), path)
    decreases parent, 0, |entries|
  {
    if entries != [] {
      var (key, sub) := entries[|entries| - 1];
      var a := Properties(config, entries[..|entries| - 1], factorId, factorName, path, parent);
      var b := ConfigErrors(Prop(config, key), sub, factorId, factorName, SubPath(path, key));
      PropertiesShape(config, entries[..|entries| - 1], factorId, factorName, path, parent);
      ConfigErrorsShape(Prop(config, key), sub, factorId, factorName, SubPath(path, key));
      WidenPathsUnder(b, SubPath(path, key), path);
      ConcatKeysIn(a, b, ConfigKeys);
      ConcatPathsUnder(a, b, path);
    }
  }

  /** The catalogue check of a leaf reports only catalogue and config errors, at or below
      the leaf's path. */
  lemma CatalogueErrorsShape(node: Json, options: seq<FactorOption>, path: string, parse: string -> Result<Json>)
    ensures KeysIn(CatalogueErrors(node, options, path, parse), CatalogueKeys)
    ensures PathsUnder(CatalogueErrors(node, options, path, parse), path)
  {
    var f := FindOption(options, Get(node, "id"));
    if f.Some? {
      var parsed := parse(if f.value.jsonSchema == "" then "{}" else f.value.jsonSchema);
      if parsed.Ok? {
        var name := if Truthy(f.value.name) then f.value.name else Get(node, "factor");
        ConfigErrorsShape(Get(node, "config"), parsed.value, Get(node, "id"), name, path + ".config");
        WidenPathsUnder(CatalogueErrors(node, options, path, parse), path + ".config", path);
      }
    }
  }

  /** Every error of a node lies at or below the node's path. */
  lemma {:induction false} NodeErrorPaths(node: Json, options: seq<FactorOption>, path: string, parse: string -> Result<Json>)
    ensures PathsUnder(NodeErrors(node, options, path, parse), path)
    decreases node, 2
  {
    if Truthy(node) {
      if IsFactorNode(node) {
        LeafErrorPaths(node, options, path, parse);
      } else if IsGroupNode(node) && ChildNodes(node) != [] {
        ChildErrorPaths(ChildNodes(node), options, path, parse, node);
        WidenPathsUnder(GroupErrors(node, options, path, parse), path + ".children[", path);
      }
    }
  }

  lemma LeafErrorPaths(node: Json, options: seq<FactorOption>, path: string, parse: string -> Result<Json>)
    ensures PathsUnder(LeafErrors(node, options, path, parse), path)
  {
    var a := BasicLeafErrors(node, path);
    var b := LeafCatalogue(node, options, path, parse);
    CatalogueErrorsShape(node, options, path, parse);
    ConcatPathsUnder(a, b, path);
  }

  /** The errors of a group's children all lie below `path.children[`. */
  lemma {:induction false} ChildErrorPaths(items: seq<Json>, options: seq<FactorOption>, path: string, parse: string -> Result<Json>, parent: Json)
    requires forall i :: 0 <= i < |items| ==> items[i] < parent
    ensures PathsUnder(Children(items, options, path, parse, parent), path + ".children[")
    decreases parent, 0, |items|
  {
    if items != [] {
      var last := |items| - 1;
      var a := Children(items[..last], options, path, parse, parent);
      var b := NodeErrors(items[last], options, ChildPath(path, last), parse);
      ChildErrorPaths(items[..last], options, path, parse, parent);
      NodeErrorPaths(items[last], options, ChildPath(path, last), parse);
      WidenPathsUnder(b, ChildPath(path, last), path + ".children[");
      ConcatPathsUnder(a, b, path + ".children[");
    }
  }

  /** A falsy node (`null`, `undefined`, ...) yields no errors. */
  lemma FalsyNodeValid(node: Json, options: seq<FactorOption>, path: string, parse: string -> Result<Json>)
    requires !Truthy(node)
    ensures NodeErrors(node, options, path, parse) == []
  {
  }

  /** Some error of `errs` has key `k`. */
  predicate HasKey(errs: seq<ValidationError>, k: MessageKey) {
    exists i :: 0 <= i < |errs| && errs[i].messageKey == k
  }

  lemma HasKeyConcat(a: seq<ValidationError>, b: seq<ValidationError>, k: MessageKey)
    ensures HasKey(a + b, k) <==> HasKey(a, k) || HasKey(b, k)
  {
    if HasKey(a + b, k) {
      var i :| 0 <= i < |a + b| && (a + b)[i].messageKey == k;
      if i >= |a| {
        assert b[i - |a|].messageKey == k;
      }
    }
    if HasKey(a, k) {
      var i :| 0 <= i < |a| && a[i].messageKey == k;
      assert (a + b)[i] == a[i];
    }
    if HasKey(b, k) {
      var i :| 0 <= i < |b| && b[i].messageKey == k;
      assert (a + b)[|a| + i] == b[i];
    }
  }

  /** Three checks report a key exactly when one that failed has it. */
  lemma FlagsKey(c1: bool, e1: ValidationError, c2: bool, e2: ValidationError, c3: bool, e3: ValidationError, k: MessageKey)
    ensures HasKey(Flag(c1, e1) + Flag(c2, e2) + Flag(c3, e3), k)
      <==> (c1 && e1.messageKey == k) || (c2 && e2.messageKey == k) || (c3 && e3.messageKey == k)
  {
    HasKeyConcat(Flag(c1, e1) + Flag(c2, e2), Flag(c3, e3), k);
    HasKeyConcat(Flag(c1, e1), Flag(c2, e2), k);
    assert HasKey(Flag(c1, e1), k) <==> c1 && e1.messageKey == k by {
      if c1 && e1.messageKey == k { assert Flag(c1, e1)[0] == e1; }
    }
    assert HasKey(Flag(c2, e2), k) <==> c2 && e2.messageKey == k by {
      if c2 && e2.messageKey == k { assert Flag(c2, e2)[0] == e2; }
    }
    assert HasKey(Flag(c3, e3), k) <==> c3 && e3.messageKey == k by {
      if c3 && e3.messageKey == k { assert Flag(c3, e3)[0] == e3; }
    }
  }

  /** The presence checks report each missing part. */
  lemma BasicLeafKeys(node: Json, path: string)
    ensures HasKey(BasicLeafErrors(node, path), FactorIdRequired) <==> !Truthy(Get(node, "id"))
    ensures HasKey(BasicLeafErrors(node, path), FactorNameRequired) <==> !Truthy(Get(node, "factor"))
    ensures HasKey(BasicLeafErrors(node, path), FactorConfigRequired) <==> Blank(Get(node, "config"))
  {
    var e1, e2, e3 := NodeError(node, path, FactorIdRequired, None), NodeError(node, path, FactorNameRequired, None), NodeError(node, path, FactorConfigRequired, None);
    var c1, c2, c3 := !Truthy(Get(node, "id")), !Truthy(Get(node, "factor")), Blank(Get(node, "config"));
    FlagsKey(c1, e1, c2, e2, c3, e3, FactorIdRequired);
    FlagsKey(c1, e1, c2, e2, c3, e3, FactorNameRequired);
    FlagsKey(c1, e1, c2, e2, c3, e3, FactorConfigRequired);
  }

  /** For a leaf, an id error is reported exactly when the id is missing or 0, a name error
      exactly when the factor name is missing or empty, and a config error exactly when the
      config is `undefined`, `null` or empty; these presence errors come first. */
  lemma LeafPresenceErrors(node: Json, options: seq<FactorOption>, path: string, parse: string -> Result<Json>)
    requires Truthy(node) && IsFactorNode(node)
    ensures HasKey(NodeErrors(node, options, path, parse), FactorIdRequired) <==> !Truthy(Get(node, "id"))
    ensures HasKey(NodeErrors(node, options, path, parse), FactorNameRequired) <==> !Truthy(Get(node, "factor"))
    ensures HasKey(NodeErrors(node, options, path, parse), FactorConfigRequired) <==> Blank(Get(node, "config"))
    ensures HasPrefixSeq(NodeErrors(node, options, path, parse), BasicLeafErrors(node, path))
  {
    assert NodeErrors(node, options, path, parse) == LeafErrors(node, options, path, parse);
    LeafPresenceKeys(node, options, path, parse);
    LeafStartsWithPresence(node, options, path, parse);
  }

  /** The presence keys a leaf reports are those its presence checks report. */
  lemma LeafPresenceKeys(node: Json, options: seq<FactorOption>, path: string, parse: string -> Result<Json>)
    ensures HasKey(LeafErrors(node, options, path, parse), FactorIdRequired) <==> !Truthy(Get(node, "id"))
    ensures HasKey(LeafErrors(node, options, path, parse), FactorNameRequired) <==> !Truthy(Get(node, "factor"))
    ensures HasKey(LeafErrors(node, options, path, parse), FactorConfigRequired) <==> Blank(Get(node, "config"))
  {
    LeafIdKey(node, options, path, parse);
    LeafNameKey(node, options, path, parse);
    LeafConfigKey(node, options, path, parse);
  }

  lemma LeafIdKey(node: Json, options: seq<FactorOption>, path: string, parse: string -> Result<Json>)
    ensures HasKey(LeafErrors(node, options, path, parse), FactorIdRequired) <==> !Truthy(Get(node, "id"))
  {
    assert FactorIdRequired !in CatalogueKeys;
    BasicLeafKeys(node, path);
    CatalogueKeysOnly(node, options, path, parse, FactorIdRequired);
  }

  lemma LeafNameKey(node: Json, options: seq<FactorOption>, path: string, parse: string -> Result<Json>)
    ensures HasKey(LeafErrors(node, options, path, parse), FactorNameRequired) <==> !Truthy(Get(node, "factor"))
  {
    assert FactorNameRequired !in CatalogueKeys;
    BasicLeafKeys(node, path);
    CatalogueKeysOnly(node, options, path, parse, FactorNameRequired);
  }

  lemma LeafConfigKey(node: Json, options: seq<FactorOption>, path: string, parse: string -> Result<Json>)
    ensures HasKey(LeafErrors(node, options, path, parse), FactorConfigRequired) <==> Blank(Get(node, "config"))
  {
    assert FactorConfigRequired !in CatalogueKeys;
    BasicLeafKeys(node, path);
    CatalogueKeysOnly(node, options, path, parse, FactorConfigRequired);
  }

  lemma LeafStartsWithPresence(node: Json, options: seq<FactorOption>, path: string, parse: string -> Result<Json>)
    ensures HasPrefixSeq(LeafErrors(node, options, path, parse), BasicLeafErrors(node, path))
  {
    var a := BasicLeafErrors(node, path);
    var b := LeafCatalogue(node, options, path, parse);
    assert (a + b)[..|a|] == a;
  }

  /** A key the catalogue checks never report is reported by a leaf exactly when its
      presence checks report it. */
  lemma CatalogueKeysOnly(node: Json, options: seq<FactorOption>, path: string, parse: string -> Result<Json>, k: MessageKey)
    requires k !in CatalogueKeys
    ensures HasKey(LeafErrors(node, options, path, parse), k) <==> HasKey(BasicLeafErrors(node, path), k)
  {
    var b := LeafCatalogue(node, options, path, parse);
    CatalogueErrorsShape(node, options, path, parse);
    NoKeyOutside(b, CatalogueKeys, k);
    HasKeyConcat(BasicLeafErrors(node, path), b, k);
  }

  /** Keys outside those reported do not occur. */
  lemma NoKeyOutside(errs: seq<ValidationError>, keys: set<MessageKey>, k: MessageKey)
    requires KeysIn(errs, keys) && k !in keys
    ensures !HasKey(errs, k)
  {
  }

  /** `errs` starts with `prefix`. */
  predicate HasPrefixSeq(errs: seq<ValidationError>, prefix: seq<ValidationError>) {
    |prefix| <= |errs| && errs[..|prefix|] == prefix
  }

  /** A leaf whose id is not in the catalogue gets `factorNotFound` as its last error, after
      at most the config error: its schema is never looked at. */
  lemma UnknownFactorStops(node: Json, options: seq<FactorOption>, path: string, parse: string -> Result<Json>)
    requires Truthy(node) && IsFactorNode(node) && Truthy(Get(node, "id")) && Truthy(Get(node, "factor"))
    requires forall i :: 0 <= i < |options| ==> JNum(options[i].id) != Get(node, "id")
    ensures NodeErrors(node, options, path, parse)
      == (if Blank(Get(node, "config")) then [NodeError(node, path, FactorConfigRequired, None)] else [])
         + [NodeError(node, path, FactorNotFound, Some([("id", Get(node, "id"))]))]
  {
  }

  /** A group without a non-empty array of children gets exactly one error. */
  lemma ChildlessGroup(node: Json, options: seq<FactorOption>, path: string, parse: string -> Result<Json>)
    requires Truthy(node) && IsGroupNode(node)
    requires !Get(node, "children").JArr? || Get(node, "children").items == []
    ensures NodeErrors(node, options, path, parse) == [GroupChildrenError(node, path)]
  {
  }

  /** A group with children reports only its children's errors, each below
      `path.children[`, and the errors of child `i` are those of checking it under
      `path.children[i]`. */
  lemma GroupReportsChildren(node: Json, options: seq<FactorOption>, path: string, parse: string -> Result<Json>, i: nat)
    requires Truthy(node) && IsGroupNode(node)
    requires Get(node, "children").JArr? && i < |Get(node, "children").items|
    ensures forall e :: e in NodeErrors(Get(node, "children").items[i], options, ChildPath(path, i), parse) ==> e in NodeErrors(node, options, path, parse)
    ensures PathsUnder(NodeErrors(node, options, path, parse), path + ".children[")
  {
    var items := ChildNodes(node);
    ChildErrorPaths(items, options, path, parse, node);
    ChildrenContain(items, options, path, parse, node, i);
  }

  lemma {:induction false} ChildrenContain(items: seq<Json>, options: seq<FactorOption>, path: string, parse: string -> Result<Json>, parent: Json, i: nat)
    requires forall k :: 0 <= k < |items| ==> items[k] < parent
    requires i < |items|
    ensures forall e :: e in NodeErrors(items[i], options, ChildPath(path, i), parse) ==> e in Children(items, options, path, parse, parent)
    decreases |items|
  {
    if i < |items| - 1 {
      ChildrenContain(items[..|items| - 1], options, path, parse, parent, i);
      assert items[..|items| - 1][i] == items[i];
    }
  }

  /** A `nodeType` other than `AND` and `OR` is one `invalidNodeType` error. */
  lemma UnknownNodeType(node: Json, options: seq<FactorOption>, path: string, parse: string -> Result<Json>)
    requires Truthy(node) && Truthy(Get(node, "nodeType")) && !IsGroupNode(node)
    ensures NodeErrors(node, options, path, parse) == [NodeError(node, path, InvalidNodeType, None)]
  {
  }

  /** An object schema rejects an array config with `actualType` "array". */
  lemma ObjectRejectsArray(items: seq<Json>, schema: Json, factorId: Json, factorName: Json, path: string)
    requires schema.JObj? && Get(schema, "type") == JStr("object")
    ensures TypeMismatch(TypeExpectedObject, "array", factorId, factorName, path) in ConfigErrors(JArr(items), schema, factorId, factorName, path)
  {
    var e := TypeMismatch(TypeExpectedObject, "array", factorId, factorName, path);
    assert TypeErrors(JArr(items), schema, factorId, factorName, path) == [e];
    var a := RequiredPart(JArr(items), schema, factorId, factorName, path);
    assert (a + [e])[|a|] == e;
  }

  /** An object config under an object schema with properties is checked property by
      property. */
  lemma ObjectTypeErrors(config: Json, schema: Json, factorId: Json, factorName: Json, path: string)
    requires config.JObj? && Get(schema, "type") == JStr("object") && Truthy(Get(schema, "properties"))
    ensures TypePart(config, schema, factorId, factorName, path) == Properties(config, SubSchemas(schema), factorId, factorName, path, schema)
  {
    assert Truthy(Get(schema, "type"));
  }

  /** For an object config the object schema checks every declared property: the errors of
      property `k` against its schema, under `path.k`, are among the object's errors. */
  lemma ObjectChecksProperties(config: Json, schema: Json, factorId: Json, factorName: Json, path: string, i: nat)
    requires config.JObj? && schema.JObj? && Get(schema, "type") == JStr("object")
    requires Get(schema, "properties").JObj? && i < |Get(schema, "properties").props|
    ensures var (key, sub) := Get(schema, "properties").props[i];
      forall e :: e in ConfigErrors(Prop(config, key), sub, factorId, factorName, SubPath(path, key)) ==>
        e in ConfigErrors(config, schema, factorId, factorName, path)
  {
    var entries := SubSchemas(schema);
    assert entries == Get(schema, "properties").props;
    PropertiesContain(config, entries, factorId, factorName, path, schema, i);
    ObjectErrorsSplit(config, schema, factorId, factorName, path);
  }

  /** An object schema's errors for an object config are its required-field errors followed
      by the errors of its declared properties. */
  lemma ObjectErrorsSplit(config: Json, schema: Json, factorId: Json, factorName: Json, path: string)
    requires config.JObj? && schema.JObj? && Get(schema, "type") == JStr("object")
    requires Get(schema, "properties").JObj?
    ensures ConfigErrors(config, schema, factorId, factorName, path) ==
      RequiredPart(config, schema, factorId, factorName, path) + Properties(config, SubSchemas(schema), factorId, factorName, path, schema)
  {
    ObjectTypeErrors(config, schema, factorId, factorName, path);
  }

  lemma {:induction false} PropertiesContain(config: Json, entries: seq<(string, Json)>, factorId: Json, factorName: Json, path: string, parent: Json, i: nat)
    requires forall k :: 0 <= k < |entries| ==> entries[k].1 < parent
    requires i < |entries|
    ensures forall e :: e in ConfigErrors(Prop(config, entries[i].0), entries[i].1, factorId, factorName, SubPath(path, entries[i].0)) ==>
      e in Properties(config, entries, factorId, factorName, path, parent)
    decreases |entries|
  {
    if i < |entries| - 1 {
      PropertiesContain(config, entries[..|entries| - 1], factorId, factorName, path, parent, i);
      assert entries[..|entries| - 1][i] == entries[i];
    }
  }
}
