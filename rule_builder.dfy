/** The rule-tree editor of the switch form (`RuleBuilder.tsx`). Every edit builds a new
    node by spreading the old one (`{...node, key: value}`); an object's own properties keep
    their places and a new one goes last. A rule node is a JSON object with `id`,
    `nodeType` (`AND`/`OR` for a group, absent for a leaf), `children`, `factor` and
    `config`. `JSON.parse` is the parameter `parse`. */
module RuleBuilder {
  import opened Wrappers
  import opened JsonValue
  import opened RuleValidator

  /** `{...node, [key]: value}`. */
  function Assign(node: Json, key: string, value: Json): (r: Json)
    ensures r.JObj?
  {
    JObj(Put(Entries(node), key, value))
  }

  /** The spread copy of an object sets `key` and leaves every other property alone. */
  lemma AssignProps(node: Json, key: string, value: Json)
    requires node.JObj?
    ensures Get(Assign(node, key, value), key) == value
    ensures forall k :: k != key ==> Get(Assign(node, key, value), k) == Get(node, k)
    ensures key in Keys(node.props) ==> Keys(Assign(node, key, value).props) == Keys(node.props)
  {
  }

  /** `updateFactor(field, value)` of a leaf. */
  function UpdateFactor(node: Json, field: string, value: Json): Json {
    Assign(node, field, value)
  }

  /** The leaf `addFactor` appends: no factor chosen yet. */
  const NewFactor: Json := JObj([("id", JNum(0)), ("factor", JStr("")), ("config", JStr(""))])

  /** The group `addGroup` appends and `createInitialGroup` starts a rule with. */
  const NewGroup: Json := JObj([("id", JNum(0)), ("nodeType", JStr("AND")), ("children", JArr([]))])

  /** The one-character strings of `s`, as spreading a string gives them. */
  function Chars(s: string): (r: seq<Json>)
    ensures |r| == |s| && forall i :: 0 <= i < |s| ==> r[i] == JStr([s[i]])
  {
    seq(|s|, i requires 0 <= i < |s| => JStr([s[i]]))
  }

  /** `[...(node.children || [])]`: a copy of the children; spreading a truthy value that is
      neither an array nor a string throws, which is `None`. */
  function ChildList(node: Json): (r: Option<seq<Json>>)
    ensures r.None? <==> Truthy(Get(node, "children")) && !Get(node, "children").JArr? && !Get(node, "children").JStr?
  {
    var c := Get(node, "children");
    if !Truthy(c) then Some([])
    else if c.JArr? then Some(c.items)
    else if c.JStr? then Some(Chars(c.s))
    else None
  }

  function WithChildren(node: Json, children: seq<Json>): Json {
    Assign(node, "children", JArr(children))
  }

  /** `addFactor`. */
  function AddFactor(node: Json): Option<Json> {
    match ChildList(node)
    case None => None
    case Some(c) => Some(WithChildren(node, c + [NewFactor]))
  }

  /** `addGroup`. */
  function AddGroup(node: Json): Option<Json> {
    match ChildList(node)
    case None => None
    case Some(c) => Some(WithChildren(node, c + [NewGroup]))
  }

  /** Adding a leaf appends exactly one empty leaf after the existing children and changes
      nothing else; it fails only where spreading the children throws. */
  lemma AddFactorAppends(node: Json, c: seq<Json>)
    requires node.JObj? && ChildList(node) == Some(c)
    ensures AddFactor(node).Some?
    ensures Get(AddFactor(node).value, "children") == JArr(c + [NewFactor])
    ensures forall k :: k != "children" ==> Get(AddFactor(node).value, k) == Get(node, k)
  {
    AssignProps(node, "children", JArr(c + [NewFactor]));
  }

  /** Adding a group appends exactly one empty `AND` group and changes nothing else. */
  lemma AddGroupAppends(node: Json, c: seq<Json>)
    requires node.JObj? && ChildList(node) == Some(c)
    ensures AddGroup(node).Some?
    ensures Get(AddGroup(node).value, "children") == JArr(c + [NewGroup])
    ensures forall k :: k != "children" ==> Get(AddGroup(node).value, k) == Get(node, k)
  {
    AssignProps(node, "children", JArr(c + [NewGroup]));
  }

  /** `n` elements an array assignment past the end leaves as holes, read as `undefined`. */
  function Holes(n: nat): (r: seq<Json>)
    ensures |r| == n && forall i :: 0 <= i < n ==> r[i] == JUndefined
  {
    seq(n, i => JUndefined)
  }

  /** `items[index] = value`: in range it replaces one element, past the end it grows the
      array, and a negative index names a non-element property, which leaves the elements
      alone. */
  function SetElement(items: seq<Json>, index: int, value: Json): seq<Json> {
    if index < 0 then items
    else if index < |items| then items[index := value]
    else items + Holes(index - |items|) + [value]
  }

  /** `updateChild(index, childNode)`. */
  function UpdateChild(node: Json, index: int, child: Json): Option<Json> {
    match ChildList(node)
    case None => None
    case Some(c) => Some(WithChildren(node, SetElement(c, index, child)))
  }

  /** On a child in range, exactly that child is replaced. */
  lemma UpdateChildReplacesOne(node: Json, c: seq<Json>, index: int, child: Json)
    requires node.JObj? && ChildList(node) == Some(c) && 0 <= index < |c|
    ensures UpdateChild(node, index, child).Some?
    ensures var r := Get(UpdateChild(node, index, child).value, "children");
      r.JArr? && |r.items| == |c| && r.items[index] == child
      && forall j :: 0 <= j < |c| && j != index ==> r.items[j] == c[j]
    ensures forall k :: k != "children" ==> Get(UpdateChild(node, index, child).value, k) == Get(node, k)
  {
    AssignProps(node, "children", JArr(SetElement(c, index, child)));
  }

  /** Past the end, the children grow to `index + 1`, with holes before the new child. */
  lemma SetElementPastEnd(items: seq<Json>, index: int, value: Json)
    requires index >= |items|
    ensures var r := SetElement(items, index, value);
      |r| == index + 1 && r[..|items|] == items && r[index] == value
      && forall j :: |items| <= j < index ==> r[j] == JUndefined
  {
    var r := SetElement(items, index, value);
    assert r == items + Holes(index - |items|) + [value];
    assert r[..|items|] == items;
  }

  /** Where `splice(index, 1)` starts: a negative index counts from the end, and the start
      is clamped to the array. */
  function SpliceStart(len: nat, index: int): (r: nat)
    ensures r <= len
  {
    if index < 0 then (if len + index < 0 then 0 else len + index)
    else if index > len then len
    else index
  }

  /** `items.splice(index, 1)`: the element at the start goes, if there is one. */
  function SpliceOne(items: seq<Json>, index: int): seq<Json> {
    var start := SpliceStart(|items|, index);
    if start < |items| then items[..start] + items[start + 1..] else items
  }

  /** Removing an element in range keeps the others in their order; an index past the end
      removes nothing, and `-k` removes the `k`-th element from the end. */
  lemma SpliceOneRemoves(items: seq<Json>, index: int)
    ensures 0 <= index < |items| ==>
      |SpliceOne(items, index)| == |items| - 1
      && (forall j :: 0 <= j < index ==> SpliceOne(items, index)[j] == items[j])
      && (forall j :: index <= j < |items| - 1 ==> SpliceOne(items, index)[j] == items[j + 1])
    ensures index >= |items| ==> SpliceOne(items, index) == items
    ensures -|items| <= index < 0 ==> SpliceOne(items, index) == SpliceOne(items, |items| + index)
  {
  }

  /** `deleteChild(index)`. */
  function DeleteChild(node: Json, index: int): Option<Json> {
    match ChildList(node)
    case None => None
    case Some(c) => Some(WithChildren(node, SpliceOne(c, index)))
  }

  /** Deleting a child in range removes exactly that child, keeps the order of the others
      and changes nothing else. */
  lemma DeleteChildRemovesOne(node: Json, c: seq<Json>, index: int)
    requires node.JObj? && ChildList(node) == Some(c) && 0 <= index < |c|
    ensures DeleteChild(node, index).Some?
    ensures Get(DeleteChild(node, index).value, "children") == JArr(c[..index] + c[index + 1..])
    ensures forall k :: k != "children" ==> Get(DeleteChild(node, index).value, k) == Get(node, k)
  {
    AssignProps(node, "children", JArr(SpliceOne(c, index)));
  }

  /** The operator `toggleOperator` switches to: `AND` becomes `OR`, `OR` becomes `AND`, and
      anything else becomes `AND`. */
  function NextOperator(current: Json): Json {
    if current == JStr("AND") then JStr("OR")
    else if current == JStr("OR") then JStr("AND")
    else JStr("AND")
  }

  /** `toggleOperator`: on a group it always leaves AND or OR, gives OR exactly when the
      node was AND, and touches nothing but `nodeType`. */
  function ToggleOperator(node: Json): (r: Json)
    ensures node.JObj? ==> Get(r, "nodeType") == JStr("AND") || Get(r, "nodeType") == JStr("OR")
    ensures node.JObj? ==> (Get(node, "nodeType") == JStr("AND") <==> Get(r, "nodeType") == JStr("OR"))
    ensures node.JObj? ==> forall k :: k != "nodeType" ==> Get(r, k) == Get(node, k)
  {
    var next := NextOperator(Get(node, "nodeType"));
    if node.JObj? then
      AssignProps(node, "nodeType", next);
      Assign(node, "nodeType", next)
    else Assign(node, "nodeType", next)
  }

  /** Toggling an `AND` or `OR` group twice gives back the very same node. */
  lemma ToggleTwice(node: Json)
    requires node.JObj? && (Get(node, "nodeType") == JStr("AND") || Get(node, "nodeType") == JStr("OR"))
    ensures ToggleOperator(ToggleOperator(node)) == node
  {
    var t := Get(node, "nodeType");
    var once := Put(node.props, "nodeType", NextOperator(t));
    assert Lookup(once, "nodeType") == NextOperator(t);
    assert NextOperator(NextOperator(t)) == t;
    PutPut(node.props, "nodeType", NextOperator(t), t);
    assert "nodeType" in Keys(node.props);
    PutSame(node.props, "nodeType");
  }

  /** `options[i]` is the first catalogue entry with id `id`. */
  predicate FirstWithId(options: seq<FactorOption>, id: int, i: int) {
    0 <= i < |options| && options[i].id == id && forall j :: 0 <= j < i ==> options[j].id != id
  }

  /** The factor name a selection records: the catalogue entry's key, or empty text when
      the id is not in the catalogue. */
  function SelectedFactorName(options: seq<FactorOption>, selectedFactorId: int): string {
    match FindOption(options, JNum(selectedFactorId))
    case None => ""
    case Some(f) => if f.factor != "" then f.factor else ""
  }

  /** Choosing factor `selectedFactorId` (the `parseInt` of the option's value) in a leaf's
      select. */
  function SelectFactor(node: Json, selectedFactorId: int, options: seq<FactorOption>): Json {
    var withId := Put(Entries(node), "id", JNum(selectedFactorId));
    var withFactor := Put(withId, "factor", JStr(SelectedFactorName(options, selectedFactorId)));
    JObj(Put(withFactor, "config", JStr("")))
  }

  /** A selection records the id and the catalogue's key for it, clears the config and
      keeps every other property. */
  lemma SelectFactorSets(node: Json, selectedFactorId: int, options: seq<FactorOption>)
    requires node.JObj?
    ensures Get(SelectFactor(node, selectedFactorId, options), "id") == JNum(selectedFactorId)
    ensures Get(SelectFactor(node, selectedFactorId, options), "config") == JStr("")
    ensures forall i :: FirstWithId(options, selectedFactorId, i) ==>
      Get(SelectFactor(node, selectedFactorId, options), "factor") == JStr(options[i].factor)
    ensures (forall i :: 0 <= i < |options| ==> options[i].id != selectedFactorId)
      ==> Get(SelectFactor(node, selectedFactorId, options), "factor") == JStr("")
    ensures forall k :: k != "id" && k != "factor" && k != "config" ==>
      Get(SelectFactor(node, selectedFactorId, options), k) == Get(node, k)
  {
    forall i | FirstWithId(options, selectedFactorId, i)
      ensures SelectedFactorName(options, selectedFactorId) == options[i].factor
    {
      FindOptionFirst(options, JNum(selectedFactorId), i);
    }
  }

  // ---------------------------------------------------------------------------------
  // parseConfigToJson

  /** The value of `children` after spreading a node: `undefined` or a part of the node. */
  function ChildrenValue(node: Json): (r: Json)
    ensures r == JUndefined || r < node
    ensures node.JObj? ==> r == Get(node, "children")
  {
    var props := Entries(node);
    if "children" in Keys(props) then
      var i := FoundAt(props, "children");
      props[i].1
    else Lookup(props, "children")
  }

  /** The spread copy with a string config replaced by what it parses to; text that does
      not parse is kept. */
  function ParsedConfigProps(node: Json, parse: string -> Result<Json>): seq<(string, Json)> {
    var props := Entries(node);
    var config := Lookup(props, "config");
    if Truthy(config) && config.JStr? then
      match parse(config.s)
      case Ok(v) => Put(props, "config", v)
      case Err(_) => props
    else props
  }

  /** `parseConfigToJson`: every string config of the tree parsed. Calling `map` on a truthy
      `children` that is not an array throws, which is `None`. */
  function ParseConfigToJson(node: Json, parse: string -> Result<Json>): Option<Json>
    decreases node, 1
  {
    var props := ParsedConfigProps(node, parse);
    var children := ChildrenValue(node);
    if !Truthy(children) then Some(JObj(props))
    else if !children.JArr? then None
    else
      match ParseChildren(children.items, parse, node)
      case None => None
      case Some(parsed) => Some(JObj(Put(props, "children", JArr(parsed))))
  }

  /** `children.map(parseConfigToJson)`. */
  function ParseChildren(items: seq<Json>, parse: string -> Result<Json>, ghost parent: Json): Option<seq<Json>>
    requires forall i :: 0 <= i < |items| ==> items[i] < parent
    decreases parent, 0, |items|
  {
    if items == [] then Some([])
    else
      match ParseChildren(items[..|items| - 1], parse, parent)
      case None => None
      case Some(init) =>
        match ParseConfigToJson(items[|items| - 1], parse)
        case None => None
        case Some(last) => Some(init + [last])
  }

  /** A tree whose `children`, wherever truthy, are arrays. */
  predicate Mappable(node: Json)
    decreases node, 1
  {
    var children := ChildrenValue(node);
    !Truthy(children) || (children.JArr? && AllMappable(children.items, node))
  }

  predicate AllMappable(items: seq<Json>, ghost parent: Json)
    requires forall i :: 0 <= i < |items| ==> items[i] < parent
    decreases parent, 0, |items|
  {
    forall i :: 0 <= i < |items| ==> Mappable(items[i])
  }

  /** The parse of a tree fails exactly when some `children` in it is truthy but not an
      array. */
  lemma {:induction false} ParseConfigSucceeds(node: Json, parse: string -> Result<Json>)
    ensures ParseConfigToJson(node, parse).Some? <==> Mappable(node)
    decreases node, 1
  {
    var children := ChildrenValue(node);
    if Truthy(children) && children.JArr? {
      ParseChildrenSucceeds(children.items, parse, node);
    }
  }

  lemma {:induction false} ParseChildrenSucceeds(items: seq<Json>, parse: string -> Result<Json>, parent: Json)
    requires forall i :: 0 <= i < |items| ==> items[i] < parent
    ensures ParseChildren(items, parse, parent).Some? <==> AllMappable(items, parent)
    ensures ParseChildren(items, parse, parent).Some? ==> |ParseChildren(items, parse, parent).value| == |items|
    decreases parent, 0, |items|
  {
    if items != [] {
      var init := items[..|items| - 1];
      ParseChildrenSucceeds(init, parse, parent);
      ParseConfigSucceeds(items[|items| - 1], parse);
      AllMappableLast(items, parent);
    }
  }

  lemma AllMappableLast(items: seq<Json>, parent: Json)
    requires forall i :: 0 <= i < |items| ==> items[i] < parent
    requires items != []
    ensures AllMappable(items, parent) <==> AllMappable(items[..|items| - 1], parent) && Mappable(items[|items| - 1])
  {
    var init := items[..|items| - 1];
    if AllMappable(init, parent) && Mappable(items[|items| - 1]) {
      forall i | 0 <= i < |items| ensures Mappable(items[i]) {
        if i < |items| - 1 {
          assert init[i] == items[i];
        }
      }
    }
    if AllMappable(items, parent) {
      forall i | 0 <= i < |init| ensures Mappable(init[i]) {
        assert init[i] == items[i];
      }
    }
  }

  /** Each parsed child is the parse of the child at the same place. */
  lemma {:induction false} ParseChildrenElementwise(items: seq<Json>, parse: string -> Result<Json>, parent: Json, i: nat)
    requires forall k :: 0 <= k < |items| ==> items[k] < parent
    requires ParseChildren(items, parse, parent).Some? && i < |items|
    ensures i < |ParseChildren(items, parse, parent).value|
    ensures ParseConfigToJson(items[i], parse) == Some(ParseChildren(items, parse, parent).value[i])
    decreases |items|
  {
    var init := items[..|items| - 1];
    var head := ParseChildren(init, parse, parent);
    ParseChildrenSucceeds(init, parse, parent);
    if i < |items| - 1 {
      ParseChildrenElementwise(init, parse, parent, i);
      assert init[i] == items[i];
    }
  }

  /** On an object, a config text that parses is replaced by its value and any other
      config is kept. */
  lemma ParseConfigValue(node: Json, parse: string -> Result<Json>)
    requires node.JObj? && ParseConfigToJson(node, parse).Some?
    ensures var config := Get(node, "config");
      Get(ParseConfigToJson(node, parse).value, "config")
        == if Truthy(config) && config.JStr? && parse(config.s).Ok? then parse(config.s).value else config
  {
    assert Lookup(ParsedConfigProps(node, parse), "config")
      == var config := Get(node, "config"); if Truthy(config) && config.JStr? && parse(config.s).Ok? then parse(config.s).value else config;
  }

  /** Parsing leaves every property but `config` and `children` as it was. */
  lemma ParseConfigKeepsOthers(node: Json, parse: string -> Result<Json>, k: string)
    requires node.JObj? && ParseConfigToJson(node, parse).Some?
    requires k != "config" && k != "children"
    ensures Get(ParseConfigToJson(node, parse).value, k) == Get(node, k)
  {
    assert Lookup(ParsedConfigProps(node, parse), k) == Get(node, k);
  }

  /** On an object with array children, the children are parsed one by one, in place. */
  lemma ParseConfigChildren(node: Json, parse: string -> Result<Json>, i: nat)
    requires node.JObj? && ParseConfigToJson(node, parse).Some?
    requires Get(node, "children").JArr? && i < |Get(node, "children").items|
    ensures var r := Get(ParseConfigToJson(node, parse).value, "children");
      r.JArr? && |r.items| == |Get(node, "children").items|
      && ParseConfigToJson(Get(node, "children").items[i], parse) == Some(r.items[i])
  {
    var items := Get(node, "children").items;
    ParseChildrenElementwise(items, parse, node, i);
    ParseChildrenSucceeds(items, parse, node);
  }

  // ---------------------------------------------------------------------------------
  // What the validator says about fresh nodes

  /** A rule just created is a group the validator rejects until it has a child. */
  lemma InitialGroupNeedsChildren(options: seq<FactorOption>, parse: string -> Result<Json>)
    ensures NodeErrors(NewGroup, options, "root", parse) == [GroupChildrenError(NewGroup, "root")]
  {
    assert Get(NewGroup, "nodeType") == JStr("AND");
    assert ChildNodes(NewGroup) == [];
    assert NodeErrors(NewGroup, options, "root", parse) == GroupErrors(NewGroup, options, "root", parse);
  }

  /** A leaf just added lacks its id, its factor and its config. */
  lemma NewFactorIncomplete(options: seq<FactorOption>, path: string, parse: string -> Result<Json>)
    ensures NodeErrors(NewFactor, options, path, parse)
      == [NodeError(NewFactor, path, FactorIdRequired, None), NodeError(NewFactor, path, FactorNameRequired, None),
          NodeError(NewFactor, path, FactorConfigRequired, None)]
  {
    assert Get(NewFactor, "nodeType") == JUndefined;
    assert Get(NewFactor, "id") == JNum(0);
    assert Get(NewFactor, "factor") == JStr("");
    assert Get(NewFactor, "config") == JStr("");
    assert LeafCatalogue(NewFactor, options, path, parse) == [];
    assert NodeErrors(NewFactor, options, path, parse) == LeafErrors(NewFactor, options, path, parse);
  }
}
