/** AND/OR aggregation over a switch's rule tree (`DefaultSwitchFactor`). The factor dispatcher
    together with its middleware chain is the parameter `dispatch`, from (factor name, raw
    config) to the factor's result. Each evaluation also reports the leaves it dispatched, in
    order, so that early exit can be stated. */
module FactorFilter {
  import opened StrUtil

  /** `model.RuleNode`; the raw JSON config is kept as text. */
  datatype RuleNode = RuleNode(id: nat, nodeType: string, children: seq<RuleNode>,
                               factor: string, config: string)

  type Dispatcher = (string, string) -> bool

  /** The boolean result and the leaves whose factor was dispatched, in call order. */
  datatype Eval = Eval(value: bool, dispatched: seq<RuleNode>)

  /** `isLogicalNodes`. */
  predicate IsLogical(n: RuleNode) {
    n.nodeType != ""
  }

  /** `and` / `or`: case-insensitive comparison of the node type. */
  predicate IsAnd(n: RuleNode) {
    EqualFold(n.nodeType, "AND")
  }

  predicate IsOr(n: RuleNode) {
    EqualFold(n.nodeType, "OR")
  }

  /** The node types that aggregate: exactly the non-empty ones spelled AND or OR in any case. */
  lemma AggregatingTypes(n: RuleNode)
    ensures IsAnd(n) ==> IsLogical(n) && !IsOr(n)
    ensures IsOr(n) ==> IsLogical(n)
    ensures n.nodeType in {"AND", "and", "And", "aNd"} ==> IsAnd(n)
    ensures n.nodeType in {"OR", "or", "Or", "oR"} ==> IsOr(n)
  {
    assert IsAnd(n) ==> |Lower(n.nodeType)| == 3;
    assert IsOr(n) ==> |Lower(n.nodeType)| == 2;
  }

  /** `calculate`: a leaf with no factor name is false and dispatches nothing. */
  function Calculate(n: RuleNode, dispatch: Dispatcher): (r: Eval)
    ensures n.factor == "" ==> r == Eval(false, [])
    ensures n.factor != "" ==> r == Eval(dispatch(n.factor, n.config), [n])
  {
    if n.factor == "" then Eval(false, [])
    else Eval(dispatch(n.factor, n.config), [n])
  }

  /** `aggregation`; only leaves with a factor name ever reach the dispatcher. */
  function Aggregate(n: RuleNode, dispatch: Dispatcher): (r: Eval)
    ensures forall m :: m in r.dispatched ==> m.factor != ""
    decreases n, |n.children| + 1
  {
    if IsLogical(n) && IsAnd(n) then
      if |n.children| == 0 then Eval(true, []) else AndFrom(n, 0, dispatch)
    else if IsLogical(n) && IsOr(n) then
      if |n.children| == 0 then Eval(true, []) else OrFrom(n, 0, dispatch)
    else Calculate(n, dispatch)
  }

  /** The AND loop from child `i` on: stops at the first false child. */
  function AndFrom(n: RuleNode, i: nat, dispatch: Dispatcher): (r: Eval)
    ensures forall m :: m in r.dispatched ==> m.factor != ""
    decreases n, |n.children| - i
  {
    if i >= |n.children| then Eval(true, [])
    else
      var c := Aggregate(n.children[i], dispatch);
      if !c.value then Eval(false, c.dispatched)
      else
        var rest := AndFrom(n, i + 1, dispatch);
        Eval(rest.value, c.dispatched + rest.dispatched)
  }

  /** The OR loop from child `i` on: stops at the first true child. */
  function OrFrom(n: RuleNode, i: nat, dispatch: Dispatcher): (r: Eval)
    ensures forall m :: m in r.dispatched ==> m.factor != ""
    decreases n, |n.children| - i
  {
    if i >= |n.children| then Eval(false, [])
    else
      var c := Aggregate(n.children[i], dispatch);
      if c.value then Eval(true, c.dispatched)
      else
        var rest := OrFrom(n, i + 1, dispatch);
        Eval(rest.value, c.dispatched + rest.dispatched)
  }

  /** `Filter`: the switch is on when its rule tree aggregates to true, that is, when every
      subtree of an AND root is on, when an OR root has no children or some subtree on, and
      when any other root is a leaf whose factor is named and answered true. */
  function Filter(rules: RuleNode, dispatch: Dispatcher): (r: bool)
    ensures IsAnd(rules) ==> (r <==> forall j :: 0 <= j < |rules.children| ==> Filter(rules.children[j], dispatch))
    ensures IsOr(rules) && !IsAnd(rules) ==>
      (r <==> |rules.children| == 0 || exists j :: 0 <= j < |rules.children| && Filter(rules.children[j], dispatch))
    ensures !IsAnd(rules) && !IsOr(rules) ==> (r <==> rules.factor != "" && dispatch(rules.factor, rules.config))
    decreases rules
  {
    AggregateMeaning(rules, dispatch);
    Aggregate(rules, dispatch).value
  }

  /** The AND loop is true exactly when every remaining child is true. */
  lemma {:induction false} AndFromAll(n: RuleNode, i: nat, dispatch: Dispatcher)
    requires i <= |n.children|
    ensures AndFrom(n, i, dispatch).value <==>
      forall j :: i <= j < |n.children| ==> Aggregate(n.children[j], dispatch).value
    decreases |n.children| - i
  {
    if i < |n.children| {
      AndFromAll(n, i + 1, dispatch);
    }
  }

  /** The OR loop is true exactly when some remaining child is true. */
  lemma {:induction false} OrFromAny(n: RuleNode, i: nat, dispatch: Dispatcher)
    requires i <= |n.children|
    ensures OrFrom(n, i, dispatch).value <==>
      exists j :: i <= j < |n.children| && Aggregate(n.children[j], dispatch).value
    decreases |n.children| - i
  {
    if i < |n.children| {
      OrFromAny(n, i + 1, dispatch);
    }
  }

  /** An AND node is true iff it has no children or every child is true;
      an OR node is true iff it has no children or some child is true;
      any other node, logical or not, is evaluated as a leaf. */
  lemma AggregateMeaning(n: RuleNode, dispatch: Dispatcher)
    ensures IsAnd(n) ==> (Aggregate(n, dispatch).value <==>
      forall j :: 0 <= j < |n.children| ==> Aggregate(n.children[j], dispatch).value)
    ensures IsOr(n) && !IsAnd(n) ==> (Aggregate(n, dispatch).value <==>
      (|n.children| == 0 || exists j :: 0 <= j < |n.children| && Aggregate(n.children[j], dispatch).value))
    ensures !IsAnd(n) && !IsOr(n) ==> Aggregate(n, dispatch) == Calculate(n, dispatch)
  {
    AggregatingTypes(n);
    AndFromAll(n, 0, dispatch);
    OrFromAny(n, 0, dispatch);
  }

  /** The leaves dispatched by children `i..k`, concatenated. */
  function DispatchedRange(n: RuleNode, i: nat, k: nat, dispatch: Dispatcher): seq<RuleNode>
    requires i <= k <= |n.children|
    decreases k - i
  {
    if i == k then [] else Aggregate(n.children[i], dispatch).dispatched + DispatchedRange(n, i + 1, k, dispatch)
  }

  /** Early exit of AND: when child `k` is the first false child, the loop is false and the
      children after `k` are never evaluated. */
  lemma {:induction false} AndStopsAtFirstFalse(n: RuleNode, i: nat, k: nat, dispatch: Dispatcher)
    requires i <= k < |n.children|
    requires forall j :: i <= j < k ==> Aggregate(n.children[j], dispatch).value
    requires !Aggregate(n.children[k], dispatch).value
    ensures AndFrom(n, i, dispatch) == Eval(false, DispatchedRange(n, i, k + 1, dispatch))
    decreases k - i
  {
    if i < k {
      AndStopsAtFirstFalse(n, i + 1, k, dispatch);
    } else {
      assert DispatchedRange(n, k + 1, k + 1, dispatch) == [];
    }
  }

  /** Early exit of OR: when child `k` is the first true child, the loop is true and the
      children after `k` are never evaluated. */
  lemma {:induction false} OrStopsAtFirstTrue(n: RuleNode, i: nat, k: nat, dispatch: Dispatcher)
    requires i <= k < |n.children|
    requires forall j :: i <= j < k ==> !Aggregate(n.children[j], dispatch).value
    requires Aggregate(n.children[k], dispatch).value
    ensures OrFrom(n, i, dispatch) == Eval(true, DispatchedRange(n, i, k + 1, dispatch))
    decreases k - i
  {
    if i < k {
      OrStopsAtFirstTrue(n, i + 1, k, dispatch);
    } else {
      assert DispatchedRange(n, k + 1, k + 1, dispatch) == [];
    }
  }
}
