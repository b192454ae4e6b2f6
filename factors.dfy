/** Factor configuration shapes and the generic value matcher of the SDK core (`factor` package). */
module Factors {
  import opened Val

  /** A context key and the configured value to compare its context value with. */
  datatype ContextKv = ContextKv(contextKey: string, contextVal: Any)

  /** `IpConfig` and `UserNickConfig`: a key/value pair and a blacklist flag. */
  datatype ListConfig = ListConfig(kv: ContextKv, isBlack: bool)

  datatype SingleConfig = SingleConfig(enabled: bool)

  /** Bounds in Unix seconds, kept as the decimal strings the config carries. */
  datatype TimeRangeConfig = TimeRangeConfig(startTime: string, endTime: string)

  /** `ContainsString`: the value occurs in the slice. */
  function ContainsString(checkValue: string, slice: seq<string>): (r: bool)
    ensures r <==> checkValue in slice
  {
    if slice == [] then false
    else if slice[0] == checkValue then true
    else ContainsString(checkValue, slice[1..])
  }

  /** Some item of a `[]interface{}` config has the given string form. */
  function SomeItemIs(items: seq<Any>, s: string): (r: bool)
    ensures r <==> exists i :: 0 <= i < |items| && ToString(items[i]) == s
  {
    if items == [] then false
    else if ToString(items[0]) == s then true
    else (assert forall i :: 1 <= i < |items| ==> items[i] == items[1..][i - 1];
          SomeItemIs(items[1..], s))
  }

  /** `MatchValue`: compares a context value with a configured value according to the
      configured value's dynamic type. */
  function MatchValue(contextValue: Any, configValue: Any): (r: bool)
    ensures contextValue.Nil? || configValue.Nil? ==> !r
    ensures !contextValue.Nil? && configValue.Str? ==>
      (r <==> ToString(contextValue) == configValue.s)
    ensures !contextValue.Nil? && configValue.List? ==>
      (r <==> exists i :: 0 <= i < |configValue.elems| && ToString(configValue.elems[i]) == ToString(contextValue))
    ensures !contextValue.Nil? && configValue.Strs? ==>
      (r <==> ToString(contextValue) in configValue.items)
    ensures !contextValue.Nil? && configValue.Bool? ==>
      (r <==> ToBool(contextValue) == configValue.v)
    ensures !contextValue.Nil? && !configValue.Nil? && !configValue.List? && !configValue.Strs? && !configValue.Bool? ==>
      (r <==> ToString(contextValue) == ToString(configValue))
  {
    if contextValue.Nil? || configValue.Nil? then false
    else match configValue
      case Str(cv) => ToString(contextValue) == cv
      case List(cv) => SomeItemIs(cv, ToString(contextValue))
      case Strs(cv) => ContainsString(ToString(contextValue), cv)
      case Int(_) => ToString(contextValue) == ToString(configValue)
      case Float(_) => ToString(contextValue) == ToString(configValue)
      case Bool(cv) => ToBool(contextValue) == cv
      case _ => ToString(contextValue) == ToString(configValue)
  }

  /** A numeric context value matches a numeric config value (a decoded JSON number or an
      integer) exactly when the numbers are equal. */
  lemma MatchNumbers(a: int, b: int)
    ensures MatchValue(Int(a), Float(b)) <==> a == b
    ensures MatchValue(Int(a), Int(b)) <==> a == b
    ensures MatchValue(Float(a), Float(b)) <==> a == b
  {
    ToStringIntInjective(a, b);
  }

  /** A string context value matches a list config exactly when the list holds that string. */
  lemma MatchStringInList(s: string, items: seq<string>)
    ensures MatchValue(Str(s), List(seq(|items|, i requires 0 <= i < |items| => Str(items[i])))) <==> s in items
  {
    var l := seq(|items|, i requires 0 <= i < |items| => Str(items[i]));
    if s in items {
      var k :| 0 <= k < |items| && items[k] == s;
      assert ToString(l[k]) == s;
    }
  }
}
