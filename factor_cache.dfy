/** The per-request factor result cache (`FactorCache`), keyed by switch and factor name. The
    stored condition is the factor's raw config; `reflect.DeepEqual` on it is text equality. */
module FactorCache {
  import opened FactorFilter

  datatype Key = Key(switchName: string, factorName: string)

  datatype Item = Item(condition: string, result: bool)

  /** What `Get` answers for a cache map: a hit needs the key and an equal condition. */
  function Lookup(m: map<Key, Item>, switchName: string, rule: RuleNode): (r: (bool, bool))
    ensures r.1 <==> Key(switchName, rule.factor) in m && m[Key(switchName, rule.factor)].condition == rule.config
    ensures !r.1 ==> !r.0
    ensures r.1 ==> r.0 == m[Key(switchName, rule.factor)].result
  {
    var key := Key(switchName, rule.factor);
    if key !in m || m[key].condition != rule.config then (false, false)
    else (m[key].result, true)
  }

  /** A `Set` followed by a `Get` of the same switch and factor with the same config is a hit
      with the stored result; with another config it is a miss. */
  lemma SetThenGet(m: map<Key, Item>, switchName: string, rule: RuleNode, condition: string, result: bool)
    ensures Lookup(m[Key(switchName, rule.factor) := Item(condition, result)], switchName, rule)
         == if condition == rule.config then (result, true) else (false, false)
  {
  }

  /** Setting one key leaves the answers for every other key unchanged. */
  lemma SetOtherKey(m: map<Key, Item>, key: Key, item: Item, switchName: string, rule: RuleNode)
    requires key != Key(switchName, rule.factor)
    ensures Lookup(m[key := item], switchName, rule) == Lookup(m, switchName, rule)
  {
  }

  class Cache {
    var factorsCache: map<Key, Item>

    /** `NewFactorCache`. */
    constructor ()
      ensures factorsCache == map[]
    {
      factorsCache := map[];
    }

    /** `Set`: overwrites the entry of that (switch, factor) pair. */
    method Set(switchName: string, factorName: string, condition: string, result: bool)
      modifies this
      ensures factorsCache == old(factorsCache)[Key(switchName, factorName) := Item(condition, result)]
    {
      factorsCache := factorsCache[Key(switchName, factorName) := Item(condition, result)];
    }

    /** `Get`: (cached result, hit). An absent key or a different condition is a miss. */
    method Get(switchName: string, factorRule: RuleNode) returns (result: bool, hit: bool)
      ensures (result, hit) == Lookup(factorsCache, switchName, factorRule)
    {
      var key := Key(switchName, factorRule.factor);
      if key !in factorsCache || factorsCache[key].condition != factorRule.config {
        return false, false;
      }
      return factorsCache[key].result, true;
    }
  }
}
