/** The SDK's process-wide rule container (`ruleContainer`): switch name to the switch model
    received last with the highest version. The global map becomes the field of a registry
    object; the mutex is not modelled. */
module SwitchRule {
  import opened Wrappers
  import opened Model

  /** One `RegisterRule` step on the map: a new name is inserted, an existing one is replaced
      only by a strictly greater version. */
  function Register(m: map<string, SwitchModel>, name: string, rule: SwitchModel): (r: map<string, SwitchModel>)
    ensures name in r
    ensures name !in m ==> r[name] == rule
    ensures name in m ==> r[name] == (if rule.version > m[name].version then rule else m[name])
    ensures r.Keys == m.Keys + {name}
    ensures forall k :: k in m && k != name ==> r[k] == m[k]
  {
    if name !in m || rule.version > m[name].version then m[name := rule] else m
  }

  /** Registering never lowers the version stored under any name. */
  lemma RegisterMonotone(m: map<string, SwitchModel>, name: string, rule: SwitchModel)
    ensures forall k :: k in m ==> k in Register(m, name, rule) && Register(m, name, rule)[k].version >= m[k].version
  {
  }

  /** Registers `rules` one after the other under the same name. */
  function RegisterAll(m: map<string, SwitchModel>, name: string, rules: seq<SwitchModel>): map<string, SwitchModel>
    decreases |rules|
  {
    if rules == [] then m else RegisterAll(Register(m, name, rules[0]), name, rules[1..])
  }

  function MaxVersion(start: int, rules: seq<SwitchModel>): (r: int)
    ensures r >= start && forall i :: 0 <= i < |rules| ==> r >= rules[i].version
    ensures r == start || exists i :: 0 <= i < |rules| && r == rules[i].version
    decreases |rules|
  {
    if rules == [] then start
    else
      var rest := MaxVersion(if rules[0].version > start then rules[0].version else start, rules[1..]);
      assert forall i :: 1 <= i < |rules| ==> rules[i] == rules[1..][i - 1];
      rest
  }

  /** After a run of registrations the stored version is the greatest one seen, whatever the
      order in which the rules arrived; other names are untouched. */
  lemma {:induction false} RegisterAllKeepsMax(m: map<string, SwitchModel>, name: string, rules: seq<SwitchModel>)
    requires name in m || rules != []
    ensures name in RegisterAll(m, name, rules)
    ensures RegisterAll(m, name, rules)[name].version ==
      (if name in m then MaxVersion(m[name].version, rules) else MaxVersion(rules[0].version, rules[1..]))
    ensures forall k :: k in m && k != name ==> k in RegisterAll(m, name, rules) && RegisterAll(m, name, rules)[k] == m[k]
    decreases |rules|
  {
    if rules != [] {
      var m' := Register(m, name, rules[0]);
      if rules[1..] != [] || name in m' {
        RegisterAllKeepsMax(m', name, rules[1..]);
      }
    }
  }

  class RuleRegistry {
    var container: map<string, SwitchModel>

    constructor ()
      ensures container == map[]
    {
      container := map[];
    }

    /** `GetRule`: the stored rule, or none. */
    method GetRule(switchName: string) returns (rule: Option<SwitchModel>)
      ensures rule.Some? <==> switchName in container
      ensures rule.Some? ==> rule.value == container[switchName]
    {
      if switchName in container {
        return Some(container[switchName]);
      }
      return None;
    }

    /** `UnregisterRule`: removes only that name. */
    method UnregisterRule(switchName: string)
      modifies this
      ensures container == old(container) - {switchName}
    {
      container := container - {switchName};
    }

    /** `ClearAllRules`. */
    method ClearAllRules()
      modifies this
      ensures container == map[]
    {
      container := map[];
    }

    /** `RegisterRule`. */
    method RegisterRule(switchName: string, rule: SwitchModel)
      modifies this
      ensures container == Register(old(container), switchName, rule)
    {
      if switchName !in container || rule.version > container[switchName].version {
        container := container[switchName := rule];
      }
    }
  }
}
