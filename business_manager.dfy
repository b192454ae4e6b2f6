/** The registry of business id generators (`snowflake.BusinessManager`): one generator per
    business type, created from its configuration, and id generation routed by type. The
    lock and the process-wide manager are not modelled. */
module BusinessManager {
  import opened Wrappers
  import MapUtil
  import opened BusinessGenerator

  function NotRegistered(t: string): string {
    "business type '" + t + "' not registered"
  }

  /** The generator a type routes to, or nothing. */
  function Route(generators: map<string, BusinessGenerator>, t: string): set<BusinessGenerator> {
    if t in generators then {generators[t]} else {}
  }

  class BusinessManager {
    var generators: map<string, BusinessGenerator>

    /** Every generator is filed under its own business type. */
    ghost predicate Valid()
      reads this
    {
      forall t :: t in generators ==> generators[t].businessType == t
    }

    /** `NewBusinessManager`: no generators. */
    constructor ()
      ensures Valid() && generators == map[]
    {
      generators := map[];
    }

    /** `RegisterBusiness`: a type may be registered once; a generator whose node number is
        out of range is not registered. */
    method RegisterBusiness(config: BusinessConfig, stream: nat -> int) returns (r: Outcome)
      requires Valid()
      modifies this
      ensures Valid()
      ensures config.businessType in old(generators) ==>
        r == Fail("business type '" + config.businessType + "' already registered") && generators == old(generators)
      ensures config.businessType !in old(generators) && NodeCheck(config.machineId).Fail? ==>
        && r == Fail("failed to create business generator: " + SnowflakeError(NodeCheck(config.machineId).msg))
        && generators == old(generators)
      ensures config.businessType !in old(generators) && NodeCheck(config.machineId).Pass? ==>
        && r == Pass
        && config.businessType in generators
        && generators == old(generators)[config.businessType := generators[config.businessType]]
        && var g := generators[config.businessType];
           fresh(g) && g.prefix == config.prefix && g.stream == stream && g.drawn == 0
    {
      if config.businessType in generators {
        return Fail("business type '" + config.businessType + "' already registered");
      }
      var created := NewBusinessGenerator(config, stream);
      if created.Err? {
        return Fail("failed to create business generator: " + created.msg);
      }
      var g := created.value;
      generators := generators[config.businessType := g];
      return Pass;
    }

    /** `GetGenerator`. */
    function GetGenerator(t: string): (r: Result<BusinessGenerator>)
      reads this
      ensures r.Ok? <==> t in generators
      ensures r.Ok? ==> r.value == generators[t]
      ensures r.Err? ==> r.msg == NotRegistered(t)
    {
      if t in generators then Ok(generators[t]) else Err(NotRegistered(t))
    }

    /** `GenerateID`: the next id of the type's generator. */
    method GenerateID(t: string) returns (r: Result<int>)
      modifies Route(generators, t)
      ensures t !in generators ==> r == Err(NotRegistered(t))
      ensures t in generators ==>
        var g := generators[t];
        r == Ok(g.stream(old(g.drawn))) && g.drawn == old(g.drawn) + 1
    {
      if t !in generators {
        return Err(NotRegistered(t));
      }
      var id := generators[t].GenerateID();
      return Ok(id);
    }

    /** `GeneratePrefixID`: the next prefixed id of the type's generator. */
    method GeneratePrefixID(t: string) returns (r: Result<string>)
      modifies Route(generators, t)
      ensures t !in generators ==> r == Err(NotRegistered(t))
      ensures t in generators ==>
        var g := generators[t];
        r == Ok(PrefixText(g.prefix, g.stream(old(g.drawn)))) && g.drawn == old(g.drawn) + 1
    {
      if t !in generators {
        return Err(NotRegistered(t));
      }
      var s := generators[t].GeneratePrefixID();
      return Ok(s);
    }

    /** `GenerateBatch`: an unknown type is an error; otherwise the generator's batch rule. */
    method GenerateBatch(t: string, count: int) returns (r: Result<array<int>>)
      modifies Route(generators, t)
      ensures t !in generators ==> r == Err(NotRegistered(t))
      ensures t in generators && count <= 0 ==> r == Err("count must be positive")
      ensures t in generators && count > 0 ==>
        var g := generators[t];
        && r.Ok? && fresh(r.value) && r.value[..] == Draws(g.stream, old(g.drawn), count)
        && g.drawn == old(g.drawn) + count
    {
      if t !in generators {
        return Err(NotRegistered(t));
      }
      r := generators[t].GenerateBatch(count);
    }

    /** `ListBusinessTypes`: every registered type exactly once. */
    method ListBusinessTypes() returns (types: seq<string>)
      ensures forall t :: t in types <==> t in generators
      ensures MapUtil.Distinct(types)
    {
      types := MapUtil.Keys(generators);
    }

    /** `RemoveBusiness`: removing an unknown type is an error; afterwards the type is not
        registered. */
    method RemoveBusiness(t: string) returns (r: Outcome)
      requires Valid()
      modifies this
      ensures Valid()
      ensures generators == old(generators) - {t}
      ensures r.Pass? <==> t in old(generators)
      ensures r.Fail? ==> r.msg == "business type '" + t + "' not found"
      ensures GetGenerator(t) == Err(NotRegistered(t))
    {
      if t !in generators {
        return Fail("business type '" + t + "' not found");
      }
      generators := generators - {t};
      return Pass;
    }
  }
}
