/** The SDK's named-configuration registry (`config.ConfigManager`): register, look up,
    remove, list, clear and load every registered configuration. A configuration is an
    identity; what its `Load` reports is an input. The lock is not modelled. */
module ConfigManager {
  import opened Wrappers
  import opened StrUtil
  import MapUtil

  /** A configuration instance (`ConfigI`). */
  type ConfigId = nat

  function AlreadyExists(name: string): string {
    "config with name '" + name + "' already exists"
  }

  function NotFound(name: string): string {
    "config with name '" + name + "' not found"
  }

  /** `Get` on a snapshot of the registry. */
  function Lookup(configs: map<string, ConfigId>, name: string): (r: Result<ConfigId>)
    ensures r.Ok? <==> name in configs
    ensures r.Ok? ==> r.value == configs[name]
    ensures r.Err? ==> r.msg == NotFound(name)
  {
    if name in configs then Ok(configs[name]) else Err(NotFound(name))
  }

  /** The message `LoadAll` collects for one configuration whose `Load` failed. */
  function LoadError(name: string, msg: string): string {
    "failed to load config '" + name + "': " + msg
  }

  /** What `Register` does to the registry: a new name is filed, an existing one is kept. */
  function AfterRegister(configs: map<string, ConfigId>, name: string, config: ConfigId): map<string, ConfigId> {
    if name in configs then configs else configs[name := config]
  }

  /** After a registration the name is found, holding the configuration registered first;
      every other name is looked up as before. */
  lemma RegisterThenGet(configs: map<string, ConfigId>, name: string, config: ConfigId, other: string)
    ensures Lookup(AfterRegister(configs, name, config), name) == Ok(if name in configs then configs[name] else config)
    ensures other != name ==> Lookup(AfterRegister(configs, name, config), other) == Lookup(configs, other)
  {
  }

  /** After a removal the name is gone and every other name is looked up as before. */
  lemma RemoveThenGet(configs: map<string, ConfigId>, name: string, other: string)
    ensures Lookup(configs - {name}, name) == Err(NotFound(name))
    ensures other != name ==> Lookup(configs - {name}, other) == Lookup(configs, other)
  {
  }

  /** Registering a new name and removing it again restores the registry. */
  lemma RegisterRemoveRoundTrip(configs: map<string, ConfigId>, name: string, config: ConfigId)
    requires name !in configs
    ensures AfterRegister(configs, name, config) - {name} == configs
  {
  }

  class ConfigManager {
    var configs: map<string, ConfigId>

    /** `NewConfigManager`: an empty registry. */
    constructor ()
      ensures configs == map[]
    {
      configs := map[];
    }

    /** `Register`: a name may be registered once; a second registration is an error and
        keeps the first configuration. */
    method Register(name: string, config: ConfigId) returns (r: Outcome)
      modifies this
      ensures configs == AfterRegister(old(configs), name, config)
      ensures r.Pass? <==> name !in old(configs)
      ensures r.Fail? ==> r.msg == AlreadyExists(name)
    {
      if name in configs {
        return Fail(AlreadyExists(name));
      }
      configs := configs[name := config];
      return Pass;
    }

    /** `Get`. */
    function Get(name: string): Result<ConfigId>
      reads this
    {
      Lookup(configs, name)
    }

    /** `MustGet`: the caller promises the name is registered (the source panics otherwise). */
    method MustGet(name: string) returns (config: ConfigId)
      requires name in configs
      ensures Get(name) == Ok(config)
    {
      var found := Get(name);
      config := found.value;
    }

    /** `LoadAll`: load every configuration, in the map's order; fail when any load failed,
        listing the failures. */
    method LoadAll(load: ConfigId -> Outcome) returns (r: Outcome)
      ensures r.Pass? <==> forall n :: n in configs ==> load(configs[n]).Pass?
      ensures r.Fail? ==> HasPrefix(r.msg, "failed to load all configs: [")
    {
      var names := MapUtil.Keys(configs);
      var errs: seq<string> := [];
      for i := 0 to |names|
        invariant errs == [] <==> forall j :: 0 <= j < i ==> load(configs[names[j]]).Pass?
      {
        var outcome := load(configs[names[i]]);
        if outcome.Fail? {
          errs := errs + [LoadError(names[i], outcome.msg)];
        }
      }
      if |errs| > 0 {
        var msg := "failed to load all configs: [" + Join(errs, ' ') + "]";
        assert msg[..|"failed to load all configs: ["|] == "failed to load all configs: [";
        return Fail(msg);
      }
      return Pass;
    }

    /** `Remove`: removing an unknown name is an error and changes nothing. */
    method Remove(name: string) returns (r: Outcome)
      modifies this
      ensures configs == old(configs) - {name}
      ensures r.Pass? <==> name in old(configs)
      ensures r.Fail? ==> r.msg == NotFound(name)
    {
      if name !in configs {
        return Fail(NotFound(name));
      }
      configs := configs - {name};
      return Pass;
    }

    /** `List`: every registered name exactly once. */
    method List() returns (names: seq<string>)
      ensures forall n :: n in names <==> n in configs
      ensures MapUtil.Distinct(names) && |names| == |configs|
    {
      names := MapUtil.Keys(configs);
      MapUtil.DistinctListingSize(names, configs);
    }

    /** `Clear`. */
    method Clear()
      modifies this
      ensures configs == map[]
    {
      configs := map[];
    }

    /** `Exists`: the name is registered. */
    function Exists(name: string): (r: bool)
      reads this
      ensures r <==> Get(name).Ok?
    {
      name in configs
    }
  }
}
