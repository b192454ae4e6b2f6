/** The SDK's built-in factor actuators. A switch context is a map from context key to value;
    the current time is a parameter (Unix seconds). A nil config pointer is `None`. */
module SwitchFactor {
  import opened Wrappers
  import opened Val
  import opened Factors

  type Context = map<string, Any>

  /** `ctx.Value(key)`: the stored value, nil when the key is absent. */
  function CtxValue(ctx: Context, key: string): Any {
    if key in ctx then ctx[key] else Nil
  }

  /** `executeMatchFactor`. */
  function ExecuteMatchFactor(ctx: Context, key: string, configValue: Any): (r: Result<bool>)
    ensures key == "" ==> r == Err("invalid context key")
    ensures key != "" && configValue.Nil? ==> r == Err("invalid context val")
    ensures r.Err? ==> key == "" || configValue.Nil?
    ensures key != "" && !configValue.Nil? ==>
      r == Ok(!CtxValue(ctx, key).Nil? && MatchValue(CtxValue(ctx, key), configValue))
  {
    if key == "" then Err("invalid context key")
    else if configValue.Nil? then Err("invalid context val")
    else
      var contextValue := CtxValue(ctx, key);
      if contextValue.Nil? then Ok(false)
      else Ok(MatchValue(contextValue, configValue))
  }

  /** `executeStringMatchFactor`, the string-slice variant. */
  function ExecuteStringMatchFactor(ctx: Context, key: string, configValues: seq<string>): (r: Result<bool>)
    ensures key == "" ==> r == Err("invalid context key")
    ensures key != "" && configValues == [] ==> r == Err("invalid context val")
    ensures key != "" && configValues != [] ==>
      r == Ok(!CtxValue(ctx, key).Nil? && ToString(CtxValue(ctx, key)) in configValues)
  {
    if key == "" then Err("invalid context key")
    else if |configValues| == 0 then Err("invalid context val")
    else
      var value := CtxValue(ctx, key);
      if value.Nil? then Ok(false)
      else Ok(ContainsString(ToString(value), configValues))
  }

  function EntryMatch(ctx: Context, c: ContextKv): Result<bool> {
    ExecuteMatchFactor(ctx, c.contextKey, c.contextVal)
  }

  /** `IP_FactorActuator` and `UserNick_FactorActuator`: the match, inverted for a blacklist. */
  function ListActuator(ctx: Context, config: Option<ListConfig>): (r: Result<bool>)
    ensures config.None? ==> r.Err?
    ensures config.Some? && EntryMatch(ctx, config.value.kv).Err? ==> r == EntryMatch(ctx, config.value.kv)
    ensures config.Some? && EntryMatch(ctx, config.value.kv).Ok? ==>
      r == Ok(EntryMatch(ctx, config.value.kv).value != config.value.isBlack)
  {
    match config
    case None => Err("invalid config")
    case Some(c) =>
      match EntryMatch(ctx, c.kv)
      case Err(e) => Err(e)
      case Ok(contain) => if c.isBlack then Ok(!contain) else Ok(contain)
  }

  /** A blacklist rule and the whitelist rule with the same key and value always disagree,
      unless the lookup itself fails. */
  lemma BlacklistInverts(ctx: Context, kv: ContextKv)
    requires EntryMatch(ctx, kv).Ok?
    ensures ListActuator(ctx, Some(ListConfig(kv, true))).Ok?
    ensures ListActuator(ctx, Some(ListConfig(kv, true))).value
         == !ListActuator(ctx, Some(ListConfig(kv, false))).value
  {
  }

  /** `UserName_`, `Location_`, `UserId_` and `TelNum_FactorActuator`: the plain match. */
  function KvActuator(ctx: Context, config: Option<ContextKv>): (r: Result<bool>)
    ensures config.None? ==> r.Err?
    ensures config.Some? ==> r == EntryMatch(ctx, config.value)
  {
    match config
    case None => Err("invalid config")
    case Some(c) => EntryMatch(ctx, c)
  }

  /** `TimeRange_FactorActuator`: both bounds must parse as int64; then the range is inclusive. */
  function TimeRangeActuator(config: Option<TimeRangeConfig>, now: int): (r: Result<bool>)
    ensures config.None? ==> r.Err?
    ensures config.Some? && ParseInt64(config.value.startTime).None? ==> r == Err("invalid start_time")
    ensures config.Some? && ParseInt64(config.value.startTime).Some? && ParseInt64(config.value.endTime).None?
      ==> r == Err("invalid end_time")
    ensures r == Ok(true) <==>
      config.Some? && ParseInt64(config.value.startTime).Some? && ParseInt64(config.value.endTime).Some?
      && ParseInt64(config.value.startTime).value <= now <= ParseInt64(config.value.endTime).value
  {
    match config
    case None => Err("invalid config")
    case Some(c) =>
      match ParseInt64(c.startTime)
      case None => Err("invalid start_time")
      case Some(startTime) =>
        match ParseInt64(c.endTime)
        case None => Err("invalid end_time")
        case Some(endTime) => Ok(now >= startTime && now <= endTime)
  }

  /** `Single_FactorActuator`: the configured flag. */
  function SingleActuator(config: Option<SingleConfig>): (r: Result<bool>)
    ensures config.None? ==> r.Err?
    ensures config.Some? ==> r == Ok(config.value.enabled)
  {
    match config
    case None => Err("invalid config")
    case Some(c) => Ok(c.enabled)
  }

  /** `Custom_Arbitrarily_FactorActuator`: an empty list is an error; entries whose lookup fails
      are skipped; true as soon as one entry matches. */
  method CustomArbitrarily(ctx: Context, config: Option<seq<ContextKv>>) returns (r: Result<bool>)
    ensures (config.None? || config.value == []) ==> r.Err?
    ensures config.Some? && config.value != [] ==>
      r == Ok(exists i :: 0 <= i < |config.value| && EntryMatch(ctx, config.value[i]) == Ok(true))
  {
    if config.None? || |config.value| == 0 {
      return Err("invalid config");
    }
    var cs := config.value;
    var i := 0;
    while i < |cs|
      invariant 0 <= i <= |cs|
      invariant forall j :: 0 <= j < i ==> EntryMatch(ctx, cs[j]) != Ok(true)
    {
      var m := EntryMatch(ctx, cs[i]);
      if m.Err? {
        i := i + 1;
        continue;
      }
      if m.value {
        return Ok(true);
      }
      i := i + 1;
    }
    return Ok(false);
  }

  /** Every entry before `k` matched. */
  ghost predicate MatchedBefore(ctx: Context, cs: seq<ContextKv>, k: int)
    requires 0 <= k <= |cs|
  {
    forall j :: 0 <= j < k ==> EntryMatch(ctx, cs[j]) == Ok(true)
  }

  /** `Custom_Whole_FactorActuator`: an empty list is an error; the first entry that does not
      match decides: its error is propagated, a mismatch gives false; otherwise true. */
  method CustomWhole(ctx: Context, config: Option<seq<ContextKv>>) returns (r: Result<bool>)
    ensures (config.None? || config.value == []) ==> r.Err?
    ensures config.Some? && config.value != [] ==>
      (r == Ok(true) <==> MatchedBefore(ctx, config.value, |config.value|))
    ensures config.Some? && config.value != [] && r != Ok(true) ==>
      exists k :: 0 <= k < |config.value| && MatchedBefore(ctx, config.value, k)
        && EntryMatch(ctx, config.value[k]) == r
  {
    if config.None? || |config.value| == 0 {
      return Err("invalid config");
    }
    var cs := config.value;
    var i := 0;
    while i < |cs|
      invariant 0 <= i <= |cs|
      invariant MatchedBefore(ctx, cs, i)
    {
      var m := EntryMatch(ctx, cs[i]);
      if m.Err? {
        return m;
      }
      if !m.value {
        assert !MatchedBefore(ctx, cs, |cs|) by {
          assert EntryMatch(ctx, cs[i]) != Ok(true);
        }
        return Ok(false);
      }
      i := i + 1;
    }
    return Ok(true);
  }
}
