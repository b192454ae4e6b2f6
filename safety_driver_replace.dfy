/** Graceful driver replacement: check the replacement settings, create the new driver, skip
    when its configuration equals the old one, validate it, file it under a temporary name,
    close the old driver, start the new one (rolling the old one back when that fails) and
    finally rename the temporary entry to the real name; plus the serial batch and the
    argument check of the parallel batch. What drivers do when validated, started, closed or
    recreated is an input, and so is the clock reading that names the temporary entry. */
module SafetyDriverReplace {
  import opened Wrappers
  import opened StrUtil
  import opened DriverDefine
  import opened Driver

  /** `DriverReplacementConfig`. A nil comparator is `None`; a nil set of supported types is
      `None`; durations are in nanoseconds. */
  datatype ReplacementConfig = ReplacementConfig(
    driverType: string,
    driverName: string,
    validationTimeout: int,
    stabilityPeriod: int,
    comparator: Option<(Option<DriverId>, DriverId) -> bool>,
    skipIfSameConfig: bool,
    supportedTypes: Option<map<string, bool>>)

  /** What the drivers involved do: how `Close`, `Validate` (`None` when it does not answer
      within the timeout), `Start` and `RecreateFromConfig` turn out. */
  datatype Behaviour = Behaviour(
    close: DriverId -> Outcome,
    validate: DriverId -> Option<Outcome>,
    start: DriverId -> Outcome,
    recreate: DriverId -> Result<DriverId>)

  const DefaultValidationTimeout: int := 30 * Second
  const DefaultStabilityPeriod: int := 3 * Second

  /** `validateDriverType`: a nil or empty set of supported types accepts every type;
      otherwise the type must be listed as supported. */
  function ValidateDriverType(supported: Option<map<string, bool>>, t: string): (r: Outcome)
    ensures r.Pass? <==> supported.None? || |supported.value| == 0 || (t in supported.value && supported.value[t])
    ensures r.Fail? ==> r.msg == "unsupported driver type: " + t
  {
    if supported.None? || |supported.value| <= 0 then Pass
    else if !(t in supported.value && supported.value[t]) then Fail("unsupported driver type: " + t)
    else Pass
  }

  /** `validateConfig`, returning the settings with their defaults filled in: a validation
      timeout that is not positive becomes 30 seconds, a negative stability period becomes 3
      seconds. */
  function ValidateConfig(config: ReplacementConfig): (r: Result<ReplacementConfig>)
    ensures config.driverName == "" ==> r == Err("driver name cannot be empty")
    ensures r.Ok? <==> config.driverName != "" && ValidateDriverType(config.supportedTypes, config.driverType).Pass?
    ensures r.Ok? ==>
      && r.value.validationTimeout == (if config.validationTimeout <= 0 then DefaultValidationTimeout else config.validationTimeout)
      && r.value.stabilityPeriod == (if config.stabilityPeriod < 0 then DefaultStabilityPeriod else config.stabilityPeriod)
      && r.value.(validationTimeout := config.validationTimeout, stabilityPeriod := config.stabilityPeriod) == config
  {
    if config.driverName == "" then Err("driver name cannot be empty")
    else
      var typeCheck := ValidateDriverType(config.supportedTypes, config.driverType);
      if typeCheck.Fail? then Err(typeCheck.msg)
      else
        var c := if config.validationTimeout <= 0 then config.(validationTimeout := DefaultValidationTimeout) else config;
        var c' := if c.stabilityPeriod < 0 then c.(stabilityPeriod := DefaultStabilityPeriod) else c;
        Ok(c')
  }

  /** Filling in the defaults a second time changes nothing, and the result always has a
      positive timeout and a period that is not negative. */
  lemma ValidateConfigIdempotent(config: ReplacementConfig)
    requires ValidateConfig(config).Ok?
    ensures ValidateConfig(config).value.validationTimeout > 0
    ensures ValidateConfig(config).value.stabilityPeriod >= 0
    ensures ValidateConfig(ValidateConfig(config).value) == ValidateConfig(config)
  {
  }

  /** `generateTempName`: the name, `_temp_` and the clock reading in nanoseconds. */
  function TempName(name: string, timestamp: int): (r: string)
    ensures HasPrefix(r, name + "_temp_")
  {
    var r := name + "_temp_" + IntToString(timestamp);
    assert r[..|name + "_temp_"|] == name + "_temp_";
    r
  }

  /** Two clock readings give two temporary names, and the name is never the original. */
  lemma TempNamesDiffer(name: string, t1: int, t2: int)
    ensures TempName(name, t1) == TempName(name, t2) ==> t1 == t2
    ensures TempName(name, t1) != name
  {
    var p := name + "_temp_";
    assert |TempName(name, t1)| > |name|;
    if TempName(name, t1) == TempName(name, t2) {
      assert TempName(name, t1)[|p|..] == IntToString(t1);
      assert TempName(name, t2)[|p|..] == IntToString(t2);
      IntToStringInjective(t1, t2);
    }
  }

  /** `validateDriver`: the validation error, or a timeout error when validation does not
      answer in time. */
  function ValidateDriver(b: Behaviour, d: DriverId, timeout: int, showDuration: int -> string): (r: Outcome)
    ensures b.validate(d).None? ==> r == Fail("validation timeout after " + showDuration(timeout))
    ensures b.validate(d).Some? ==> r == b.validate(d).value
  {
    if b.validate(d).None? then Fail("validation timeout after " + showDuration(timeout)) else b.validate(d).value
  }

  /** `ReplaceDriver` skips the replacement: the settings and the factory are good, the
      comparator is set and says the driver in service has the same configuration. */
  ghost predicate Skipped(before: DriverMap, config: ReplacementConfig, factory: Result<DriverId>) {
    && ValidateConfig(config).Ok? && factory.Ok? && config.skipIfSameConfig && config.comparator.Some?
    && Find(before, config.driverType, config.driverName).Ok?
    && config.comparator.value(Find(before, config.driverType, config.driverName).value, factory.value)
  }

  /** What one `ReplaceDriver` promises, from the registry and the closed drivers before it
      to those after it: a configuration error or a factory error is returned wrapped and
      changes nothing; an equal configuration keeps the old driver and closes the new one; a
      driver that fails validation is closed and reported with the registry unchanged; past
      validation the call succeeds exactly when it serves the new driver, and a failed start
      is an error; a failure serves no driver; and a success files the new driver under the
      real name. */
  ghost predicate Replaced(before: DriverMap, after: DriverMap, closedBefore: set<DriverId>, closedAfter: set<DriverId>,
                           config: ReplacementConfig, factory: Result<DriverId>, b: Behaviour, timestamp: int,
                           showDuration: int -> string, err: Outcome, driver: Option<DriverId>)
  {
    && (ValidateConfig(config).Err? ==>
          err == Fail("invalid config: " + ValidateConfig(config).msg) && driver.None? && after == before)
    && (ValidateConfig(config).Ok? && factory.Err? ==>
          err == Fail("factory validation failed: " + factory.msg) && driver.None? && after == before)
    && (err.Fail? ==> driver.None?)
    && (Skipped(before, config, factory) ==>
          && err == Pass && driver == Find(before, config.driverType, config.driverName).value
          && after == before && closedAfter == closedBefore + {factory.value})
    && ((&& ValidateConfig(config).Ok? && factory.Ok? && !Skipped(before, config, factory)) ==>
          var validation := ValidateDriver(b, factory.value, ValidateConfig(config).value.validationTimeout, showDuration);
          && (validation.Fail? ==>
                && err == Fail("driver validation failed: " + validation.msg) && driver.None?
                && after == before && closedAfter == closedBefore + {factory.value})
          && (validation.Pass? ==>
                && (err.Pass? <==> driver == Some(factory.value))
                && (b.start(factory.value).Fail? ==> err.Fail?)))
    && ((&& factory.Ok? && err.Pass? && driver == Some(factory.value)
         && Lookup(before, config.driverType, TempName(config.driverName, timestamp)).None?) ==>
          Find(after, config.driverType, config.driverName) == Ok(Some(factory.value)))
  }

  /** `ReplaceDriver` against the registry `m`; `factory` is what the factory produces,
      `timestamp` the clock reading and `showDuration` how Go prints a duration. The result is
      the error, if any, and the driver in service afterwards. */
  method ReplaceDriver(m: DriverManager, config: ReplacementConfig, factory: Result<DriverId>, b: Behaviour,
                       timestamp: int, showDuration: int -> string)
    returns (err: Outcome, driver: Option<DriverId>)
    requires m.Valid()
    modifies m
    ensures m.Valid()
    ensures Replaced(old(m.drivers), m.drivers, old(m.closed), m.closed, config, factory, b, timestamp, showDuration, err, driver)
  {
    var checked := ValidateConfig(config);
    if checked.Err? {
      return Fail("invalid config: " + checked.msg), None;
    }
    var cfg := checked.value;
    if factory.Err? {
      return Fail("factory validation failed: " + factory.msg), None;
    }
    var newDriver := factory.value;
    if cfg.skipIfSameConfig && cfg.comparator.Some? {
      var found := m.GetDriver(cfg.driverType, cfg.driverName);
      if found.Ok? {
        if cfg.comparator.value(found.value, newDriver) {
          // The temporary driver is closed; its error is only logged.
          m.closed := m.closed + {newDriver};
          return Pass, found.value;
        }
      }
    }
    var validation := ValidateDriver(b, newDriver, cfg.validationTimeout, showDuration);
    if validation.Fail? {
      m.closed := m.closed + {newDriver};
      return Fail("driver validation failed: " + validation.msg), None;
    }
    var tempName := TempName(cfg.driverName, timestamp);
    TempNamesDiffer(cfg.driverName, timestamp, timestamp);
    err, driver := SwapIn(m, cfg.driverType, cfg.driverName, tempName, newDriver, b);
  }

  /** The second half of `ReplaceDriver`: file the new driver under the temporary name, close
      and drop the old one, start the new one and move it to the real name. */
  method SwapIn(m: DriverManager, t: string, name: string, tempName: string, newDriver: DriverId, b: Behaviour)
    returns (err: Outcome, driver: Option<DriverId>)
    requires m.Valid()
    modifies m
    ensures m.Valid()
    ensures err.Fail? <==> driver.None?
    ensures err.Pass? ==> driver == Some(newDriver)
    ensures b.start(newDriver).Fail? ==> err.Fail?
    ensures err.Pass? && tempName != name && Lookup(old(m.drivers), t, tempName).None? ==>
      Find(m.drivers, t, name) == Ok(Some(newDriver))
  {
    ghost var d0 := m.drivers;
    var registered := m.Register(t, tempName, Ok(newDriver), [RegisterOption(false)]);
    if registered.Err? {
      var _ := m.CloseByName(t, tempName, b.close);
      return Fail("failed to register temp driver: failed to register temp driver " + tempName + ": " + registered.msg), None;
    }
    RegisterThenFind(d0, t, tempName, Ok(newDriver), false);
    ghost var d1 := m.drivers;
    var oldDriver: Option<DriverId> := None;
    var found := m.GetDriver(t, name);
    if found.Ok? {
      oldDriver := found.value;
      // A failed close is only logged: the entry is removed either way.
      var _ := m.CloseByName(t, name, b.close);
    }
    CloseByNameRemoves(d1, t, name);
    ghost var d2 := m.drivers;
    var started := b.start(newDriver);
    if started.Fail? {
      err := RollBack(m, t, name, tempName, oldDriver, started.msg, b);
      return err, None;
    }
    // The stability wait only sleeps and always succeeds, so its rollback never runs.
    var renamed := m.RenameDriver(t, tempName, name);
    if renamed.Fail? {
      var _ := m.CloseByName(t, tempName, b.close);
      return Fail("failed to replace driver: failed to rename driver from " + tempName + " to " + name + ": " + renamed.msg), None;
    }
    RenameMoves(d2, t, tempName, name);
    return Pass, Some(newDriver);
  }

  /** The start failure of `ReplaceDriver`: drop the temporary entry and file the old driver's
      recreation under the real name again; the batch still reports an error. */
  method RollBack(m: DriverManager, t: string, name: string, tempName: string, oldDriver: Option<DriverId>,
                  startErr: string, b: Behaviour)
    returns (err: Outcome)
    requires m.Valid()
    modifies m
    ensures m.Valid()
    ensures err.Fail?
    ensures oldDriver.None? ==> err == Fail("failed to start new driver and no old driver to rollback: " + startErr)
    ensures oldDriver.Some? && b.recreate(oldDriver.value).Ok? && tempName != name && Lookup(old(m.drivers), t, name).None? ==>
      && err == Fail("new driver start failed but! Restore the old driver to success: " + startErr)
      && Find(m.drivers, t, name) == Ok(Some(b.recreate(oldDriver.value).value))
  {
    ghost var d0 := m.drivers;
    var _ := m.CloseByName(t, tempName, b.close);
    if tempName != name {
      CloseKeepsOthers(d0, t, tempName, name);
    }
    if oldDriver.Some? {
      err := Restore(m, t, name, b.recreate(oldDriver.value), startErr, b);
      return;
    }
    return Fail("failed to start new driver and no old driver to rollback: " + startErr);
  }

  /** The rollback proper: file the recreated old driver under the real name again. */
  method Restore(m: DriverManager, t: string, name: string, recreated: Result<DriverId>, startErr: string, b: Behaviour)
    returns (err: Outcome)
    requires m.Valid()
    modifies m
    ensures m.Valid()
    ensures err.Fail?
    ensures recreated.Ok? && Lookup(old(m.drivers), t, name).None? ==>
      && err == Fail("new driver start failed but! Restore the old driver to success: " + startErr)
      && Find(m.drivers, t, name) == Ok(Some(recreated.value))
  {
    ghost var d := m.drivers;
    var rollback := m.Register(t, name, recreated, [RegisterOption(false)]);
    if rollback.Err? {
      var _ := m.CloseByName(t, name, b.close);
      return Fail("new driver start failed: " + startErr + " but! Restore the old driver to fail: " + rollback.msg);
    }
    RegisterThenFind(d, t, name, recreated, false);
    // The rolled-back driver is started; its outcome is not checked.
    return Fail("new driver start failed but! Restore the old driver to success: " + startErr);
  }

  /** How a serial batch ends, given the names and the outcomes of the replacements it ran:
      the first failure, wrapped with its driver's name, unless errors are ignored. */
  function SerialOutcome(names: seq<string>, outcomes: seq<Outcome>, ignoreErrors: bool): (r: Outcome)
    requires |outcomes| <= |names|
    decreases |outcomes|
  {
    if outcomes == [] || ignoreErrors then Pass
    else if outcomes[0].Fail? then Fail("failed to replace driver " + names[0] + ": " + outcomes[0].msg)
    else SerialOutcome(names[1..], outcomes[1..], ignoreErrors)
  }

  /** With errors ignored a serial batch always succeeds; otherwise it fails exactly when
      some replacement failed, with the first failure. */
  lemma {:induction false} SerialOutcomeMeaning(names: seq<string>, outcomes: seq<Outcome>, ignoreErrors: bool)
    requires |outcomes| <= |names|
    ensures ignoreErrors ==> SerialOutcome(names, outcomes, ignoreErrors) == Pass
    ensures !ignoreErrors ==>
      (SerialOutcome(names, outcomes, ignoreErrors).Pass? <==> forall i :: 0 <= i < |outcomes| ==> outcomes[i].Pass?)
    ensures !ignoreErrors && SerialOutcome(names, outcomes, ignoreErrors).Fail? ==>
      exists k :: 0 <= k < |outcomes| && outcomes[k].Fail? && (forall i :: 0 <= i < k ==> outcomes[i].Pass?)
        && SerialOutcome(names, outcomes, ignoreErrors).msg == "failed to replace driver " + names[k] + ": " + outcomes[k].msg
    decreases |outcomes|
  {
    if outcomes != [] && !ignoreErrors && outcomes[0].Pass? {
      SerialOutcomeMeaning(names[1..], outcomes[1..], ignoreErrors);
      var r := SerialOutcome(names, outcomes, ignoreErrors);
      assert r == SerialOutcome(names[1..], outcomes[1..], ignoreErrors);
      if r.Fail? {
        var k :| 0 <= k < |outcomes[1..]| && outcomes[1..][k].Fail? && (forall i :: 0 <= i < k ==> outcomes[1..][i].Pass?)
          && r.msg == "failed to replace driver " + names[1..][k] + ": " + outcomes[1..][k].msg;
        assert outcomes[k + 1].Fail? && r.msg == "failed to replace driver " + names[k + 1] + ": " + outcomes[k + 1].msg;
        assert forall i :: 0 <= i < k + 1 ==> outcomes[i].Pass? by {
          forall i | 0 <= i < k + 1 ensures outcomes[i].Pass? {
            if i > 0 {
              assert outcomes[i] == outcomes[1..][i - 1];
            }
          }
        }
      } else {
        forall i | 0 <= i < |outcomes| ensures outcomes[i].Pass? {
          if i > 0 {
            assert outcomes[i] == outcomes[1..][i - 1];
          }
        }
      }
    } else if outcomes != [] && !ignoreErrors {
      assert outcomes[0].Fail?;
    }
  }

  /** The names of a batch's drivers. */
  function Names(configs: seq<ReplacementConfig>): (r: seq<string>)
    ensures |r| == |configs| && forall i :: 0 <= i < |configs| ==> r[i] == configs[i].driverName
  {
    seq(|configs|, i requires 0 <= i < |configs| => configs[i].driverName)
  }

  /** `BatchReplaceSerial`: replace one driver after another; a failure ends the batch
      unless errors are ignored. `timestamps[i]` is the clock reading of the `i`-th
      replacement; `outcomes` are the replacements' errors, in order, and `states`,
      `closures` and `served` the registry, the closed drivers and the served driver around
      each of them: replacement `i` takes `states[i]` to `states[i + 1]` as `Replaced`
      says. */
  method BatchReplaceSerial(m: DriverManager, ignoreErrors: bool, configs: seq<ReplacementConfig>,
                            factories: seq<Result<DriverId>>, b: Behaviour, timestamps: seq<int>,
                            showDuration: int -> string)
    returns (r: Outcome, outcomes: seq<Outcome>, ghost states: seq<DriverMap>,
             ghost closures: seq<set<DriverId>>, ghost served: seq<Option<DriverId>>)
    requires m.Valid()
    requires |configs| <= |factories| && |configs| <= |timestamps|
    modifies m
    ensures m.Valid()
    ensures |outcomes| <= |configs|
    ensures ignoreErrors ==> |outcomes| == |configs|
    ensures r == SerialOutcome(Names(configs), outcomes, ignoreErrors)
    ensures !ignoreErrors && |outcomes| < |configs| ==> outcomes != [] && outcomes[|outcomes| - 1].Fail?
    ensures !ignoreErrors ==> forall j :: 0 <= j < |outcomes| - 1 ==> outcomes[j].Pass?
    ensures |states| == |closures| == |outcomes| + 1 && |served| == |outcomes|
    ensures states[0] == old(m.drivers) && closures[0] == old(m.closed)
    ensures states[|outcomes|] == m.drivers && closures[|outcomes|] == m.closed
    ensures Steps(states, closures, outcomes, served, configs, factories, b, timestamps, showDuration)
  {
    outcomes := [];
    states := [m.drivers];
    closures := [m.closed];
    served := [];
    var names := Names(configs);
    var i := 0;
    while i < |configs|
      invariant 0 <= i <= |configs| && |outcomes| == i
      invariant m.Valid()
      invariant !ignoreErrors ==> forall j :: 0 <= j < i ==> outcomes[j].Pass?
      invariant |states| == |closures| == i + 1 && |served| == i
      invariant states[0] == old(m.drivers) && closures[0] == old(m.closed)
      invariant states[i] == m.drivers && closures[i] == m.closed
      invariant Steps(states, closures, outcomes, served, configs, factories, b, timestamps, showDuration)
    {
      var err, driver := ReplaceDriver(m, configs[i], factories[i], b, timestamps[i], showDuration);
      StepsExtend(states, closures, outcomes, served, configs, factories, b, timestamps, showDuration,
                  m.drivers, m.closed, err, driver);
      outcomes := outcomes + [err];
      states := states + [m.drivers];
      closures := closures + [m.closed];
      served := served + [driver];
      if err.Fail? {
        if !ignoreErrors {
          SerialThroughFirstFailure(names, outcomes);
          return Fail("failed to replace driver " + configs[i].driverName + ": " + err.msg), outcomes, states, closures, served;
        }
      }
      i := i + 1;
    }
    SerialOutcomeMeaning(names, outcomes, ignoreErrors);
    return Pass, outcomes, states, closures, served;
  }

  /** Each replacement of a batch relates its registry before to its registry after. */
  ghost predicate Steps(states: seq<DriverMap>, closures: seq<set<DriverId>>, outcomes: seq<Outcome>,
                        served: seq<Option<DriverId>>, configs: seq<ReplacementConfig>, factories: seq<Result<DriverId>>,
                        b: Behaviour, timestamps: seq<int>, showDuration: int -> string)
    requires |states| == |closures| == |outcomes| + 1 && |served| == |outcomes|
    requires |outcomes| <= |configs| && |outcomes| <= |factories| && |outcomes| <= |timestamps|
  {
    forall j :: 0 <= j < |outcomes| ==>
      Replaced(states[j], states[j + 1], closures[j], closures[j + 1], configs[j], factories[j], b, timestamps[j], showDuration, outcomes[j], served[j])
  }

  /** One more replacement extends the steps of a batch. */
  lemma StepsExtend(states: seq<DriverMap>, closures: seq<set<DriverId>>, outcomes: seq<Outcome>,
                    served: seq<Option<DriverId>>, configs: seq<ReplacementConfig>, factories: seq<Result<DriverId>>,
                    b: Behaviour, timestamps: seq<int>, showDuration: int -> string,
                    after: DriverMap, closedAfter: set<DriverId>, err: Outcome, driver: Option<DriverId>)
    requires |states| == |closures| == |outcomes| + 1 && |served| == |outcomes|
    requires |outcomes| < |configs| && |outcomes| < |factories| && |outcomes| < |timestamps|
    requires Steps(states, closures, outcomes, served, configs, factories, b, timestamps, showDuration)
    requires var n := |outcomes|;
      Replaced(states[n], after, closures[n], closedAfter, configs[n], factories[n], b, timestamps[n], showDuration, err, driver)
    ensures Steps(states + [after], closures + [closedAfter], outcomes + [err], served + [driver],
                  configs, factories, b, timestamps, showDuration)
  {
    var s', c', o', v' := states + [after], closures + [closedAfter], outcomes + [err], served + [driver];
    forall j | 0 <= j < |o'|
      ensures Replaced(s'[j], s'[j + 1], c'[j], c'[j + 1], configs[j], factories[j], b, timestamps[j], showDuration, o'[j], v'[j])
    {
      if j < |outcomes| {
        assert s'[j] == states[j] && s'[j + 1] == states[j + 1] && c'[j] == closures[j] && c'[j + 1] == closures[j + 1];
        assert o'[j] == outcomes[j] && v'[j] == served[j];
      }
    }
  }

  /** A run of passes followed by one failure ends with that failure. */
  lemma {:induction false} SerialThroughFirstFailure(names: seq<string>, outcomes: seq<Outcome>)
    requires 0 < |outcomes| <= |names|
    requires forall j :: 0 <= j < |outcomes| - 1 ==> outcomes[j].Pass?
    requires outcomes[|outcomes| - 1].Fail?
    ensures SerialOutcome(names, outcomes, false)
      == Fail("failed to replace driver " + names[|outcomes| - 1] + ": " + outcomes[|outcomes| - 1].msg)
    decreases |outcomes|
  {
    if |outcomes| > 1 {
      assert outcomes[0].Pass?;
      SerialThroughFirstFailure(names[1..], outcomes[1..]);
    }
  }

  /** The argument check of `BatchReplaceParallel`. */
  function ParallelArgumentCheck(configCount: nat, factoryCount: nat): (r: Outcome)
    ensures r.Pass? <==> configCount == factoryCount
  {
    if configCount != factoryCount then
      Fail("configs and factories length mismatch: " + NatToString(configCount) + " vs " + NatToString(factoryCount))
    else Pass
  }
}
