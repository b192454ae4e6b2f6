/** The driver registry: drivers filed by type and name; registration (through a run-once
    creator or directly), lookup, closing one driver, one type or everything, renaming, and
    replacing an entry by a given instance. A driver is an identity; what its `Close` reports
    is an input, and the manager records which drivers it has closed. Locks, failure
    callbacks and driver metadata are not modelled. */
module Driver {
  import opened Wrappers
  import opened StrUtil

  /** A driver instance. */
  type DriverId = nat

  /** `driverWrapper`: the driver (nil while a run-once creation has not succeeded) and the
      name it is filed under. */
  datatype Wrapper = Wrapper(driver: Option<DriverId>, driverName: string)

  /** `RegisterOption`; registration without options uses the run-once creator. */
  datatype RegisterOption = RegisterOption(useSyncOnce: bool)

  /** `DriverManager.drivers`: type, then name, then wrapper. */
  type DriverMap = map<string, map<string, Wrapper>>

  /** Every wrapper carries the name it is filed under. */
  predicate Keyed(drivers: DriverMap) {
    forall t, n :: t in drivers && n in drivers[t] ==> drivers[t][n].driverName == n
  }

  /** The drivers of one type, or none when the type is unknown. */
  function TypeMap(drivers: DriverMap, t: string): map<string, Wrapper> {
    if t in drivers then drivers[t] else map[]
  }

  /** The wrapper filed under `t` and `name`, if any. */
  function Lookup(drivers: DriverMap, t: string, name: string): Option<Wrapper> {
    if t in drivers && name in drivers[t] then Some(drivers[t][name]) else None
  }

  function NotFound(t: string, name: string): string {
    "driver not found: type=" + t + ", name=" + name
  }

  /** `GetDriver`: the wrapper's driver, which is nil for an entry whose run-once creation
      failed; an error when the type or the name is unknown. */
  function Find(drivers: DriverMap, t: string, name: string): (r: Result<Option<DriverId>>)
    ensures r.Ok? <==> Lookup(drivers, t, name).Some?
    ensures r.Ok? ==> r.value == Lookup(drivers, t, name).value.driver
    ensures r.Err? ==> r.msg == NotFound(t, name)
  {
    if t in drivers then
      if name in drivers[t] then Ok(drivers[t][name].driver) else Err(NotFound(t, name))
    else Err(NotFound(t, name))
  }

  /** The driver already registered under `t` and `name`: an entry whose driver is set. */
  function Existing(drivers: DriverMap, t: string, name: string): Option<DriverId> {
    var w := Lookup(drivers, t, name);
    if w.Some? && w.value.driver.Some? then w.value.driver else None
  }

  /** The option `Register` uses: the first one given, else the run-once creator. */
  function ChosenOption(opts: seq<RegisterOption>): RegisterOption {
    if |opts| > 0 then opts[0] else RegisterOption(true)
  }

  /** What `Register` returns; `creation` is what the creator produces when it is called. */
  function RegisterResult(drivers: DriverMap, t: string, name: string, creation: Result<DriverId>): Result<DriverId> {
    if Existing(drivers, t, name).Some? then Ok(Existing(drivers, t, name).value)
    else if creation.Ok? then Ok(creation.value)
    else Err("create driver error: " + creation.msg)
  }

  /** The registry after `Register`: the type's map is always created; an existing driver is
      kept; otherwise the created driver is filed, and a failed run-once creation leaves an
      entry without a driver behind. */
  function AfterRegister(drivers: DriverMap, t: string, name: string, creation: Result<DriverId>, syncOnce: bool): DriverMap {
    var inner := TypeMap(drivers, t);
    if Existing(drivers, t, name).Some? then drivers
    else if creation.Ok? then drivers[t := inner[name := Wrapper(Some(creation.value), name)]]
    else if syncOnce then drivers[t := inner[name := Wrapper(None, name)]]
    else drivers[t := inner]
  }

  /** What `RenameDriver` returns. */
  function RenameResult(drivers: DriverMap, t: string, oldName: string, newName: string): Outcome {
    if t !in drivers then Fail("driver type not found: " + t)
    else if oldName !in drivers[t] then Fail("source driver not found: type=" + t + ", name=" + oldName)
    else Pass
  }

  /** The registry after `RenameDriver`: the wrapper moves from the old name to the new one and
      takes the new name, unless the new name is taken, in which case nothing changes. */
  function AfterRename(drivers: DriverMap, t: string, oldName: string, newName: string): DriverMap {
    if t !in drivers || oldName !in drivers[t] || newName in drivers[t] then drivers
    else
      var inner := drivers[t];
      drivers[t := (inner - {oldName})[newName := inner[oldName].(driverName := newName)]]
  }

  /** The registry after `CloseByName`: the entry is gone whether or not its driver closed. */
  function AfterCloseByName(drivers: DriverMap, t: string, name: string): DriverMap {
    if t in drivers && name in drivers[t] then drivers[t := drivers[t] - {name}] else drivers
  }

  /** The registry after a successful `ReplaceDriverWithInstance`. */
  function AfterReplace(drivers: DriverMap, t: string, name: string, newDriver: DriverId): DriverMap {
    drivers[t := TypeMap(drivers, t)[name := Wrapper(Some(newDriver), name)]]
  }

  /** The drivers held by one type's entries. */
  function Held(inner: map<string, Wrapper>): set<DriverId> {
    set n | n in inner && inner[n].driver.Some? :: inner[n].driver.value
  }

  /** The drivers held by all entries. */
  function AllHeld(drivers: DriverMap): set<DriverId> {
    set t, n | t in drivers && n in drivers[t] && drivers[t][n].driver.Some? :: drivers[t][n].driver.value
  }

  /** The entry `n` holds a driver whose `Close` fails. */
  predicate FailsToClose(inner: map<string, Wrapper>, n: string, close: DriverId -> Outcome) {
    n in inner && inner[n].driver.Some? && close(inner[n].driver.value).Fail?
  }

  /** Every driver of one type closes cleanly. */
  predicate ClosesCleanly(inner: map<string, Wrapper>, close: DriverId -> Outcome) {
    forall n :: n in inner ==> !FailsToClose(inner, n, close)
  }

  /** The error of one driver that failed to close. */
  function CloseError(t: string, name: string, err: string): string {
    "close " + t + " driver '" + name + "' error: " + err
  }

  /** How Go prints a list of errors. */
  function ErrorList(errs: seq<string>): string
    requires |errs| >= 1
  {
    "[" + Join(errs, ' ') + "]"
  }

  /** The closing loop over one type's entries: `Close` every held driver, in the map's
      (unspecified) order, and collect the errors. */
  method CloseEach(t: string, inner: map<string, Wrapper>, close: DriverId -> Outcome) returns (errs: seq<string>)
    ensures errs == [] <==> ClosesCleanly(inner, close)
    ensures forall i :: 0 <= i < |errs| ==>
      exists n :: FailsToClose(inner, n, close) && errs[i] == CloseError(t, n, close(inner[n].driver.value).msg)
  {
    var rest := inner.Keys;
    errs := [];
    while rest != {}
      invariant rest <= inner.Keys
      invariant errs == [] <==> forall n :: n in inner && n !in rest ==> !FailsToClose(inner, n, close)
      invariant forall i :: 0 <= i < |errs| ==>
        exists n :: FailsToClose(inner, n, close) && errs[i] == CloseError(t, n, close(inner[n].driver.value).msg)
      decreases |rest|
    {
      var name :| name in rest;
      var w := inner[name];
      if w.driver.Some? {
        var outcome := close(w.driver.value);
        if outcome.Fail? {
          assert FailsToClose(inner, name, close);
          errs := errs + [CloseError(t, name, outcome.msg)];
        }
      }
      rest := rest - {name};
    }
  }

  /** Updating one type with a map whose wrappers carry their names keeps the registry
      keyed. */
  lemma KeyedUpdate(drivers: DriverMap, t: string, inner: map<string, Wrapper>)
    requires Keyed(drivers)
    requires forall n :: n in inner ==> inner[n].driverName == n
    ensures Keyed(drivers[t := inner])
  {
  }

  /** Registration, renaming, removal and replacement keep every wrapper filed under its own
      name. */
  lemma UpdatesKeepKeyed(drivers: DriverMap, t: string, name: string, other: string,
                         creation: Result<DriverId>, syncOnce: bool, d: DriverId)
    requires Keyed(drivers)
    ensures Keyed(AfterRegister(drivers, t, name, creation, syncOnce))
    ensures Keyed(AfterRename(drivers, t, name, other))
    ensures Keyed(AfterCloseByName(drivers, t, name))
    ensures Keyed(AfterReplace(drivers, t, name, d))
  {
    var inner := TypeMap(drivers, t);
    assert forall n :: n in inner ==> inner[n].driverName == n;
    if creation.Ok? {
      KeyedUpdate(drivers, t, inner[name := Wrapper(Some(creation.value), name)]);
    }
    KeyedUpdate(drivers, t, inner[name := Wrapper(None, name)]);
    KeyedUpdate(drivers, t, inner);
    KeyedUpdate(drivers, t, inner[name := Wrapper(Some(d), name)]);
    if t in drivers && name in drivers[t] {
      KeyedUpdate(drivers, t, drivers[t] - {name});
      if other !in drivers[t] {
        KeyedUpdate(drivers, t, (drivers[t] - {name})[other := drivers[t][name].(driverName := other)]);
      }
    }
  }

  /** After `Register` the entry holds the returned driver; a failed run-once creation
      leaves an entry that is found but holds no driver; a failed direct creation leaves the
      entry as it was; no other entry changes. */
  lemma RegisterThenFind(drivers: DriverMap, t: string, name: string, creation: Result<DriverId>, syncOnce: bool)
    ensures var r, after := RegisterResult(drivers, t, name, creation), AfterRegister(drivers, t, name, creation, syncOnce);
      && (r.Ok? ==> Find(after, t, name) == Ok(Some(r.value)))
      && (r.Err? ==> creation.Err? && Existing(drivers, t, name).None?)
      && (r.Err? && syncOnce ==> Find(after, t, name) == Ok(None))
      && (r.Err? && !syncOnce ==> Lookup(after, t, name) == Lookup(drivers, t, name))
      && (forall t', n' :: (t' != t || n' != name) ==> Lookup(after, t', n') == Lookup(drivers, t', n'))
  {
  }

  /** Once a driver is registered, registering the name again hands back that driver and
      changes nothing, whatever the creator would produce. */
  lemma RegisterIdempotent(drivers: DriverMap, t: string, name: string, creation: Result<DriverId>, syncOnce: bool,
                           again: Result<DriverId>, syncAgain: bool)
    requires RegisterResult(drivers, t, name, creation).Ok?
    ensures var after := AfterRegister(drivers, t, name, creation, syncOnce);
      && RegisterResult(after, t, name, again) == RegisterResult(drivers, t, name, creation)
      && AfterRegister(after, t, name, again, syncAgain) == after
  {
  }

  /** An entry left without a driver by a failed run-once creation does not block a later
      registration: the creator runs again. */
  lemma FailedCreationRetried(drivers: DriverMap, t: string, name: string, msg: string, again: Result<DriverId>)
    ensures var after := AfterRegister(drivers, t, name, Err(msg), true);
      Existing(drivers, t, name).None? ==> RegisterResult(after, t, name, again) == RegisterResult(drivers, t, name, again)
  {
  }

  /** A rename that succeeds moves the wrapper, driver included, to the new name; a taken
      new name or a failure leaves the registry as it was. */
  lemma RenameMoves(drivers: DriverMap, t: string, oldName: string, newName: string)
    ensures var after := AfterRename(drivers, t, oldName, newName);
      && (RenameResult(drivers, t, oldName, newName).Fail? ==> after == drivers)
      && (t in drivers && newName in drivers[t] ==> after == drivers)
      && (RenameResult(drivers, t, oldName, newName).Pass? && newName !in drivers[t] ==>
            && Find(after, t, newName) == Find(drivers, t, oldName)
            && Lookup(after, t, newName).value.driverName == newName
            && Find(after, t, oldName).Err?
            && forall n :: n != oldName && n != newName ==> Lookup(after, t, n) == Lookup(drivers, t, n))
  {
  }

  /** Renaming back restores the registry. */
  lemma RenameRoundTrip(drivers: DriverMap, t: string, oldName: string, newName: string)
    requires Keyed(drivers)
    requires t in drivers && oldName in drivers[t] && newName !in drivers[t]
    ensures AfterRename(AfterRename(drivers, t, oldName, newName), t, newName, oldName) == drivers
  {
    var inner := drivers[t];
    var moved := (inner - {oldName})[newName := inner[oldName].(driverName := newName)];
    var back := (moved - {newName})[oldName := moved[newName].(driverName := oldName)];
    assert inner[oldName].driverName == oldName;
    assert back == inner;
    assert drivers[t := back] == drivers;
  }

  /** After `CloseByName` the entry is gone and every other entry is as it was. */
  lemma CloseByNameRemoves(drivers: DriverMap, t: string, name: string)
    ensures var after := AfterCloseByName(drivers, t, name);
      && Find(after, t, name) == Err(NotFound(t, name))
      && forall t', n' :: (t' != t || n' != name) ==> Lookup(after, t', n') == Lookup(drivers, t', n')
  {
  }

  /** Closing one entry leaves another entry of the same type as it was. */
  lemma CloseKeepsOthers(drivers: DriverMap, t: string, name: string, other: string)
    requires other != name
    ensures Lookup(AfterCloseByName(drivers, t, name), t, other) == Lookup(drivers, t, other)
  {
    CloseByNameRemoves(drivers, t, name);
  }

  /** After a replacement the entry holds the new driver and every other entry is as it
      was. */
  lemma ReplaceThenFind(drivers: DriverMap, t: string, name: string, newDriver: DriverId)
    ensures var after := AfterReplace(drivers, t, name, newDriver);
      && Find(after, t, name) == Ok(Some(newDriver))
      && forall t', n' :: (t' != t || n' != name) ==> Lookup(after, t', n') == Lookup(drivers, t', n')
  {
  }

  /** The closing loop of `Close`: every type in turn, collecting the errors. */
  method CloseEveryType(all: DriverMap, close: DriverId -> Outcome) returns (errs: seq<string>)
    ensures errs == [] <==> forall t :: t in all ==> ClosesCleanly(all[t], close)
  {
    var rest := all.Keys;
    errs := [];
    while rest != {}
      invariant rest <= all.Keys
      invariant errs == [] <==> forall t :: t in all && t !in rest ==> ClosesCleanly(all[t], close)
      decreases |rest|
    {
      var t :| t in rest;
      var e := CloseEach(t, all[t], close);
      errs := errs + e;
      rest := rest - {t};
    }
  }

  class DriverManager {
    var drivers: DriverMap
    /** The drivers whose `Close` this manager has called. */
    var closed: set<DriverId>

    ghost predicate Valid()
      reads this
    {
      Keyed(drivers)
    }

    /** `NewDriverManager`: no drivers. */
    constructor ()
      ensures Valid() && drivers == map[] && closed == {}
    {
      drivers := map[];
      closed := {};
    }

    /** `GetDriver`. */
    function GetDriver(t: string, name: string): Result<Option<DriverId>>
      reads this
    {
      Find(drivers, t, name)
    }

    /** `Register`: hand back a registered driver, else create one. With the run-once
        creator the entry is filed before the creator runs, so a failed creation leaves an
        entry without a driver. */
    method Register(t: string, name: string, creation: Result<DriverId>, opts: seq<RegisterOption>)
      returns (r: Result<DriverId>)
      requires Valid()
      modifies this
      ensures Valid()
      ensures r == RegisterResult(old(drivers), t, name, creation)
      ensures drivers == AfterRegister(old(drivers), t, name, creation, ChosenOption(opts).useSyncOnce)
      ensures closed == old(closed)
    {
      UpdatesKeepKeyed(drivers, t, name, name, creation, ChosenOption(opts).useSyncOnce, 0);
      // The type's map is created up front; it is filed with the entry below.
      var inner := if t in drivers then drivers[t] else map[];
      if name in inner && inner[name].driver.Some? {
        return Ok(inner[name].driver.value);
      }
      var opt := RegisterOption(true);
      if |opts| > 0 {
        opt := opts[0];
      }
      if opt.useSyncOnce {
        var filed := inner[name := Wrapper(None, name)];
        if creation.Err? {
          drivers := drivers[t := filed];
          return Err("create driver error: " + creation.msg);
        }
        filed := filed[name := Wrapper(Some(creation.value), name)];
        assert filed == inner[name := Wrapper(Some(creation.value), name)];
        drivers := drivers[t := filed];
        return Ok(creation.value);
      }
      if creation.Err? {
        drivers := drivers[t := inner];
        return Err("create driver error: " + creation.msg);
      }
      drivers := drivers[t := inner[name := Wrapper(Some(creation.value), name)]];
      return Ok(creation.value);
    }

    /** `CloseByType`: close every driver of the type and drop the type, even when some
        driver fails to close. */
    method CloseByType(t: string, close: DriverId -> Outcome) returns (r: Outcome)
      requires Valid()
      modifies this
      ensures Valid()
      ensures drivers == old(drivers) - {t}
      ensures closed == old(closed) + Held(TypeMap(old(drivers), t))
      ensures r.Pass? <==> ClosesCleanly(TypeMap(old(drivers), t), close)
      ensures r.Fail? ==> HasPrefix(r.msg, "close drivers error: [")
    {
      if t !in drivers {
        return Pass;
      }
      var inner := drivers[t];
      var errs := CloseEach(t, inner, close);
      closed := closed + Held(inner);
      drivers := drivers - {t};
      if |errs| > 0 {
        var msg := "close drivers error: " + ErrorList(errs);
        assert msg[..|"close drivers error: ["|] == "close drivers error: [";
        return Fail(msg);
      }
      return Pass;
    }

    /** `CloseByName`: close the driver and drop the entry; the entry goes even when the
        driver fails to close, and an unknown entry is an error. */
    method CloseByName(t: string, name: string, close: DriverId -> Outcome) returns (r: Outcome)
      requires Valid()
      modifies this
      ensures Valid()
      ensures drivers == AfterCloseByName(old(drivers), t, name)
      ensures Lookup(old(drivers), t, name).None? ==> r == Fail(NotFound(t, name)) && closed == old(closed)
      ensures Lookup(old(drivers), t, name).Some? ==>
        var d := Lookup(old(drivers), t, name).value.driver;
        && closed == old(closed) + (if d.Some? then {d.value} else {})
        && (r.Pass? <==> d.None? || close(d.value).Pass?)
        && (r.Fail? ==> r.msg == "close " + t + " driver '" + name + "' error (driver already removed): " + close(d.value).msg)
    {
      if t in drivers && name in drivers[t] {
        var w := drivers[t][name];
        var closeErr: Outcome := Pass;
        if w.driver.Some? {
          closed := closed + {w.driver.value};
          closeErr := close(w.driver.value);
        }
        drivers := drivers[t := drivers[t] - {name}];
        if closeErr.Fail? {
          return Fail("close " + t + " driver '" + name + "' error (driver already removed): " + closeErr.msg);
        }
        return Pass;
      }
      return Fail(NotFound(t, name));
    }

    /** `RenameDriver`: move an entry to a new name without closing its driver. */
    method RenameDriver(t: string, oldName: string, newName: string) returns (r: Outcome)
      requires Valid()
      modifies this
      ensures Valid()
      ensures r == RenameResult(old(drivers), t, oldName, newName)
      ensures drivers == AfterRename(old(drivers), t, oldName, newName)
      ensures closed == old(closed)
    {
      if t !in drivers {
        return Fail("driver type not found: " + t);
      }
      var inner := drivers[t];
      if oldName !in inner {
        return Fail("source driver not found: type=" + t + ", name=" + oldName);
      }
      var w := inner[oldName];
      if newName in inner {
        return Pass;
      }
      w := w.(driverName := newName);
      inner := inner[newName := w];
      inner := inner - {oldName};
      assert inner == (drivers[t] - {oldName})[newName := w];
      drivers := drivers[t := inner];
      return Pass;
    }

    /** `ReplaceDriverWithInstance`: close the old driver, then file the new one. An old
        driver that fails to close aborts with the registry unchanged. */
    method ReplaceDriverWithInstance(t: string, name: string, newDriver: DriverId, close: DriverId -> Outcome)
      returns (r: Outcome)
      requires Valid()
      modifies this
      ensures Valid()
      ensures var prior := Existing(old(drivers), t, name);
        && closed == old(closed) + (if prior.Some? then {prior.value} else {})
        && (r.Fail? <==> prior.Some? && close(prior.value).Fail?)
        && (r.Fail? ==> r.msg == "failed to close old driver '" + name + "': " + close(prior.value).msg
                        && drivers == old(drivers))
        && (r.Pass? ==> drivers == AfterReplace(old(drivers), t, name, newDriver))
    {
      UpdatesKeepKeyed(drivers, t, name, name, Err(""), false, newDriver);
      // The type's map is created up front; it is filed with the new entry below.
      var inner := if t in drivers then drivers[t] else map[];
      if name in inner && inner[name].driver.Some? {
        var d := inner[name].driver.value;
        closed := closed + {d};
        var outcome := close(d);
        if outcome.Fail? {
          return Fail("failed to close old driver '" + name + "': " + outcome.msg);
        }
      }
      drivers := drivers[t := inner[name := Wrapper(Some(newDriver), name)]];
      return Pass;
    }

    /** `Close`: close every driver of every type and empty the registry. */
    method Close(close: DriverId -> Outcome) returns (r: Outcome)
      requires Valid()
      modifies this
      ensures Valid()
      ensures drivers == map[]
      ensures closed == old(closed) + AllHeld(old(drivers))
      ensures r.Pass? <==> forall t :: t in old(drivers) ==> ClosesCleanly(old(drivers)[t], close)
      ensures r.Fail? ==> HasPrefix(r.msg, "close drivers error: [")
    {
      var errs := CloseEveryType(drivers, close);
      closed := closed + AllHeld(drivers);
      drivers := map[];
      if |errs| > 0 {
        var msg := "close drivers error: " + ErrorList(errs);
        assert msg[..|"close drivers error: ["|] == "close drivers error: [";
        return Fail(msg);
      }
      return Pass;
    }
  }
}
