/** The driver list of the environment form. Drivers are the form's value and go back
    through `onChange`; a driver being added gets a negative temporary id from a counter
    that only goes down, so it never collides with a stored driver or an earlier new one. */
module DriverConfiguration {
  import opened Wrappers
  import opened JsonValue

  // ---------------------------------------------------------------------------------------
  // The list operations, on values
  // ---------------------------------------------------------------------------------------

  /** `d.id`. */
  function IdOf(d: Json): Json {
    Prop(d, "id")
  }

  /** `value.filter(d => d.id !== id)`: `handleDelete`'s new list. */
  function WithoutDriver(drivers: seq<Json>, id: Json): (r: seq<Json>)
    ensures |r| <= |drivers|
    ensures forall d :: d in r <==> d in drivers && IdOf(d) != id
  {
    if drivers == [] then []
    else
      var head := if IdOf(drivers[0]) != id then [drivers[0]] else [];
      head + WithoutDriver(drivers[1..], id)
  }

  /** Deleting an id no driver has leaves the list unchanged. */
  lemma {:induction false} DeleteAbsent(drivers: seq<Json>, id: Json)
    requires forall i :: 0 <= i < |drivers| ==> IdOf(drivers[i]) != id
    ensures WithoutDriver(drivers, id) == drivers
  {
    if drivers != [] {
      DeleteAbsent(drivers[1..], id);
    }
  }

  /** `value.some(d => d.id === id)`. */
  predicate AnyHasId(drivers: seq<Json>, id: Json) {
    exists i :: 0 <= i < |drivers| && IdOf(drivers[i]) == id
  }

  /** `value.map(d => d.id === id ? newDriver : d)`. */
  function ReplaceById(drivers: seq<Json>, id: Json, newDriver: Json): (r: seq<Json>)
    ensures |r| == |drivers|
    ensures forall i :: 0 <= i < |drivers| ==> r[i] == if IdOf(drivers[i]) == id then newDriver else drivers[i]
  {
    if drivers == [] then []
    else
      var rest := ReplaceById(drivers[1..], id, newDriver);
      var r := [if IdOf(drivers[0]) == id then newDriver else drivers[0]] + rest;
      assert forall i :: 1 <= i < |drivers| ==> r[i] == rest[i - 1] && drivers[i] == drivers[1..][i - 1];
      r
  }

  /** `onFormFinish`'s new list: a driver with the same id is replaced in place, otherwise
      the driver goes last. */
  function Upserted(drivers: seq<Json>, newDriver: Json): (r: seq<Json>) {
    var id := IdOf(newDriver);
    if AnyHasId(drivers, id) then ReplaceById(drivers, id, newDriver) else drivers + [newDriver]
  }

  /** After the upsert the driver is in the list, every entry with its id is that driver,
      and every other entry is where it was. */
  lemma UpsertStores(drivers: seq<Json>, newDriver: Json)
    ensures var r := Upserted(drivers, newDriver);
      newDriver in r
      && (forall i :: 0 <= i < |r| && IdOf(r[i]) == IdOf(newDriver) ==> r[i] == newDriver)
      && (AnyHasId(drivers, IdOf(newDriver)) ==> |r| == |drivers|)
      && (!AnyHasId(drivers, IdOf(newDriver)) ==> r == drivers + [newDriver])
      && forall i :: 0 <= i < |drivers| && IdOf(drivers[i]) != IdOf(newDriver) ==> r[i] == drivers[i]
  {
    var r := Upserted(drivers, newDriver);
    if AnyHasId(drivers, IdOf(newDriver)) {
      var k :| 0 <= k < |drivers| && IdOf(drivers[k]) == IdOf(newDriver);
      assert r[k] == newDriver;
    }
  }

  /** Saving a driver twice is saving it once. */
  lemma UpsertTwice(drivers: seq<Json>, newDriver: Json)
    ensures Upserted(Upserted(drivers, newDriver), newDriver) == Upserted(drivers, newDriver)
  {
    var once := Upserted(drivers, newDriver);
    UpsertStores(drivers, newDriver);
    var k :| 0 <= k < |once| && once[k] == newDriver;
    assert AnyHasId(once, IdOf(newDriver));
    var twice := ReplaceById(once, IdOf(newDriver), newDriver);
    assert forall i :: 0 <= i < |once| ==> twice[i] == once[i];
  }

  /** `{ ...editingDriver, ...formValues }`. */
  function NewDriver(editingDriver: Json, formValues: Json): Json {
    JObj(Merge(Entries(editingDriver), Entries(formValues)))
  }

  /** The saved driver takes each field from the form when the form has it, otherwise
      from the driver being edited (its id, for a new one). */
  lemma NewDriverFields(editingDriver: Json, formValues: Json, k: string)
    requires DistinctKeys(Entries(formValues))
    ensures Get(NewDriver(editingDriver, formValues), k)
      == if k in Keys(Entries(formValues)) then Lookup(Entries(formValues), k) else Lookup(Entries(editingDriver), k)
  {
    MergeLookup(Entries(editingDriver), Entries(formValues), k);
  }

  /** `value.filter(d => d.usage === usage)`: the drivers a tab lists. */
  function ForUsage(drivers: seq<Json>, usage: string): (r: seq<Json>)
    ensures |r| <= |drivers|
    ensures forall d :: d in r <==> d in drivers && Prop(d, "usage") == JStr(usage)
  {
    if drivers == [] then []
    else
      var head := if Prop(drivers[0], "usage") == JStr(usage) then [drivers[0]] else [];
      head + ForUsage(drivers[1..], usage)
  }

  /** The two tabs never list the same driver, and a driver of either usage is on one of
      them. */
  lemma TabsPartition(drivers: seq<Json>, d: Json)
    requires d in drivers
    ensures !(d in ForUsage(drivers, "producer") && d in ForUsage(drivers, "consumer"))
    ensures Prop(d, "usage") == JStr("producer") || Prop(d, "usage") == JStr("consumer")
      ==> d in ForUsage(drivers, "producer") || d in ForUsage(drivers, "consumer")
  {
  }

  /** The driver types and usages that have a configuration example. */
  predicate HasExample(driverType: string, usage: string) {
    (driverType == "kafka" || driverType == "webhook" || driverType == "polling")
    && (usage == "consumer" || usage == "producer")
  }

  /** `getExampleConfigText`: the example for a known driver type and usage (`demo` stands
      for the six example texts), else an empty JSON object or empty YAML. */
  function ExampleConfigText(driverType: string, usage: string, exampleUsage: string,
                             demo: (string, string, string) -> string): (r: string)
    ensures HasExample(driverType, usage) ==> r == demo(driverType, usage, exampleUsage)
    ensures !HasExample(driverType, usage) ==> r == if exampleUsage == "json" then "{}" else ""
  {
    if driverType == "kafka" && usage == "consumer" then demo("kafka", "consumer", exampleUsage)
    else if driverType == "kafka" && usage == "producer" then demo("kafka", "producer", exampleUsage)
    else if driverType == "webhook" && usage == "consumer" then demo("webhook", "consumer", exampleUsage)
    else if driverType == "webhook" && usage == "producer" then demo("webhook", "producer", exampleUsage)
    else if driverType == "polling" && usage == "consumer" then demo("polling", "consumer", exampleUsage)
    else if driverType == "polling" && usage == "producer" then demo("polling", "producer", exampleUsage)
    else if exampleUsage == "json" then "{}" else ""
  }

  // ---------------------------------------------------------------------------------------
  // The component
  // ---------------------------------------------------------------------------------------

  /** The driver being added: its temporary id, the active tab as its usage, and an empty
      configuration. */
  function AddedDriver(id: int, usage: string): Json {
    JObj([("id", JNum(id)), ("usage", JStr(usage)), ("driverConfig", JObj([]))])
  }

  /** The component's state. `emitted` holds every list handed to `onChange`; `issued`
      every temporary id given out. */
  class DriverList {
    var tempIdCounter: int
    var editingDriver: Json
    var drawerVisible: bool
    var isCreate: bool
    var activeTabKey: string
    var emitted: seq<seq<Json>>
    ghost var issued: set<int>

    /** Every id given out is negative and not below the counter, so the next one is new. */
    ghost predicate Valid()
      reads this
    {
      tempIdCounter <= 0 && forall x :: x in issued ==> tempIdCounter <= x < 0
    }

    constructor()
      ensures Valid()
      ensures tempIdCounter == 0 && editingDriver == JNull && !drawerVisible && isCreate
      ensures activeTabKey == "producer" && emitted == [] && issued == {}
    {
      tempIdCounter := 0;
      editingDriver := JNull;
      drawerVisible := false;
      isCreate := true;
      activeTabKey := "producer";
      emitted := [];
      issued := {};
    }

    /** `getNewTempId`: one below the last, negative, and never given out before. */
    method NewTempId() returns (id: int)
      requires Valid()
      modifies this
      ensures Valid()
      ensures id == old(tempIdCounter) - 1 && tempIdCounter == id
      ensures id < 0 && id !in old(issued) && issued == old(issued) + {id}
      ensures editingDriver == old(editingDriver) && drawerVisible == old(drawerVisible)
      ensures isCreate == old(isCreate) && activeTabKey == old(activeTabKey) && emitted == old(emitted)
    {
      tempIdCounter := tempIdCounter - 1;
      id := tempIdCounter;
      issued := issued + {id};
    }

    /** `handleAdd`: edit a new driver of the active tab's usage in a create drawer. */
    method HandleAdd()
      requires Valid()
      modifies this
      ensures Valid()
      ensures tempIdCounter == old(tempIdCounter) - 1 && tempIdCounter < 0 && tempIdCounter !in old(issued)
      ensures editingDriver == AddedDriver(tempIdCounter, activeTabKey)
      ensures isCreate && drawerVisible
      ensures activeTabKey == old(activeTabKey) && emitted == old(emitted)
    {
      var id := NewTempId();
      editingDriver := AddedDriver(id, activeTabKey);
      isCreate := true;
      drawerVisible := true;
    }

    /** `handleEdit`: edit an existing driver. */
    method HandleEdit(driver: Json)
      modifies this
      ensures editingDriver == driver && drawerVisible
      ensures tempIdCounter == old(tempIdCounter) && issued == old(issued) && isCreate == old(isCreate)
      ensures activeTabKey == old(activeTabKey) && emitted == old(emitted)
    {
      editingDriver := driver;
      drawerVisible := true;
    }

    /** `handleDelete`: hand on the list without the drivers of that id. */
    method HandleDelete(value: seq<Json>, id: Json)
      modifies this
      ensures emitted == old(emitted) + [WithoutDriver(value, id)]
      ensures tempIdCounter == old(tempIdCounter) && issued == old(issued) && editingDriver == old(editingDriver)
      ensures drawerVisible == old(drawerVisible) && isCreate == old(isCreate) && activeTabKey == old(activeTabKey)
    {
      emitted := emitted + [WithoutDriver(value, id)];
    }

    /** `onDrawerClose`. */
    method OnDrawerClose()
      modifies this
      ensures !drawerVisible && editingDriver == JNull
      ensures tempIdCounter == old(tempIdCounter) && issued == old(issued) && isCreate == old(isCreate)
      ensures activeTabKey == old(activeTabKey) && emitted == old(emitted)
    {
      drawerVisible := false;
      editingDriver := JNull;
    }

    /** `onFormFinish`: merge the form into the edited driver, upsert it by id, hand the
        list on and close the drawer. */
    method OnFormFinish(value: seq<Json>, formValues: Json)
      modifies this
      ensures emitted == old(emitted) + [Upserted(value, NewDriver(old(editingDriver), formValues))]
      ensures !drawerVisible && editingDriver == JNull
      ensures tempIdCounter == old(tempIdCounter) && issued == old(issued) && isCreate == old(isCreate)
      ensures activeTabKey == old(activeTabKey)
    {
      var newDriver := NewDriver(editingDriver, formValues);
      var newDrivers;
      if AnyHasId(value, IdOf(newDriver)) {
        newDrivers := ReplaceById(value, IdOf(newDriver), newDriver);
      } else {
        newDrivers := value + [newDriver];
      }
      emitted := emitted + [newDrivers];
      OnDrawerClose();
    }

    /** `setActiveTab` of the handle the parent form holds. */
    method SetActiveTab(key: string)
      modifies this
      ensures activeTabKey == key
      ensures tempIdCounter == old(tempIdCounter) && issued == old(issued) && editingDriver == old(editingDriver)
      ensures drawerVisible == old(drawerVisible) && isCreate == old(isCreate) && emitted == old(emitted)
    {
      activeTabKey := key;
    }

    /** `isCreate` of the same handle. */
    method SetIsCreate(create: bool)
      modifies this
      ensures isCreate == create
      ensures tempIdCounter == old(tempIdCounter) && issued == old(issued) && editingDriver == old(editingDriver)
      ensures drawerVisible == old(drawerVisible) && activeTabKey == old(activeTabKey) && emitted == old(emitted)
    {
      isCreate := create;
    }
  }

  /** A driver added and saved lands at the end of a list of stored drivers, whose ids are
      not negative. */
  lemma NewDriverAppended(value: seq<Json>, id: int, usage: string, formValues: Json)
    requires id < 0
    requires forall i :: 0 <= i < |value| ==> IdOf(value[i]).JNum? && IdOf(value[i]).n >= 0
    requires "id" !in Keys(Entries(formValues)) && DistinctKeys(Entries(formValues))
    ensures Upserted(value, NewDriver(AddedDriver(id, usage), formValues))
      == value + [NewDriver(AddedDriver(id, usage), formValues)]
  {
    var d := NewDriver(AddedDriver(id, usage), formValues);
    NewDriverFields(AddedDriver(id, usage), formValues, "id");
    assert IdOf(d) == JNum(id);
  }
}
