/** The admin service's driver helpers (`utils.FilterDriversByUsage`,
    `utils.BuildDriverConfigPayloads`): choosing an environment's drivers by usage and
    turning drivers into the configuration payloads pushed to clients. A driver list may
    hold nil pointers; JSON encoding is a parameter, and logging is not modelled. */
module DriverUtils {
  import opened Wrappers

  /** A driver record (`model.Driver`) with the fields these helpers read. */
  datatype Driver = Driver(id: nat, name: string, usage: string, driverType: string, driverConfig: string)

  /** A driver pushed to clients (`pc.DriverConfigPayload`): its type and its JSON text. */
  datatype Payload = Payload(payloadType: string, config: string)

  /** The drivers of `ds` with usage `usage`, in their order; nil entries dropped. */
  function WithUsage(ds: seq<Option<Driver>>, usage: string): seq<Driver> {
    if ds == [] then []
    else
      var head := if ds[0].Some? && ds[0].value.usage == usage then [ds[0].value] else [];
      head + WithUsage(ds[1..], usage)
  }

  /** Every driver chosen has the requested usage, and a driver is chosen exactly when a
      non-nil entry holds it with that usage. */
  lemma {:induction false} WithUsageMembers(ds: seq<Option<Driver>>, usage: string)
    ensures forall d :: d in WithUsage(ds, usage) ==> d.usage == usage
    ensures forall d :: d in WithUsage(ds, usage) <==> Some(d) in ds && d.usage == usage
  {
    if ds != [] {
      WithUsageMembers(ds[1..], usage);
      assert ds == [ds[0]] + ds[1..];
    }
  }

  /** Filtering keeps every match: each driver of the requested usage is chosen as many
      times as it occurs in the list, and any other driver never. */
  lemma {:induction false} WithUsageCounts(ds: seq<Option<Driver>>, usage: string, d: Driver)
    ensures multiset(WithUsage(ds, usage))[d] == if d.usage == usage then multiset(ds)[Some(d)] else 0
  {
    if ds != [] {
      WithUsageCounts(ds[1..], usage, d);
      assert ds == [ds[0]] + ds[1..];
      assert multiset(ds) == multiset([ds[0]]) + multiset(ds[1..]);
    }
  }

  /** Filtering a filtered list changes nothing. */
  lemma {:induction false} WithUsageIdempotent(ds: seq<Option<Driver>>, usage: string)
    ensures WithUsage(Somes(WithUsage(ds, usage)), usage) == WithUsage(ds, usage)
  {
    if ds != [] {
      WithUsageIdempotent(ds[1..], usage);
      var head := if ds[0].Some? && ds[0].value.usage == usage then [ds[0].value] else [];
      SomesAppend(head, WithUsage(ds[1..], usage));
      WithUsageAppend(Somes(head), Somes(WithUsage(ds[1..], usage)), usage);
    }
  }

  /** The drivers as non-nil list entries. */
  function Somes(ds: seq<Driver>): (r: seq<Option<Driver>>)
    ensures |r| == |ds| && forall i :: 0 <= i < |ds| ==> r[i] == Some(ds[i])
  {
    seq(|ds|, i requires 0 <= i < |ds| => Some(ds[i]))
  }

  lemma SomesAppend(a: seq<Driver>, b: seq<Driver>)
    ensures Somes(a + b) == Somes(a) + Somes(b)
  {
  }

  lemma {:induction false} WithUsageAppend(a: seq<Option<Driver>>, b: seq<Option<Driver>>, usage: string)
    ensures WithUsage(a + b, usage) == WithUsage(a, usage) + WithUsage(b, usage)
  {
    if a != [] {
      assert (a + b)[0] == a[0];
      assert (a + b)[1..] == a[1..] + b;
      WithUsageAppend(a[1..], b, usage);
    } else {
      assert a + b == b;
    }
  }

  /** `FilterDriversByUsage`: the non-nil drivers of the requested usage, in input order. */
  method FilterDriversByUsage(allDrivers: seq<Option<Driver>>, usage: string) returns (filtered: seq<Driver>)
    ensures filtered == WithUsage(allDrivers, usage)
  {
    filtered := [];
    var skippedCount := 0;
    for i := 0 to |allDrivers|
      invariant WithUsage(allDrivers, usage) == filtered + WithUsage(allDrivers[i..], usage)
    {
      assert allDrivers[i..][1..] == allDrivers[i + 1..];
      if allDrivers[i].None? {
        skippedCount := skippedCount + 1;
        continue;
      }
      if allDrivers[i].value.usage == usage {
        filtered := filtered + [allDrivers[i].value];
      }
    }
  }

  /** The drivers that become payloads: the non-nil ones whose encoding succeeds, in order. */
  function Encodable(ds: seq<Option<Driver>>, marshal: Driver -> Result<string>): (r: seq<Driver>)
    ensures forall i :: 0 <= i < |r| ==> marshal(r[i]).Ok?
  {
    if ds == [] then []
    else
      var head := if ds[0].Some? && marshal(ds[0].value).Ok? then [ds[0].value] else [];
      head + Encodable(ds[1..], marshal)
  }

  /** The payload of an encodable driver: its type and its encoded text. */
  function PayloadOf(d: Driver, marshal: Driver -> Result<string>): Payload
    requires marshal(d).Ok?
  {
    Payload(d.driverType, marshal(d).value)
  }

  /** `BuildDriverConfigPayloads`: one payload per non-nil driver that encodes, in order, whose
      type is the driver's type and whose configuration is the driver's encoding; nil drivers
      and drivers that fail to encode give none. */
  method BuildDriverConfigPayloads(drivers: seq<Option<Driver>>, marshal: Driver -> Result<string>)
    returns (payloads: seq<Payload>)
    ensures var kept := Encodable(drivers, marshal);
      |payloads| == |kept| && forall i :: 0 <= i < |kept| ==> payloads[i] == PayloadOf(kept[i], marshal)
  {
    payloads := [];
    var skippedCount, failedCount := 0, 0;
    ghost var kept: seq<Driver> := [];
    for i := 0 to |drivers|
      invariant Encodable(drivers, marshal) == kept + Encodable(drivers[i..], marshal)
      invariant forall k :: 0 <= k < |kept| ==> marshal(kept[k]).Ok?
      invariant |payloads| == |kept| && forall k :: 0 <= k < |kept| ==> payloads[k] == PayloadOf(kept[k], marshal)
    {
      assert drivers[i..][1..] == drivers[i + 1..];
      if drivers[i].None? {
        skippedCount := skippedCount + 1;
        continue;
      }
      var driver := drivers[i].value;
      var driverBytes := marshal(driver);
      if driverBytes.Err? {
        failedCount := failedCount + 1;
        continue;
      }
      payloads := payloads + [Payload(driver.driverType, driverBytes.value)];
      kept := kept + [driver];
    }
  }

  /** The non-nil drivers of a list, in order. */
  function NonNil(ds: seq<Option<Driver>>): seq<Driver> {
    if ds == [] then [] else (if ds[0].Some? then [ds[0].value] else []) + NonNil(ds[1..])
  }

  /** When encoding never fails, every non-nil driver gives a payload, and only they do. */
  lemma {:induction false} AllEncodable(ds: seq<Option<Driver>>, marshal: Driver -> Result<string>)
    requires forall d :: marshal(d).Ok?
    ensures Encodable(ds, marshal) == NonNil(ds)
  {
    if ds != [] {
      AllEncodable(ds[1..], marshal);
    }
  }

  /** Payloads are never more than the non-nil drivers, and every payload's type is the type
      of a driver in the list. */
  lemma {:induction false} EncodableFromList(ds: seq<Option<Driver>>, marshal: Driver -> Result<string>)
    ensures |Encodable(ds, marshal)| <= |NonNil(ds)|
    ensures forall d :: d in Encodable(ds, marshal) ==> Some(d) in ds
  {
    if ds != [] {
      EncodableFromList(ds[1..], marshal);
      assert ds == [ds[0]] + ds[1..];
    }
  }
}
