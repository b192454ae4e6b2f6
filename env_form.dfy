/** The environment form's submit path and its driver check: temporary (negative) driver
    ids become 0, the values are merged over the edited environment, the namespace is
    attached, and each driver's type gets its usage as a suffix. Before that, the drivers
    step insists on at least one producer and one consumer. */
module EnvForm {
  import opened Wrappers
  import opened StrUtil
  import opened JsonValue

  // ---------------------------------------------------------------------------------------
  // onFinish
  // ---------------------------------------------------------------------------------------

  /** `d.id < 0` on the number ids the form holds; any other value compares false. */
  predicate HasTempId(d: Json) {
    Prop(d, "id").JNum? && Prop(d, "id").n < 0
  }

  /** A driver with a temporary id gets id 0; every driver is copied. */
  function NormalisedDriver(d: Json): (r: Json)
    ensures r.JObj?
    ensures HasTempId(d) ==> Get(r, "id") == JNum(0)
    ensures !HasTempId(d) ==> r.props == Entries(d)
    ensures forall k :: k != "id" ==> Get(r, k) == Lookup(Entries(d), k)
  {
    if HasTempId(d) then JObj(Put(Entries(d), "id", JNum(0))) else JObj(Entries(d))
  }

  /** `formValues.drivers.map(...)`. */
  function NormalisedDrivers(drivers: seq<Json>): (r: seq<Json>)
    ensures |r| == |drivers|
    ensures forall i :: 0 <= i < |drivers| ==> r[i] == NormalisedDriver(drivers[i])
  {
    if drivers == [] then []
    else
      var rest := NormalisedDrivers(drivers[1..]);
      var r := [NormalisedDriver(drivers[0])] + rest;
      assert forall i :: 1 <= i < |drivers| ==> r[i] == rest[i - 1] && drivers[i] == drivers[1..][i - 1];
      r
  }

  /** No driver leaves the form with a negative id; others keep theirs. */
  lemma NoTempIdsSubmitted(drivers: seq<Json>, i: nat)
    requires i < |drivers|
    ensures !HasTempId(NormalisedDrivers(drivers)[i])
    ensures !HasTempId(drivers[i]) ==> Get(NormalisedDrivers(drivers)[i], "id") == Lookup(Entries(drivers[i]), "id")
  {
    EntriesNamed(drivers[i], "id");
  }

  /** `{ ...values, ...formValues, drivers: newDrivers }`. */
  function FinalValues(values: Json, formValues: Json, drivers: seq<Json>): (r: Json)
    ensures r.JObj? && Lookup(r.props, "drivers") == JArr(NormalisedDrivers(drivers))
  {
    JObj(Put(Merge(Entries(values), Entries(formValues)), "drivers", JArr(NormalisedDrivers(drivers))))
  }

  /** The other fields come from the form when it has them, otherwise from the environment
      being edited. */
  lemma FinalValuesFields(values: Json, formValues: Json, drivers: seq<Json>, k: string)
    requires k != "drivers" && DistinctKeys(Entries(formValues))
    ensures Get(FinalValues(values, formValues, drivers), k)
      == if k in Keys(Entries(formValues)) then Lookup(Entries(formValues), k) else Lookup(Entries(values), k)
  {
    MergeLookup(Entries(values), Entries(formValues), k);
  }

  // ---------------------------------------------------------------------------------------
  // The request
  // ---------------------------------------------------------------------------------------

  /** `item.driverType + "_" + item.usage`, with JavaScript's conversions to text. */
  function SuffixedType(item: Json): string {
    JsString(Prop(item, "driverType")) + "_" + JsString(Prop(item, "usage"))
  }

  /** `{ ...item, driverType: ... }`, or `None` where reading a field of `null` or
      `undefined` throws. */
  function Suffixed(item: Json): (r: Option<Json>)
    ensures r.Some? <==> item != JNull && item != JUndefined
    ensures r.Some? ==> r.value.JObj? && Lookup(r.value.props, "driverType") == JStr(SuffixedType(item))
  {
    if item == JNull || item == JUndefined then None
    else Some(JObj(Put(Entries(item), "driverType", JStr(SuffixedType(item)))))
  }

  /** The drivers list, each with its suffixed type. */
  function SuffixedAll(items: seq<Json>): (r: Option<seq<Json>>)
    ensures r.Some? ==> |r.value| == |items|
  {
    if items == [] then Some([])
    else
      var head := Suffixed(items[0]);
      var rest := SuffixedAll(items[1..]);
      if head.None? || rest.None? then None else Some([head.value] + rest.value)
  }

  /** Each driver sent has type `<driverType>_<usage>`. */
  lemma {:induction false} SuffixedEach(items: seq<Json>, i: nat)
    requires i < |items| && SuffixedAll(items).Some?
    ensures Get(SuffixedAll(items).value[i], "driverType") == JStr(SuffixedType(items[i]))
    decreases |items|
  {
    if i > 0 {
      SuffixedEach(items[1..], i - 1);
    }
  }

  /** A driver whose type and usage are text is sent as `type_usage`. */
  lemma TextFieldsSuffixed(item: Json, driverType: string, usage: string)
    requires item.JObj? && Lookup(item.props, "driverType") == JStr(driverType) && Lookup(item.props, "usage") == JStr(usage)
    ensures Suffixed(item) == Some(JObj(Put(item.props, "driverType", JStr(driverType + "_" + usage))))
  {
  }

  /** The request parameters: the namespace when one is selected, and the suffixed
      drivers when there are any; `None` when a truthy `drivers` cannot be mapped. */
  function RequestParams(params: Json, selectNamespace: string): (r: Option<Json>)
    ensures r.Some? ==> r.value.JObj?
    ensures r.Some? && selectNamespace != "" ==> Lookup(r.value.props, "select_namespace") == JStr(selectNamespace)
    ensures r.Some? && !Truthy(Lookup(Entries(params), "drivers"))
      ==> Lookup(r.value.props, "drivers") == Lookup(Entries(params), "drivers")
  {
    var p := Entries(params);
    var withNs := if selectNamespace != "" then Put(p, "select_namespace", JStr(selectNamespace)) else p;
    var drivers := Lookup(p, "drivers");
    if !Truthy(drivers) then Some(JObj(withNs))
    else if !drivers.JArr? then None
    else
      var mapped := SuffixedAll(drivers.items);
      if mapped.None? then None else Some(JObj(Put(withNs, "drivers", JArr(mapped.value))))
  }

  // ---------------------------------------------------------------------------------------
  // The drivers step's validator
  // ---------------------------------------------------------------------------------------

  /** `drivers.some(driver => driver.usage === usage)`. */
  predicate HasUsage(drivers: seq<Json>, usage: string) {
    exists i :: 0 <= i < |drivers| && Prop(drivers[i], "usage") == JStr(usage)
  }

  datatype Verdict = Resolved | ProducerRequired | ConsumerRequired

  /** The validator's answer and the tab it switches to, if any. `activeTab` is `None`
      when the driver list's handle is not there yet. */
  datatype Check = Check(verdict: Verdict, switchTo: Option<string>)

  /** The drivers validator, on `value || []`. */
  function ValidateDrivers(value: seq<Json>, activeTab: Option<string>): (r: Check) {
    var hasProducer := HasUsage(value, "producer");
    var hasConsumer := HasUsage(value, "consumer");
    if activeTab.None? then Check(Resolved, None)
    else if activeTab.value == "producer" && !hasProducer then Check(ProducerRequired, None)
    else if activeTab.value == "producer" && !hasConsumer then Check(ConsumerRequired, Some("consumer"))
    else if activeTab.value == "consumer" && !hasConsumer then Check(ConsumerRequired, None)
    else if activeTab.value == "consumer" && !hasProducer then Check(ProducerRequired, Some("producer"))
    else Check(Resolved, None)
  }

  /** On either tab the drivers pass exactly when there is a producer and a consumer; the
      complaint is about the current tab's usage first, and a complaint about the other
      usage moves to the other tab. */
  lemma ValidateDriversOnTab(value: seq<Json>, tab: string)
    requires tab == "producer" || tab == "consumer"
    ensures var r := ValidateDrivers(value, Some(tab));
      (r.verdict == Resolved <==> HasUsage(value, "producer") && HasUsage(value, "consumer"))
      && (!HasUsage(value, tab) ==> r == Check(if tab == "producer" then ProducerRequired else ConsumerRequired, None))
      && (r.switchTo.Some? ==>
            r.switchTo.value != tab && !HasUsage(value, r.switchTo.value)
            && r.verdict == (if r.switchTo.value == "producer" then ProducerRequired else ConsumerRequired))
  {
  }

  /** Without the handle, or on another tab, nothing is checked. */
  lemma ValidateDriversElsewhere(value: seq<Json>, activeTab: Option<string>)
    requires activeTab.None? || (activeTab.value != "producer" && activeTab.value != "consumer")
    ensures ValidateDrivers(value, activeTab) == Check(Resolved, None)
  {
  }
}
