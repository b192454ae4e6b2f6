/** The conversions of an approval's `approverUsers` field: the back end stores the approver
    ids as JSON text, the form edits them as an array. `JSON.parse` and `JSON.stringify` are
    parameters. */
module ApprovalUtils {
  import opened Wrappers
  import opened JsonValue

  /** `parseApproverUsers`: a falsy value gives no ids, an array is returned as it is, and
      anything else is parsed as JSON text (an object as `[object Object]`), keeping the
      result only when it is an array. A parse error gives no ids. */
  function ParseApproverUsers(v: Json, parse: string -> Result<Json>): (r: seq<Json>)
    ensures !Truthy(v) ==> r == []
    ensures v.JArr? ==> r == v.items
  {
    if !Truthy(v) then []
    else if v.JArr? then v.items
    else
      var parsed := parse(JsString(v));
      if parsed.Ok? && parsed.value.JArr? then parsed.value.items else []
  }

  /** The text case, the one that matters: an array text gives its elements, anything
      else no ids. */
  lemma ParseText(s: string, parse: string -> Result<Json>)
    requires s != ""
    ensures parse(s).Ok? && parse(s).value.JArr? ==> ParseApproverUsers(JStr(s), parse) == parse(s).value.items
    ensures parse(s).Err? || !parse(s).value.JArr? ==> ParseApproverUsers(JStr(s), parse) == []
  {
  }

  /** `stringifyApproverUsers`: text is kept, an array is serialised and anything else
      becomes `[]`. */
  function StringifyApproverUsers(v: Json, stringify: Json -> string): (r: string)
    ensures v.JStr? ==> r == v.s
    ensures !v.JStr? && !v.JArr? ==> r == "[]"
  {
    if v.JStr? then v.s
    else if v.JArr? then stringify(v)
    else "[]"
  }

  /** Whether `parse` reads back what `stringify` writes for this array. */
  predicate ReadsBack(xs: seq<Json>, parse: string -> Result<Json>, stringify: Json -> string) {
    stringify(JArr(xs)) != "" && parse(stringify(JArr(xs))) == Ok(JArr(xs))
  }

  /** An id list written for the back end and read back for the form is the same list. */
  lemma StringifyThenParse(xs: seq<Json>, parse: string -> Result<Json>, stringify: Json -> string)
    requires ReadsBack(xs, parse, stringify)
    ensures ParseApproverUsers(JStr(StringifyApproverUsers(JArr(xs), stringify)), parse) == xs
  {
  }

  /** Text read for the form and written back is the same text when it was the serialised
      form of an array. */
  lemma ParseThenStringify(xs: seq<Json>, parse: string -> Result<Json>, stringify: Json -> string)
    requires ReadsBack(xs, parse, stringify)
    ensures StringifyApproverUsers(JArr(ParseApproverUsers(JStr(stringify(JArr(xs))), parse)), stringify)
      == stringify(JArr(xs))
  {
  }

  /** `approvals || []` followed by a `.map`: the elements, or `None` when the value is
      truthy but has no `map`, which throws. */
  function ListOf(approvals: Json): Option<seq<Json>> {
    if !Truthy(approvals) then Some([])
    else if approvals.JArr? then Some(approvals.items)
    else None
  }

  /** `{ ...approval, approverUsers: value }`, or `None` where reading
      `approval.approverUsers` throws (on `null` and `undefined`). */
  function WithApproverUsers(approval: Json, value: Json): (r: Option<Json>)
    ensures r.Some? <==> approval != JNull && approval != JUndefined
    ensures r.Some? ==> r.value.JObj? && Lookup(r.value.props, "approverUsers") == value
    ensures r.Some? ==> forall k :: k != "approverUsers" ==> Lookup(r.value.props, k) == Lookup(Entries(approval), k)
  {
    if approval == JNull || approval == JUndefined then None
    else Some(JObj(Put(Entries(approval), "approverUsers", value)))
  }

  /** `processApprovalsForForm` on a list: every approval with its ids as an array. */
  function ForFormAll(approvals: seq<Json>, parse: string -> Result<Json>): (r: Option<seq<Json>>)
    ensures r.Some? ==> |r.value| == |approvals|
  {
    if approvals == [] then Some([])
    else
      var head := WithApproverUsers(approvals[0], JArr(ParseApproverUsers(Prop(approvals[0], "approverUsers"), parse)));
      var rest := ForFormAll(approvals[1..], parse);
      if head.None? || rest.None? then None else Some([head.value] + rest.value)
  }

  /** `processApprovalsForSubmit` on a list: every approval with its ids as text. */
  function ForSubmitAll(approvals: seq<Json>, stringify: Json -> string): (r: Option<seq<Json>>)
    ensures r.Some? ==> |r.value| == |approvals|
  {
    if approvals == [] then Some([])
    else
      var head := WithApproverUsers(approvals[0], JStr(StringifyApproverUsers(Prop(approvals[0], "approverUsers"), stringify)));
      var rest := ForSubmitAll(approvals[1..], stringify);
      if head.None? || rest.None? then None else Some([head.value] + rest.value)
  }

  /** `processApprovalsForForm`. */
  function ProcessApprovalsForForm(approvals: Json, parse: string -> Result<Json>): Option<seq<Json>> {
    var list := ListOf(approvals);
    if list.None? then None else ForFormAll(list.value, parse)
  }

  /** `processApprovalsForSubmit`. */
  function ProcessApprovalsForSubmit(approvals: Json, stringify: Json -> string): Option<seq<Json>> {
    var list := ListOf(approvals);
    if list.None? then None else ForSubmitAll(list.value, stringify)
  }

  /** The form conversion succeeds exactly when no approval is `null` or `undefined`, and
      then gives each approval its ids as an array while keeping its other fields. */
  lemma {:induction false} ForFormEach(approvals: seq<Json>, parse: string -> Result<Json>, i: nat)
    requires i < |approvals|
    ensures ForFormAll(approvals, parse).None? ==> exists j :: 0 <= j < |approvals| && (approvals[j] == JNull || approvals[j] == JUndefined)
    ensures ForFormAll(approvals, parse).Some? ==>
      Some(ForFormAll(approvals, parse).value[i])
        == WithApproverUsers(approvals[i], JArr(ParseApproverUsers(Prop(approvals[i], "approverUsers"), parse)))
    decreases |approvals|
  {
    var head := WithApproverUsers(approvals[0], JArr(ParseApproverUsers(Prop(approvals[0], "approverUsers"), parse)));
    if |approvals| > 1 {
      ForFormEach(approvals[1..], parse, if i == 0 then 0 else i - 1);
      if ForFormAll(approvals[1..], parse).None? {
        var j :| 0 <= j < |approvals[1..]| && (approvals[1..][j] == JNull || approvals[1..][j] == JUndefined);
        assert approvals[j + 1] == approvals[1..][j];
      }
    }
    if head.None? {
      assert approvals[0] == JNull || approvals[0] == JUndefined;
    }
  }

  /** The submit conversion gives each approval its ids as text and keeps its other
      fields. */
  lemma {:induction false} ForSubmitEach(approvals: seq<Json>, stringify: Json -> string, i: nat)
    requires i < |approvals|
    ensures ForSubmitAll(approvals, stringify).Some? ==>
      Some(ForSubmitAll(approvals, stringify).value[i])
        == WithApproverUsers(approvals[i], JStr(StringifyApproverUsers(Prop(approvals[i], "approverUsers"), stringify)))
    decreases |approvals|
  {
    if i > 0 {
      ForSubmitEach(approvals[1..], stringify, i - 1);
    }
  }

  /** Neither conversion fails on a list without `null` or `undefined` approvals. */
  lemma {:induction false} ConversionsDefined(approvals: seq<Json>, parse: string -> Result<Json>, stringify: Json -> string)
    requires forall j :: 0 <= j < |approvals| ==> approvals[j] != JNull && approvals[j] != JUndefined
    ensures ForFormAll(approvals, parse).Some? && ForSubmitAll(approvals, stringify).Some?
    decreases |approvals|
  {
    if approvals != [] {
      ConversionsDefined(approvals[1..], parse, stringify);
    }
  }

  /** An approval prepared for the form, submitted, and prepared again holds the same ids
      when the serialiser and the parser agree on them. */
  lemma ApprovalRoundTrip(approval: Json, parse: string -> Result<Json>, stringify: Json -> string)
    requires approval != JNull && approval != JUndefined
    requires ReadsBack(ParseApproverUsers(Prop(approval, "approverUsers"), parse), parse, stringify)
    ensures var ids := ParseApproverUsers(Prop(approval, "approverUsers"), parse);
      var form := WithApproverUsers(approval, JArr(ids)).value;
      var submit := WithApproverUsers(form, JStr(StringifyApproverUsers(Prop(form, "approverUsers"), stringify))).value;
      ParseApproverUsers(Prop(submit, "approverUsers"), parse) == ids
  {
    var ids := ParseApproverUsers(Prop(approval, "approverUsers"), parse);
    StringifyThenParse(ids, parse, stringify);
  }
}
