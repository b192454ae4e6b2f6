/** The approver section of the switch form: one row per environment, each with an
    environment tag and a list of approver ids. The component searches the users who may
    approve, adds and removes approvers, and offers each row only the environments no
    other row has taken. */
module ApproverConfig {
  import opened Wrappers
  import opened StrUtil
  import opened JsonValue
  import opened ApprovalUtils

  datatype UserInfo = UserInfo(id: int, username: string)

  /** A user with the names of their permissions; `None` when the list is missing. */
  datatype Approver = Approver(userInfo: UserInfo, userPermissions: Option<seq<string>>)

  /** An environment choice: its display name (the `label`) and its tag. */
  datatype EnvOption = EnvOption(display: string, value: string)

  /** The permission that lets a user approve. */
  const ApprovePermission := "approvals:approve"

  // ---------------------------------------------------------------------------------------
  // Searching and permissions
  // ---------------------------------------------------------------------------------------

  /** `searchTexts[fieldKey] || ''`. */
  function SearchText(searchTexts: map<int, string>, fieldKey: int): string {
    if fieldKey in searchTexts then searchTexts[fieldKey] else ""
  }

  /** Whether a user's name contains the search text, ignoring ASCII case. */
  predicate MatchesSearch(a: Approver, searchText: string) {
    Contains(Lower(a.userInfo.username), Lower(searchText))
  }

  /** `availableApprovers.filter(...)` with a given search text. */
  function MatchingApprovers(approvers: seq<Approver>, searchText: string): (r: seq<Approver>)
    ensures |r| <= |approvers|
    ensures forall a :: a in r <==> a in approvers && MatchesSearch(a, searchText)
  {
    if approvers == [] then []
    else
      var head := if MatchesSearch(approvers[0], searchText) then [approvers[0]] else [];
      head + MatchingApprovers(approvers[1..], searchText)
  }

  /** `getFilteredApprovers(fieldKey)`: the users whose name contains the row's search
      text. */
  function FilteredApprovers(approvers: seq<Approver>, searchTexts: map<int, string>, fieldKey: int): (r: seq<Approver>)
    ensures forall a :: a in r <==> a in approvers && MatchesSearch(a, SearchText(searchTexts, fieldKey))
  {
    MatchingApprovers(approvers, SearchText(searchTexts, fieldKey))
  }

  /** Every text contains the empty text. */
  lemma EmptyMatchesAll(a: Approver)
    ensures MatchesSearch(a, "")
  {
    assert OccursAt(Lower(a.userInfo.username), Lower(""), 0);
  }

  /** A row without a search text lists every user, in order. */
  lemma {:induction false} NoSearchListsAll(approvers: seq<Approver>)
    ensures MatchingApprovers(approvers, "") == approvers
  {
    if approvers != [] {
      EmptyMatchesAll(approvers[0]);
      NoSearchListsAll(approvers[1..]);
    }
  }

  /** `hasApprovalPermission`: a permission list that names the approve permission. */
  predicate HasApprovalPermission(a: Approver) {
    a.userPermissions.Some? && ApprovePermission in a.userPermissions.value
  }

  /** `availableApprovers.find(a => a.userInfo.id === approverId)`. */
  function FindApprover(approvers: seq<Approver>, approverId: int): (r: Option<Approver>)
    ensures r.None? <==> forall i :: 0 <= i < |approvers| ==> approvers[i].userInfo.id != approverId
    ensures r.Some? ==> r.value in approvers && r.value.userInfo.id == approverId
  {
    if approvers == [] then None
    else if approvers[0].userInfo.id == approverId then Some(approvers[0])
    else
      var rest := FindApprover(approvers[1..], approverId);
      assert forall i :: 1 <= i < |approvers| ==> approvers[i] == approvers[1..][i - 1];
      rest
  }

  /** The approver found is the first one with that id. */
  lemma {:induction false} FindApproverFirst(approvers: seq<Approver>, approverId: int, i: nat)
    requires i < |approvers| && approvers[i].userInfo.id == approverId
    requires forall j :: 0 <= j < i ==> approvers[j].userInfo.id != approverId
    ensures FindApprover(approvers, approverId) == Some(approvers[i])
  {
    if i > 0 {
      FindApproverFirst(approvers[1..], approverId, i - 1);
    }
  }

  // ---------------------------------------------------------------------------------------
  // Approver lists
  // ---------------------------------------------------------------------------------------

  /** `form.getFieldValue([..., fieldName, 'approverUsers'])`. */
  function FieldValue(fields: map<int, Json>, fieldName: int): Json {
    if fieldName in fields then fields[fieldName] else JUndefined
  }

  /** The ids `addApprover` leaves in the row: the current ids, with the new one appended
      when it is not there yet (the field is rewritten only then). */
  function AddedIds(fields: map<int, Json>, fieldName: int, approverId: int, parse: string -> Result<Json>): (r: map<int, Json>)
    ensures JNum(approverId) in ParseApproverUsers(FieldValue(r, fieldName), parse)
    ensures forall f :: f != fieldName ==> FieldValue(r, f) == FieldValue(fields, f)
  {
    var current := ParseApproverUsers(FieldValue(fields, fieldName), parse);
    if JNum(approverId) in current then fields
    else fields[fieldName := JArr(current + [JNum(approverId)])]
  }

  /** An approver added to a row that lacked them ends up last, after the ids already
      there. */
  lemma AddAppends(fields: map<int, Json>, fieldName: int, approverId: int, parse: string -> Result<Json>)
    requires JNum(approverId) !in ParseApproverUsers(FieldValue(fields, fieldName), parse)
    ensures ParseApproverUsers(FieldValue(AddedIds(fields, fieldName, approverId, parse), fieldName), parse)
      == ParseApproverUsers(FieldValue(fields, fieldName), parse) + [JNum(approverId)]
  {
  }

  /** `ids.filter(id => id !== approverId)`. */
  function WithoutId(ids: seq<Json>, approverId: int): (r: seq<Json>)
    ensures |r| <= |ids|
    ensures forall x :: x in r <==> x in ids && x != JNum(approverId)
  {
    if ids == [] then []
    else (if ids[0] != JNum(approverId) then [ids[0]] else []) + WithoutId(ids[1..], approverId)
  }

  /** Removing an id that is not there leaves the list as it was. */
  lemma {:induction false} WithoutAbsentId(ids: seq<Json>, approverId: int)
    requires JNum(approverId) !in ids
    ensures WithoutId(ids, approverId) == ids
  {
    if ids != [] {
      WithoutAbsentId(ids[1..], approverId);
    }
  }

  // ---------------------------------------------------------------------------------------
  // Environment choices
  // ---------------------------------------------------------------------------------------

  /** `item?.envTag`. */
  function EnvTagOf(row: Json): Json {
    if row == JNull || row == JUndefined then JUndefined else Prop(row, "envTag")
  }

  /** `tag != null`, which excludes `undefined` too. */
  predicate IsSet(tag: Json) {
    tag != JNull && tag != JUndefined
  }

  /** The tags other rows have chosen: every row but the one at `skip`, without the unset
      ones. */
  function ChosenTags(rows: seq<Json>, skip: int): (r: seq<Json>)
    ensures |r| <= |rows|
    ensures forall t :: t in r <==> exists j :: 0 <= j < |rows| && j != skip && IsSet(EnvTagOf(rows[j])) && EnvTagOf(rows[j]) == t
    decreases |rows|
  {
    if rows == [] then []
    else
      var last := |rows| - 1;
      var rest := ChosenTags(rows[..last], skip);
      assert forall j :: 0 <= j < last ==> rows[..last][j] == rows[j];
      rest + (if last != skip && IsSet(EnvTagOf(rows[last])) then [EnvTagOf(rows[last])] else [])
  }

  /** The options kept: those whose tag was not chosen. */
  function Unchosen(options: seq<EnvOption>, chosen: seq<Json>): (r: seq<EnvOption>)
    ensures forall o :: o in r <==> o in options && JStr(o.value) !in chosen
  {
    if options == [] then []
    else (if JStr(options[0].value) in chosen then [] else [options[0]]) + Unchosen(options[1..], chosen)
  }

  /** `getAvailableEnvOptions(form, currentFieldName)` on the list of rows. */
  function AvailableEnvOptions(rows: seq<Json>, currentFieldName: int, envOptions: seq<EnvOption>): seq<EnvOption> {
    Unchosen(envOptions, ChosenTags(rows, currentFieldName))
  }

  /** An environment is offered to a row exactly when it is an option and no other row
      has chosen its tag. */
  lemma AvailableExactly(rows: seq<Json>, currentFieldName: int, envOptions: seq<EnvOption>, o: EnvOption)
    ensures o in AvailableEnvOptions(rows, currentFieldName, envOptions) <==>
              o in envOptions && forall j :: 0 <= j < |rows| && j != currentFieldName ==> EnvTagOf(rows[j]) != JStr(o.value)
  {
    var chosen := ChosenTags(rows, currentFieldName);
    if JStr(o.value) in chosen {
      var j :| 0 <= j < |rows| && j != currentFieldName && IsSet(EnvTagOf(rows[j])) && EnvTagOf(rows[j]) == JStr(o.value);
    }
  }

  /** A row's own tag stays on offer to that row when no other row shares it. */
  lemma OwnTagOffered(rows: seq<Json>, i: nat, envOptions: seq<EnvOption>, o: EnvOption)
    requires i < |rows| && o in envOptions && EnvTagOf(rows[i]) == JStr(o.value)
    requires forall j :: 0 <= j < |rows| && j != i ==> EnvTagOf(rows[j]) != JStr(o.value)
    ensures o in AvailableEnvOptions(rows, i, envOptions)
  {
    AvailableExactly(rows, i, envOptions, o);
  }

  /** The add button's test: fewer tags chosen than there are environments. */
  predicate HasAvailableEnv(rows: seq<Json>, envOptions: seq<EnvOption>) {
    |ChosenTags(rows, -1)| < |envOptions|
  }

  /** With fewer rows than environments a row can always be added. */
  lemma FewerRowsCanAdd(rows: seq<Json>, envOptions: seq<EnvOption>)
    requires |rows| < |envOptions|
    ensures HasAvailableEnv(rows, envOptions)
  {
  }

  // ---------------------------------------------------------------------------------------
  // The component
  // ---------------------------------------------------------------------------------------

  /** The component's state: the users it loaded, the search text per row, the form's
      approver field per row, and the users it warned about. */
  class ApproverSection {
    const availableApprovers: seq<Approver>
    const disabled: bool
    var searchTexts: map<int, string>
    var fields: map<int, Json>
    var warnings: seq<string>

    constructor(availableApprovers: seq<Approver>, disabled: bool, fields: map<int, Json>)
      ensures this.availableApprovers == availableApprovers && this.disabled == disabled
      ensures searchTexts == map[] && this.fields == fields && warnings == []
    {
      this.availableApprovers := availableApprovers;
      this.disabled := disabled;
      searchTexts := map[];
      this.fields := fields;
      warnings := [];
    }

    /** `updateSearchText`. */
    method UpdateSearchText(fieldKey: int, value: string)
      modifies this
      ensures searchTexts == old(searchTexts)[fieldKey := value]
      ensures fields == old(fields) && warnings == old(warnings)
    {
      searchTexts := searchTexts[fieldKey := value];
    }

    /** `cleanupSearchText`. */
    method CleanupSearchText(fieldKey: int)
      modifies this
      ensures searchTexts == old(searchTexts) - {fieldKey}
      ensures fields == old(fields) && warnings == old(warnings)
    {
      searchTexts := searchTexts - {fieldKey};
    }

    /** `addApprover`: nothing when disabled or the user is unknown; a warning naming a
        user without the approve permission; otherwise the id joins the row (once) and the
        row's search text is cleared. */
    method AddApprover(fieldName: int, fieldKey: int, approverId: int, parse: string -> Result<Json>)
      modifies this
      ensures var found := FindApprover(availableApprovers, approverId);
        if disabled || found.None? then
          searchTexts == old(searchTexts) && fields == old(fields) && warnings == old(warnings)
        else if !HasApprovalPermission(found.value) then
          searchTexts == old(searchTexts) && fields == old(fields)
          && warnings == old(warnings) + [found.value.userInfo.username]
        else
          fields == AddedIds(old(fields), fieldName, approverId, parse)
          && searchTexts == old(searchTexts)[fieldKey := ""] && warnings == old(warnings)
    {
      if disabled {
        return;
      }
      var approver := FindApprover(availableApprovers, approverId);
      if approver.None? {
        return;
      }
      if !HasApprovalPermission(approver.value) {
        warnings := warnings + [approver.value.userInfo.username];
        return;
      }
      var currentApprovers := ParseApproverUsers(FieldValue(fields, fieldName), parse);
      if JNum(approverId) !in currentApprovers {
        fields := fields[fieldName := JArr(currentApprovers + [JNum(approverId)])];
      }
      UpdateSearchText(fieldKey, "");
    }

    /** `removeApprover`: the row keeps every id but this one. */
    method RemoveApprover(fieldName: int, approverId: int, parse: string -> Result<Json>)
      modifies this
      ensures fields == old(fields)[fieldName := JArr(WithoutId(ParseApproverUsers(FieldValue(old(fields), fieldName), parse), approverId))]
      ensures searchTexts == old(searchTexts) && warnings == old(warnings)
    {
      var currentApprovers := ParseApproverUsers(FieldValue(fields, fieldName), parse);
      fields := fields[fieldName := JArr(WithoutId(currentApprovers, approverId))];
    }
  }

  /** A removed approver is gone from the row and every other approver stays. */
  lemma RemovedGone(fields: map<int, Json>, fieldName: int, approverId: int, parse: string -> Result<Json>)
    ensures var after := WithoutId(ParseApproverUsers(FieldValue(fields, fieldName), parse), approverId);
      JNum(approverId) !in ParseApproverUsers(JArr(after), parse)
      && forall x :: x in ParseApproverUsers(FieldValue(fields, fieldName), parse) && x != JNum(approverId) ==> x in after
  {
  }
}
