/** The approval service of the admin backend (`service.ApprovalService`): deciding an
    approval form (`ApproveRequest`) and building the view of one form for the approval
    list (`buildApprovalView`). The database transaction, the repositories and JSON
    decoding are the service's collaborators; their answers are parameters here. A failed
    transaction rolls back, so a failure commits no write. */
module ApprovalService {
  import opened Wrappers
  import StrUtil

  /** The texts of the approval statuses stored on a form. */
  const Pending: string := "PENDING"
  const Approved: string := "APPROVED"
  const Rejected: string := "REJECTED"

  const OnlyPending: string := "only pending requests can be approved"
  const UnknownType: string := "unknown approval type"
  const NilSwitch: string := "nil pointer dereference"

  /** What an approval form is about: joining a namespace, a switch change, or a type the
      service does not know. */
  datatype ApprovableType = NamespaceType | SwitchType | OtherType(name: string)

  /** An approval form (`admin_model.Approval`), read from the database and updated in
      place when it is decided. */
  class ApprovalForm {
    const id: nat
    const approvableType: ApprovableType
    const details: string
    const requesterUser: nat
    const approverUsers: string
    var status: string
    var approverUser: nat
    var approvalNotes: string
    var approvalTime: Option<int>
    var updateBy: string

    constructor (id: nat, approvableType: ApprovableType, details: string, requesterUser: nat, approverUsers: string)
      ensures this.id == id && this.approvableType == approvableType && this.details == details
      ensures this.requesterUser == requesterUser && this.approverUsers == approverUsers
      ensures status == Pending && approverUser == 0 && approvalNotes == "" && approvalTime == None && updateBy == ""
    {
      this.id := id;
      this.approvableType := approvableType;
      this.details := details;
      this.requesterUser := requesterUser;
      this.approverUsers := approverUsers;
      status := Pending;
      approverUser := 0;
      approvalNotes := "";
      approvalTime := None;
      updateBy := "";
    }
  }

  /** The decision sent by the approver (`dto.SwitchApprovalReqBody`): status 0 rejects,
      anything else approves. */
  datatype ApprovalRequest = ApprovalRequest(id: nat, uid: nat, uname: string, notes: string, status: nat)

  /** The switch reference inside a switch-change form; the switch may be missing. */
  datatype SwitchRef = SwitchRef(id: nat, version: nat)
  datatype SwitchApprovalForm = SwitchApprovalForm(changes: string, switchModel: Option<SwitchRef>)

  /** The answer to looking a switch up by id and version. */
  datatype SwitchLookup = Found | NotFound | LookupError(msg: string)

  /** The answers of the collaborators `ApproveRequest` calls, in the order it calls them. */
  datatype Backend = Backend(
    updateForm: Outcome,
    addMember: Outcome,
    createRole: Outcome,
    lookup: SwitchLookup,
    updateSwitch: Outcome)

  /** The JSON decoders: a namespace form's tag, a switch form, and the rule tree of the
      changes (only whether it decodes matters). */
  datatype Decoders = Decoders(
    namespaceTag: string -> Result<string>,
    switchForm: string -> Result<SwitchApprovalForm>,
    ruleTree: string -> Outcome)

  /** A database write issued inside the transaction. */
  datatype Write =
    | FormUpdated(formId: nat, status: string)
    | MemberAdded(userId: nat, namespaceTag: string)
    | OrdinaryRoleGranted(userId: nat, namespaceTag: string)
    | SwitchApprovalUpdated(switchId: nat, status: string)

  /** The status a decision moves a form to: only a pending form can be decided, and
      status 0 rejects it, anything else approves it. */
  function Transition(current: string, requested: nat): (r: Result<string>)
    ensures r.Ok? <==> current == Pending
    ensures r.Err? ==> r.msg == OnlyPending
    ensures r.Ok? ==> (r.value == Rejected <==> requested == 0)
    ensures r.Ok? ==> (r.value == Approved <==> requested != 0)
  {
    if current != Pending then Err(OnlyPending)
    else Ok(if requested == 0 then Rejected else Approved)
  }

  /** A decided form can never be decided again. */
  lemma DecidedIsFinal(requested: nat, again: nat)
    ensures Transition(Transition(Pending, requested).value, again) == Err(OnlyPending)
  {
  }

  /** What follows the form update, by approvable type: a namespace form adds the requester
      to the namespace with the ordinary role; a switch form records the new status on the
      switch, unless the switch version it refers to is gone. */
  function AfterDecision(form: (ApprovableType, string, nat), status: string, b: Backend, dec: Decoders)
    : (r: (Outcome, seq<Write>))
    ensures r.0.Fail? ==> r.1 == []
    ensures form.0.OtherType? ==> r == (Fail(UnknownType), [])
    ensures r.0.Pass? && form.0.NamespaceType? ==>
      (dec.namespaceTag(form.1).Ok?
       && r.1 == [MemberAdded(form.2, dec.namespaceTag(form.1).value), OrdinaryRoleGranted(form.2, dec.namespaceTag(form.1).value)])
    ensures r.0.Pass? && form.0.SwitchType? ==>
      (dec.switchForm(form.1).Ok? && dec.switchForm(form.1).value.switchModel.Some?
       && (b.lookup.NotFound? <==> r.1 == [])
       && (b.lookup.Found? ==> r.1 == [SwitchApprovalUpdated(dec.switchForm(form.1).value.switchModel.value.id, status)]))
  {
    var (kind, details, requester) := form;
    match kind
    case NamespaceType =>
      var tag := dec.namespaceTag(details);
      if tag.Err? then (Fail(tag.msg), [])
      else if b.addMember.Fail? then (b.addMember, [])
      else if b.createRole.Fail? then (b.createRole, [])
      else (Pass, [MemberAdded(requester, tag.value), OrdinaryRoleGranted(requester, tag.value)])
    case SwitchType =>
      var sf := dec.switchForm(details);
      if sf.Err? then (Fail(sf.msg), [])
      else
        var rule := dec.ruleTree(sf.value.changes);
        if rule.Fail? then (rule, [])
        else if sf.value.switchModel.None? then (Fail(NilSwitch), [])
        else
          (match b.lookup
           case NotFound => (Pass, [])
           case LookupError(m) => (Fail(m), [])
           case Found =>
             if b.updateSwitch.Fail? then (b.updateSwitch, [])
             else (Pass, [SwitchApprovalUpdated(sf.value.switchModel.value.id, status)]))
    case OtherType(_) => (Fail(UnknownType), [])
  }

  /** A switch whose version changed while the form waited is left alone, and the
      decision still succeeds. */
  lemma StaleSwitchSkipped(details: string, requester: nat, status: string, b: Backend, dec: Decoders)
    requires b.lookup.NotFound?
    requires dec.switchForm(details).Ok? && dec.ruleTree(dec.switchForm(details).value.changes).Pass?
    requires dec.switchForm(details).value.switchModel.Some?
    ensures AfterDecision((SwitchType, details, requester), status, b, dec) == (Pass, [])
  {
  }

  /** `ApproveRequest`: the form must be found and pending; it then records the new status,
      the notes, the approver and the time, is saved, and the approvable type decides what
      else is written. `writes` is what the transaction commits: nothing on failure. */
  method ApproveRequest(fetched: Result<ApprovalForm>, req: ApprovalRequest, now: int, b: Backend, dec: Decoders)
    returns (r: Outcome, writes: seq<Write>)
    modifies if fetched.Ok? then {fetched.value} else {}
    ensures r.Fail? ==> writes == []
    ensures fetched.Err? ==> r == Fail("failed to get approval request: " + fetched.msg)
    ensures fetched.Ok? && old(fetched.value.status) != Pending ==>
      r == Fail(OnlyPending) && unchanged(fetched.value)
    ensures fetched.Ok? && old(fetched.value.status) == Pending ==>
      var f := fetched.value;
      f.status == Transition(Pending, req.status).value
        && f.approvalNotes == req.notes && f.approverUser == req.uid
        && f.approvalTime == Some(now) && f.updateBy == req.uname
        && (b.updateForm.Fail? ==> r == Fail("failed to update approval form: " + b.updateForm.msg))
        && (b.updateForm.Pass? ==>
              var (o, ws) := AfterDecision((f.approvableType, f.details, f.requesterUser), f.status, b, dec);
              r == o && (r.Pass? ==> writes == [FormUpdated(f.id, f.status)] + ws))
  {
    if fetched.Err? {
      return Fail("failed to get approval request: " + fetched.msg), [];
    }
    var form := fetched.value;
    if form.status != Pending {
      return Fail(OnlyPending), [];
    }
    if req.status == 0 {
      form.status := Rejected;
    } else {
      form.status := Approved;
    }
    form.approvalNotes := req.notes;
    form.approverUser := req.uid;
    form.approvalTime := Some(now);
    form.updateBy := req.uname;
    if b.updateForm.Fail? {
      return Fail("failed to update approval form: " + b.updateForm.msg), [];
    }
    var (o, ws) := AfterDecision((form.approvableType, form.details, form.requesterUser), form.status, b, dec);
    if o.Fail? {
      return o, [];
    }
    return o, [FormUpdated(form.id, form.status)] + ws;
  }

  // ---------------------------------------------------------------------------------
  // The view of one form

  /** The form's subject as decoded for the view. */
  datatype Approvable = NoApprovable | SwitchApprovable(form: SwitchApprovalForm) | NamespaceApprovable(tag: string)

  /** `dto.ApprovalDetailView`: the labels the approval list shows next to the form. */
  datatype View = View(
    formId: nat, approvable: Approvable, approvableLabel: string, statusStr: string,
    requesterUserStr: string, approverUserStr: string, approverUsersStr: string)

  /** The label of a status; a status the service does not know gets none. */
  function StatusLabel(status: string): (r: string)
    ensures status == Pending ==> r == "审批中"
    ensures status == Approved ==> r == "已通过"
    ensures status == Rejected ==> r == "已拒绝"
    ensures status !in {Pending, Approved, Rejected} ==> r == ""
  {
    if status == Pending then "审批中"
    else if status == Approved then "已通过"
    else if status == Rejected then "已拒绝"
    else ""
  }

  /** Every known status has its own label, and only known statuses have one. */
  lemma StatusLabelsDistinct(s: string, t: string)
    ensures StatusLabel(s) != "" <==> s in {Pending, Approved, Rejected}
    ensures StatusLabel(s) != "" && StatusLabel(s) == StatusLabel(t) ==> s == t
  {
  }

  /** The user name of `id`, or "" for an id the mapping does not know. */
  function UserName(userMapping: map<nat, string>, id: nat): string {
    if id in userMapping then userMapping[id] else ""
  }

  /** The names of the ids the mapping knows, in the order of the ids; unknown ids are
      dropped. */
  function KnownNames(ids: seq<nat>, userMapping: map<nat, string>): (r: seq<string>)
    ensures |r| <= |ids|
  {
    if ids == [] then []
    else
      var last := ids[|ids| - 1];
      KnownNames(ids[..|ids| - 1], userMapping) + (if last in userMapping then [userMapping[last]] else [])
  }

  /** A name is listed exactly when one of the ids maps to it. */
  lemma {:induction false} KnownNamesMembers(ids: seq<nat>, userMapping: map<nat, string>, name: string)
    ensures name in KnownNames(ids, userMapping) <==>
      exists i :: 0 <= i < |ids| && ids[i] in userMapping && userMapping[ids[i]] == name
  {
    if ids != [] {
      var init := ids[..|ids| - 1];
      KnownNamesMembers(init, userMapping, name);
      if i :| 0 <= i < |ids| && ids[i] in userMapping && userMapping[ids[i]] == name {
        if i < |ids| - 1 {
          assert ids[i] == init[i];
        }
      }
      if name in KnownNames(init, userMapping) {
        var i :| 0 <= i < |init| && init[i] in userMapping && userMapping[init[i]] == name;
        assert ids[i] == init[i];
      }
    }
  }

  /** With every id known, each id gives exactly one name, in order. */
  lemma {:induction false} AllKnown(ids: seq<nat>, userMapping: map<nat, string>)
    requires forall i :: 0 <= i < |ids| ==> ids[i] in userMapping
    ensures |KnownNames(ids, userMapping)| == |ids|
    ensures forall i :: 0 <= i < |ids| ==> KnownNames(ids, userMapping)[i] == userMapping[ids[i]]
  {
    if ids != [] {
      AllKnown(ids[..|ids| - 1], userMapping);
    }
  }

  /** `strings.Join(names, ",")`, which gives "" for no names. */
  function JoinComma(names: seq<string>): string {
    if names == [] then "" else StrUtil.Join(names, ',')
  }

  /** The names of the approvers, gathered id by id. */
  method ApproverNames(approverIds: seq<nat>, userMapping: map<nat, string>) returns (names: seq<string>)
    ensures names == KnownNames(approverIds, userMapping)
  {
    names := [];
    for i := 0 to |approverIds|
      invariant names == KnownNames(approverIds[..i], userMapping)
    {
      assert approverIds[..i + 1][..i] == approverIds[..i];
      if approverIds[i] in userMapping {
        names := names + [userMapping[approverIds[i]]];
      }
    }
    assert approverIds[..|approverIds|] == approverIds;
  }

  /** A form whose details do not decode for its type. */
  predicate Undecodable(approval: ApprovalForm, dec: Decoders)
    reads approval
  {
    (approval.approvableType.SwitchType? && dec.switchForm(approval.details).Err?)
      || (approval.approvableType.NamespaceType? && dec.namespaceTag(approval.details).Err?)
  }

  /** The approver list shown: the known names bracketed and comma-separated, when the
      form has approvers; "" otherwise. */
  function ApproversText(formId: nat, userMapping: map<nat, string>, approverLists: map<nat, seq<nat>>): (r: string)
    ensures formId in approverLists && |approverLists[formId]| > 0 ==> |r| >= 2 && r[0] == '[' && r[|r| - 1] == ']'
    ensures !(formId in approverLists && |approverLists[formId]| > 0) ==> r == ""
  {
    if formId in approverLists && |approverLists[formId]| > 0
    then "[" + JoinComma(KnownNames(approverLists[formId], userMapping)) + "]"
    else ""
  }

  /** `buildApprovalView`: a form whose details do not decode has no view; an unknown type
      gets no label; the status, the requester and the approver get their labels, or ""
      when unknown; the approver list is shown, bracketed, only when the form has
      approvers. */
  method BuildApprovalView(approval: ApprovalForm, userMapping: map<nat, string>, approverLists: map<nat, seq<nat>>, dec: Decoders)
    returns (v: Option<View>)
    ensures v.None? <==> Undecodable(approval, dec)
    ensures v.Some? ==> v.value.formId == approval.id && v.value.statusStr == StatusLabel(approval.status)
    ensures v.Some? && approval.approvableType.SwitchType? ==> v.value.approvableLabel == "开关变更"
    ensures v.Some? && approval.approvableType.SwitchType? ==> v.value.approvable == SwitchApprovable(dec.switchForm(approval.details).value)
    ensures v.Some? && approval.approvableType.NamespaceType? ==> v.value.approvableLabel == "命名空间变更"
    ensures v.Some? && approval.approvableType.NamespaceType? ==> v.value.approvable == NamespaceApprovable(dec.namespaceTag(approval.details).value)
    ensures v.Some? && approval.approvableType.OtherType? ==> v.value.approvable == NoApprovable && v.value.approvableLabel == ""
    ensures v.Some? ==> v.value.requesterUserStr == UserName(userMapping, approval.requesterUser)
    ensures v.Some? ==> v.value.approverUserStr == UserName(userMapping, approval.approverUser)
    ensures v.Some? ==> v.value.approverUsersStr == ApproversText(approval.id, userMapping, approverLists)
  {
    var approvable := NoApprovable;
    var kindLabel := "";
    match approval.approvableType {
      case SwitchType =>
        var sf := dec.switchForm(approval.details);
        if sf.Err? {
          return None;
        }
        approvable := SwitchApprovable(sf.value);
        kindLabel := "开关变更";
      case NamespaceType =>
        var tag := dec.namespaceTag(approval.details);
        if tag.Err? {
          return None;
        }
        approvable := NamespaceApprovable(tag.value);
        kindLabel := "命名空间变更";
      case OtherType(_) =>
    }
    var statusStr := StatusLabel(approval.status);
    var requesterStr := UserName(userMapping, approval.requesterUser);
    var approverStr := UserName(userMapping, approval.approverUser);
    var approversStr := "";
    if approval.id in approverLists && |approverLists[approval.id]| > 0 {
      var names := ApproverNames(approverLists[approval.id], userMapping);
      approversStr := "[" + JoinComma(names) + "]";
    }
    return Some(View(approval.id, approvable, kindLabel, statusStr, requesterStr, approverStr, approversStr));
  }
}
