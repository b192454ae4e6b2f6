/** The switch service of the admin backend (`service.SwitchService`): creating and editing a
    switch, checking a factor's JSON Schema, and promoting a switch through the environments
    of its namespace one push at a time, with or without approval. The repositories, the
    database transaction, the notifier and the request's user are the service's
    collaborators; their answers are parameters here. A failed transaction rolls back, so it
    commits no write; timestamps are not modelled. */
module SwitchService {
  import opened Wrappers
  import opened StrUtil
  import opened JsonValue
  import opened Model
  import opened FactorFilter

  /** An environment of a namespace (`admin_model.Environment`), in promotion order. */
  datatype Environment = Environment(tag: string, name: string)

  // ---------------------------------------------------------------------------------
  // The next environment of a switch

  /** The position of the first environment tagged `tag`, or -1 when there is none. */
  function TagIndex(envs: seq<Environment>, tag: string): (r: int)
    ensures -1 <= r < |envs|
    ensures r >= 0 ==> envs[r].tag == tag && forall k :: 0 <= k < r ==> envs[k].tag != tag
    ensures r == -1 ==> forall k :: 0 <= k < |envs| ==> envs[k].tag != tag
    decreases |envs|
  {
    if envs == [] then -1
    else if envs[0].tag == tag then 0
    else
      var k := TagIndex(envs[1..], tag);
      if k == -1 then -1 else k + 1
  }

  /** The environment a switch standing at `current` moves to next, or -1 when it has none:
      a switch nowhere yet, or at an environment no longer listed, starts over at the first
      environment; one at the last environment has gone all the way. */
  function NextIndex(current: string, envs: seq<Environment>): int {
    if |envs| == 0 then -1
    else if current == "" then 0
    else
      var k := TagIndex(envs, current);
      if k == -1 then 0
      else if k >= |envs| - 1 then -1
      else k + 1
  }

  /** The next index, case by case. */
  lemma NextIndexCases(current: string, envs: seq<Environment>)
    ensures |envs| == 0 ==> NextIndex(current, envs) == -1
    ensures |envs| > 0 && current == "" ==> NextIndex(current, envs) == 0
    ensures |envs| > 0 && (forall k :: 0 <= k < |envs| ==> envs[k].tag != current) ==> NextIndex(current, envs) == 0
    ensures (|envs| > 0 && current != "" && envs[|envs| - 1].tag == current
             && (forall k :: 0 <= k < |envs| - 1 ==> envs[k].tag != current))
            ==> NextIndex(current, envs) == -1
    ensures forall i :: (0 <= i < |envs| - 1 && current != "" && envs[i].tag == current
                         && (forall k :: 0 <= k < i ==> envs[k].tag != current))
                        ==> NextIndex(current, envs) == i + 1
    ensures -1 <= NextIndex(current, envs) < |envs|
  {
    if |envs| > 0 && current != "" && envs[|envs| - 1].tag == current {
      assert TagIndex(envs, current) != -1;
    }
    forall i | 0 <= i < |envs| - 1 && current != "" && envs[i].tag == current
      && (forall k :: 0 <= k < i ==> envs[k].tag != current)
      ensures NextIndex(current, envs) == i + 1
    {
      assert TagIndex(envs, current) != -1;
    }
  }

  /** `calculateNextEnvIndex`. */
  method CalculateNextEnvIndex(currentEnvTag: string, envs: seq<Environment>) returns (r: int)
    ensures r == NextIndex(currentEnvTag, envs)
  {
    var envCount := |envs|;
    if envCount == 0 {
      return -1;
    }
    if currentEnvTag == "" {
      return 0;
    }
    var currentIndex := -1;
    for i := 0 to |envs|
      invariant forall k :: 0 <= k < i ==> envs[k].tag != currentEnvTag
    {
      if envs[i].tag == currentEnvTag {
        currentIndex := i;
        break;
      }
    }
    assert currentIndex == TagIndex(envs, currentEnvTag);
    if currentIndex == -1 {
      return 0;
    }
    if currentIndex >= envCount - 1 {
      return -1;
    }
    return currentIndex + 1;
  }

  /** The tag a switch moves to next; a switch with no next environment stays where it is. */
  function NextTag(current: string, envs: seq<Environment>): string {
    var i := NextIndex(current, envs);
    if 0 <= i < |envs| then envs[i].tag else current
  }

  /** `getNextEnvTag`. */
  method GetNextEnvTag(currentEnvTag: string, envs: seq<Environment>) returns (tag: string)
    ensures tag == NextTag(currentEnvTag, envs)
    ensures NextIndex(currentEnvTag, envs) == -1 ==> tag == currentEnvTag
  {
    var nextIndex := CalculateNextEnvIndex(currentEnvTag, envs);
    NextIndexCases(currentEnvTag, envs);
    if nextIndex == -1 {
      return currentEnvTag;
    }
    return envs[nextIndex].tag;
  }

  /** Environment tags that are non-empty and each used once, as a namespace's are. */
  predicate WellTagged(envs: seq<Environment>) {
    (forall i :: 0 <= i < |envs| ==> envs[i].tag != "")
    && forall i, j :: 0 <= i < j < |envs| ==> envs[i].tag != envs[j].tag
  }

  /** Promotion walks the environments in order: a new switch goes to the first, a switch
      at an environment goes to the one after it, and a switch at the last one stays. */
  lemma PromotionWalk(envs: seq<Environment>, i: nat)
    requires WellTagged(envs) && |envs| > 0
    ensures NextTag("", envs) == envs[0].tag
    ensures i < |envs| - 1 ==> NextTag(envs[i].tag, envs) == envs[i + 1].tag
    ensures NextTag(envs[|envs| - 1].tag, envs) == envs[|envs| - 1].tag
  {
    NextIndexCases(envs[|envs| - 1].tag, envs);
    if i < |envs| - 1 {
      NextIndexCases(envs[i].tag, envs);
    }
  }

  /** With well-tagged environments a push has nothing to do exactly when the switch stands
      at the last environment. */
  lemma NoOpExactlyAtEnd(current: string, envs: seq<Environment>)
    requires WellTagged(envs) && |envs| > 0
    ensures NextTag(current, envs) == current <==> current == envs[|envs| - 1].tag
  {
    NextIndexCases(current, envs);
    var k := TagIndex(envs, current);
    if current != "" && k != -1 && k < |envs| - 1 {
      assert envs[k + 1].tag != envs[k].tag;
    }
  }

  /** What the console shows about the next environment (`dto.NextEnvInfo`). */
  datatype NextEnvInfo = NextEnvInfo(envTag: string, envName: string, approvalStatus: string,
                                     buttonText: string, buttonDisabled: bool)

  /** The text after the tag on the push button for an approval status. */
  function ButtonSuffix(status: string): (r: string)
    ensures status == "PENDING" ==> r == "审批中"
    ensures status == "APPROVED" ==> r == "已通过"
    ensures status == "REJECTED" ==> r == "已拒绝"
    ensures status !in ["PENDING", "APPROVED", "REJECTED"] ==> r == ""
  {
    if status == "PENDING" then "审批中"
    else if status == "APPROVED" then "已通过"
    else if status == "REJECTED" then "已拒绝"
    else ""
  }

  /** `calculateNextEnvInfo`: nothing when the switch has no next environment; otherwise the
      next environment, the switch's approval status, and a push button labelled with the tag
      and the status, disabled only while an approval is pending. */
  method CalculateNextEnvInfo(sw: SwitchModel, envs: seq<Environment>) returns (r: Option<NextEnvInfo>)
    ensures r.None? <==> NextIndex(sw.currentEnvTag, envs) == -1
    ensures r.Some? ==> 0 <= NextIndex(sw.currentEnvTag, envs) < |envs|
    ensures r.Some? ==> r.value.envTag == envs[NextIndex(sw.currentEnvTag, envs)].tag
    ensures r.Some? ==> r.value.envName == envs[NextIndex(sw.currentEnvTag, envs)].name
    ensures r.Some? ==> r.value.approvalStatus == sw.approverStatus
    ensures r.Some? ==> r.value.buttonText == r.value.envTag + ButtonSuffix(sw.approverStatus)
    ensures r.Some? ==> (r.value.buttonDisabled <==> sw.approverStatus == "PENDING")
  {
    if |envs| == 0 {
      return None;
    }
    var nextIndex := CalculateNextEnvIndex(sw.currentEnvTag, envs);
    NextIndexCases(sw.currentEnvTag, envs);
    if nextIndex == -1 {
      return None;
    }
    var nextEnv := envs[nextIndex];
    var info := NextEnvInfo(nextEnv.tag, nextEnv.name, sw.approverStatus, "", false);
    match info.approvalStatus {
      case "PENDING" =>
        info := info.(buttonText := nextEnv.tag + "审批中", buttonDisabled := true);
      case "APPROVED" =>
        info := info.(buttonText := nextEnv.tag + "已通过", buttonDisabled := false);
      case "REJECTED" =>
        info := info.(buttonText := nextEnv.tag + "已拒绝", buttonDisabled := false);
      case _ =>
        info := info.(buttonText := nextEnv.tag, buttonDisabled := false);
    }
    return Some(info);
  }

  // ---------------------------------------------------------------------------------
  // A factor's JSON Schema

  const SchemaTypes: seq<string> := ["string", "number", "integer", "boolean", "object", "array", "null"]

  const SchemaBlank: string := "JSON Schema 不能为空"
  const SchemaSyntax: string := "JSON Schema 格式错误: "
  const SchemaNoType: string := "JSON Schema 必须包含 type 字段"
  const SchemaTypeNotString: string := "JSON Schema 的 type 字段必须是字符串"
  const SchemaBadType: string := "JSON Schema 的 type 字段值无效: "

  /** What `json.Unmarshal` into a `map[string]interface{}` makes of decoded JSON: an object
      gives its properties, `null` no map at all, and anything else a type error. */
  function AsGoMap(v: Json): Result<seq<(string, Json)>> {
    if v.JObj? then Ok(v.props)
    else if v.JNull? then Ok([])
    else Err("json: cannot unmarshal " + GoKind(v) + " into Go value of type map[string]interface {}")
  }

  /** A schema the service accepts: valid JSON text of an object whose `type` is one of the
      seven JSON Schema type names. */
  predicate AcceptedSchema(text: string, decode: string -> Result<Json>) {
    TrimSpace(text) != ""
    && decode(text).Ok? && AsGoMap(decode(text).value).Ok?
    && var t := Lookup(AsGoMap(decode(text).value).value, "type");
       t.JStr? && t.s in SchemaTypes
  }

  /** `validateJsonSchema`, with `encoding/json`'s decoding of the text as `decode`: blank
      text, text that does not decode into a map, a missing `type`, a `type` that is not a
      string and a `type` outside the seven names are each refused with their own message. */
  method ValidateJsonSchema(jsonSchemaStr: string, decode: string -> Result<Json>) returns (r: Outcome)
    ensures r.Pass? <==> AcceptedSchema(jsonSchemaStr, decode)
    ensures TrimSpace(jsonSchemaStr) == "" ==> r == Fail(SchemaBlank)
    ensures TrimSpace(jsonSchemaStr) != "" && decode(jsonSchemaStr).Err? ==> r == Fail(SchemaSyntax + decode(jsonSchemaStr).msg)
    ensures TrimSpace(jsonSchemaStr) != "" && decode(jsonSchemaStr).Ok? && AsGoMap(decode(jsonSchemaStr).value).Err?
      ==> r == Fail(SchemaSyntax + AsGoMap(decode(jsonSchemaStr).value).msg)
    ensures TrimSpace(jsonSchemaStr) != "" && decode(jsonSchemaStr).Ok? && AsGoMap(decode(jsonSchemaStr).value).Ok?
      ==> var t := Lookup(AsGoMap(decode(jsonSchemaStr).value).value, "type");
          (t == JUndefined ==> r == Fail(SchemaNoType))
          && (t != JUndefined && !t.JStr? ==> r == Fail(SchemaTypeNotString))
          && (t.JStr? && t.s !in SchemaTypes ==> r == Fail(SchemaBadType + t.s))
  {
    if TrimSpace(jsonSchemaStr) == "" {
      return Fail(SchemaBlank);
    }
    var decoded := decode(jsonSchemaStr);
    if decoded.Err? {
      return Fail(SchemaSyntax + decoded.msg);
    }
    var schema := AsGoMap(decoded.value);
    if schema.Err? {
      return Fail(SchemaSyntax + schema.msg);
    }
    var typeField := Lookup(schema.value, "type");
    if typeField == JUndefined {
      return Fail(SchemaNoType);
    }
    if !typeField.JStr? {
      return Fail(SchemaTypeNotString);
    }
    var typeValue := typeField.s;
    var validTypes := SchemaTypes;
    var isValidType := false;
    for i := 0 to |validTypes|
      invariant !isValidType <==> typeValue !in validTypes[..i]
    {
      if typeValue == validTypes[i] {
        isValidType := true;
        assert validTypes[..i + 1] == validTypes[..i] + [validTypes[i]];
        break;
      }
      assert validTypes[..i + 1] == validTypes[..i] + [validTypes[i]];
    }
    assert validTypes[..|validTypes|] == validTypes;
    if !isValidType {
      return Fail(SchemaBadType + typeValue);
    }
    return Pass;
  }

  /** A JSON `null` text decodes into no map, so it is refused for its missing `type`. */
  lemma NullSchemaHasNoType(text: string, decode: string -> Result<Json>)
    requires TrimSpace(text) != "" && decode(text) == Ok(JNull)
    ensures !AcceptedSchema(text, decode)
    ensures Lookup(AsGoMap(decode(text).value).value, "type") == JUndefined
  {
  }

  // ---------------------------------------------------------------------------------
  // Creating and editing a switch

  /** The approvers requested for one environment of a switch. */
  datatype ApproversReq = ApproversReq(envTag: string, approverUsers: seq<nat>)

  /** A create-or-edit request (`dto.CreateUpdateSwitchReq`); `switchId` 0 creates. */
  datatype SwitchReq = SwitchReq(switchId: nat, namespaceTag: string, name: string,
                                 rules: Option<RuleNode>, description: string, useCache: bool,
                                 approvers: seq<ApproversReq>)

  /** The approval rule of a switch in one environment (`admin_model.SwitchApproval`);
      `author` is the user recorded as its author. */
  datatype SwitchApproval = SwitchApproval(switchId: nat, envTag: string, approverUsers: seq<nat>, author: string)

  /** `fmt`'s rendering of a string given to a `%d` verb. */
  function BadIntVerb(s: string): string {
    "%!d(string=" + s + ")"
  }

  function NoApprovers(ns: string): string {
    "无法创建/修改开关：空间 " + BadIntVerb(ns) + " 没有找到审批人"
  }

  function ApproversChanged(ns: string): string {
    "无法创建/修改开关：空间 " + BadIntVerb(ns) + " 下审批人疑似变更,请刷新重试"
  }

  /** Every approver requested, in every environment. */
  predicate AllRequested(reqs: seq<ApproversReq>, allowed: seq<nat>) {
    forall i, j :: 0 <= i < |reqs| && 0 <= j < |reqs[i].approverUsers| ==> reqs[i].approverUsers[j] in allowed
  }

  /** The approver check of `CreateSwitch`, with the namespace's users allowed to approve
      (`FindApprovePermissionsByNamespaceTag`) as `approversOf`: with approvers requested, a
      failed or empty lookup is refused, and so is a request naming anyone not allowed. */
  method CheckApprovers(req: SwitchReq, approversOf: string -> Result<seq<nat>>) returns (r: Outcome)
    ensures r.Pass? <==> (req.approvers == []
                          || (approversOf(req.namespaceTag).Ok? && approversOf(req.namespaceTag).value != []
                              && AllRequested(req.approvers, approversOf(req.namespaceTag).value)))
    ensures req.approvers != [] && (approversOf(req.namespaceTag).Err? || approversOf(req.namespaceTag) == Ok([]))
      ==> r == Fail(NoApprovers(req.namespaceTag))
    ensures req.approvers != [] && approversOf(req.namespaceTag).Ok? && approversOf(req.namespaceTag).value != []
      && !AllRequested(req.approvers, approversOf(req.namespaceTag).value)
      ==> r == Fail(ApproversChanged(req.namespaceTag))
    ensures r == CheckOutcome(req, approversOf)
  {
    if |req.approvers| == 0 {
      return Pass;
    }
    var approverUsers := approversOf(req.namespaceTag);
    if approverUsers.Err? || |approverUsers.value| == 0 {
      return Fail(NoApprovers(req.namespaceTag));
    }
    var userApproverMap: set<nat> := {};
    for k := 0 to |approverUsers.value|
      invariant forall u :: u in userApproverMap <==> u in approverUsers.value[..k]
    {
      assert approverUsers.value[..k + 1] == approverUsers.value[..k] + [approverUsers.value[k]];
      userApproverMap := userApproverMap + {approverUsers.value[k]};
    }
    assert approverUsers.value[..|approverUsers.value|] == approverUsers.value;
    for i := 0 to |req.approvers|
      invariant forall i', j :: (0 <= i' < i && 0 <= j < |req.approvers[i'].approverUsers|
                                 ==> req.approvers[i'].approverUsers[j] in approverUsers.value)
    {
      for j := 0 to |req.approvers[i].approverUsers|
        invariant forall j' :: 0 <= j' < j ==> req.approvers[i].approverUsers[j'] in approverUsers.value
      {
        if req.approvers[i].approverUsers[j] !in userApproverMap {
          return Fail(ApproversChanged(req.namespaceTag));
        }
      }
    }
    return Pass;
  }

  /** A pointer to a switch record, updated in place by an edit and by a push. */
  class SwitchCell {
    var value: SwitchModel

    constructor (sw: SwitchModel)
      ensures value == sw
    {
      value := sw;
    }
  }

  /** Where a switch's configuration for an environment stands. */
  datatype ConfigStatus = ConfigPending | ConfigPublished

  /** A switch's configuration in one environment (`admin_model.SwitchConfig`). */
  datatype SwitchConfig = SwitchConfig(switchId: nat, envTag: string, configValue: Option<RuleNode>,
                                       status: ConfigStatus, version: int, updateBy: string)

  /** A pointer to a configuration record, updated in place by a push. */
  class ConfigCell {
    var value: SwitchConfig

    constructor (cfg: SwitchConfig)
      ensures value == cfg
    {
      value := cfg;
    }
  }

  /** The user of a request. */
  datatype UserInfo = UserInfo(id: nat, username: string)

  /** The contents of a switch approval form (`admin_model.SwitchApprovalForm`). */
  datatype FormDetails = FormDetails(switchId: nat, envTag: string, changes: Option<RuleNode>,
                                     sw: SwitchModel, version: int, env: Environment)

  /** An approval form asking to push a switch (`admin_model.Approval`). */
  datatype SwitchForm = SwitchForm(createdBy: string, details: FormDetails, status: string,
                                   requesterUser: nat, approverUsers: string, namespaceTag: string)

  /** The complete switch as pushed to an environment (`admin_model.SwitchSnapshot`). */
  datatype Snapshot = Snapshot(createdBy: string, version: int, switchId: nat, namespaceTag: string,
                               envTag: string, complete: SwitchModel)

  /** What a call commits: rows written and notifications sent. */
  datatype Write =
    | SwitchSaved(saved: SwitchModel)
    | ApprovalRulesDeleted(ofSwitch: nat)
    | ApprovalRulesCreated(rules: seq<SwitchApproval>)
    | SwitchCreated(created: SwitchModel)
    | ConfigsCreated(configs: seq<SwitchConfig>)
    | ConfigCreated(config: SwitchConfig)
    | FormCreated(form: SwitchForm)
    | SwitchApprovalUpdated(switchId: nat, approverStatus: string)
    | SnapshotCreated(snapshot: Snapshot)
    | ConfigUpdated(updated: SwitchConfig)
    | SwitchEnvUpdated(id: nat, currentEnvTag: string, clearedStatus: string)
    | Notified(namespaceTag: string, envTag: string, pushed: SwitchModel)

  const EnvListFailed: string := "failed to retrieve the environment list under namespace: "
  const NoEnvsCreate: string := "there are no environments in this namespace, so switches cannot be created"
  const NoEnvsUpdate: string := "there are no environments in this namespace, so switches cannot be update"
  const SaveFailed: string := "failed to save factor: "

  /** A switch after an edit: a new version, the description and the rules only when the
      edit gives them, the cache flag as given, and the promotion started over with no
      approval pending. Identity, namespace, name and author are kept. */
  function Edited(sw: SwitchModel, req: SwitchReq, uName: string): (r: SwitchModel)
    ensures r.version == sw.version + 1
    ensures r.currentEnvTag == "" && r.approverStatus == ""
    ensures r.description == (if req.description != "" then req.description else sw.description)
    ensures r.rules == (if req.rules.Some? then req.rules else sw.rules)
    ensures r.useCache == req.useCache && r.updateBy == uName
    ensures r.id == sw.id && r.createdBy == sw.createdBy && r.namespaceTag == sw.namespaceTag && r.name == sw.name
  {
    sw.(description := if req.description != "" then req.description else sw.description,
        rules := if req.rules.Some? then req.rules else sw.rules,
        currentEnvTag := "", updateBy := uName, useCache := req.useCache, approverStatus := "",
        version := sw.version + 1)
  }

  /** After an edit the next push goes to the first environment again. */
  lemma EditRestartsPromotion(sw: SwitchModel, req: SwitchReq, uName: string, envs: seq<Environment>)
    requires |envs| > 0
    ensures NextIndex(Edited(sw, req, uName).currentEnvTag, envs) == 0
    ensures NextTag(Edited(sw, req, uName).currentEnvTag, envs) == envs[0].tag
  {
  }

  /** The approval rules a request asks for, one per environment named, in order. */
  function RequestedRules(switchId: nat, reqs: seq<ApproversReq>, author: string): (r: seq<SwitchApproval>)
    ensures |r| == |reqs|
    ensures forall i :: 0 <= i < |reqs| ==> r[i] == SwitchApproval(switchId, reqs[i].envTag, reqs[i].approverUsers, author)
  {
    seq(|reqs|, i requires 0 <= i < |reqs| => SwitchApproval(switchId, reqs[i].envTag, reqs[i].approverUsers, author))
  }

  /** The rules an edit writes, as the code has it: they are built only when the editor is
      not the switch's author. */
  function EditRulesAsWritten(sw: SwitchModel, req: SwitchReq, uName: string): seq<SwitchApproval> {
    if sw.createdBy != uName then RequestedRules(req.switchId, req.approvers, uName) else []
  }

  /** The rules a switch has after an edit as the code has it: every old rule is deleted and
      the rules built are created. */
  function RulesAfterEditAsWritten(prior: seq<SwitchApproval>, sw: SwitchModel, req: SwitchReq, uName: string): seq<SwitchApproval> {
    EditRulesAsWritten(sw, req, uName)
  }

  /** When the author edits a switch its approval rules are wiped, whatever approvers the edit
      asks for; when someone else edits it, their request replaces the rules. */
  lemma AuthorEditDropsApprovers(prior: seq<SwitchApproval>, sw: SwitchModel, req: SwitchReq, uName: string)
    ensures sw.createdBy == uName ==> RulesAfterEditAsWritten(prior, sw, req, uName) == []
    ensures sw.createdBy != uName ==> RulesAfterEditAsWritten(prior, sw, req, uName) == RequestedRules(req.switchId, req.approvers, uName)
  {
  }

  /** The author "alice" asks for approver 7 in `prod`; her edit leaves the switch with no
      approval rule at all. */
  lemma AuthorEditExample()
    ensures var sw := SwitchModel(3, "alice", "alice", 1, "ns", "s", "", None, "", false, "");
      var req := SwitchReq(3, "ns", "s", None, "", false, [ApproversReq("prod", [7])]);
      var prior := [SwitchApproval(3, "prod", [7], "alice")];
      RulesAfterEditAsWritten(prior, sw, req, "alice") == [] && prior != []
  {
  }

  /** The rules a switch has after an edit as the author comment on that branch means it:
      only the author changes approvers, and the edit sets exactly the approvers requested for
      each environment; anyone else's edit keeps the rules as they were. */
  function RulesAfterEdit(prior: seq<SwitchApproval>, sw: SwitchModel, req: SwitchReq, uName: string): (r: seq<SwitchApproval>)
    ensures sw.createdBy != uName ==> r == prior
    ensures sw.createdBy == uName ==>
      |r| == |req.approvers|
      && forall i :: 0 <= i < |req.approvers| ==>
        r[i].envTag == req.approvers[i].envTag && r[i].approverUsers == req.approvers[i].approverUsers
  {
    if sw.createdBy == uName then RequestedRules(req.switchId, req.approvers, uName) else prior
  }

  /** The edit branch of `CreateSwitch`, on the switch fetched (`GetSwitchByID`): the
      environment list of its namespace must be readable and non-empty; then the switch is
      edited in place and the transaction saves it, deletes its approval rules and creates
      the ones built, each step able to fail (`save`, `deleteRules`, `createRules`). */
  method UpdateSwitch(sw: SwitchCell, req: SwitchReq, uName: string,
                      envsOf: string -> Result<seq<Environment>>,
                      save: Outcome, deleteRules: Outcome, createRules: Outcome)
    returns (r: Result<SwitchModel>, writes: seq<Write>)
    modifies sw
    ensures var envs := envsOf(old(sw.value).namespaceTag);
      (envs.Err? ==> r == Err(EnvListFailed + envs.msg) && writes == [] && sw.value == old(sw.value))
      && (envs == Ok([]) ==> r == Err(NoEnvsUpdate) && writes == [] && sw.value == old(sw.value))
    ensures envsOf(old(sw.value).namespaceTag).Ok? && envsOf(old(sw.value).namespaceTag).value != []
      ==> sw.value == Edited(old(sw.value), req, uName)
    ensures r.Ok? ==> r.value == sw.value
    ensures var rules := EditRulesAsWritten(old(sw.value), req, uName);
      envsOf(old(sw.value).namespaceTag).Ok? && envsOf(old(sw.value).namespaceTag).value != []
      ==> (save.Fail? ==> r == Err(SaveFailed + save.msg) && writes == [])
          && (save.Pass? && deleteRules.Fail? ==> r == Err(deleteRules.msg) && writes == [])
          && (save.Pass? && deleteRules.Pass? && rules != [] && createRules.Fail?
              ==> r == Err(SaveFailed + createRules.msg) && writes == [])
          && (save.Pass? && deleteRules.Pass? && (rules == [] || createRules.Pass?)
              ==> r.Ok? && writes == [SwitchSaved(sw.value), ApprovalRulesDeleted(req.switchId)]
                    + (if rules != [] then [ApprovalRulesCreated(rules)] else []))
  {
    writes := [];
    var envs := envsOf(sw.value.namespaceTag);
    if envs.Err? {
      return Err(EnvListFailed + envs.msg), [];
    }
    if |envs.value| == 0 {
      return Err(NoEnvsUpdate), [];
    }
    ghost var before := sw.value;
    var rules := EditRulesAsWritten(sw.value, req, uName);
    sw.value := Edited(sw.value, req, uName);
    if save.Fail? {
      return Err(SaveFailed + save.msg), [];
    }
    if deleteRules.Fail? {
      return Err(deleteRules.msg), [];
    }
    if |rules| > 0 {
      if createRules.Fail? {
        return Err(SaveFailed + createRules.msg), [];
      }
      writes := [SwitchSaved(sw.value), ApprovalRulesDeleted(req.switchId), ApprovalRulesCreated(rules)];
    } else {
      writes := [SwitchSaved(sw.value), ApprovalRulesDeleted(req.switchId)];
    }
    return Ok(sw.value), writes;
  }

  /** A new switch: version 1, nowhere yet, with no approval pending, written by its author. */
  function Created(req: SwitchReq, uName: string, id: nat): (r: SwitchModel)
    ensures r.version == 1 && r.currentEnvTag == "" && r.approverStatus == ""
    ensures r.createdBy == uName && r.updateBy == uName && r.id == id
    ensures r.namespaceTag == req.namespaceTag && r.name == req.name && r.rules == req.rules
    ensures r.description == req.description && r.useCache == req.useCache
  {
    SwitchModel(id, uName, uName, 1, req.namespaceTag, req.name, "", req.rules, req.description, req.useCache, "")
  }

  /** The configurations of a new switch: one per environment, in order, pending, at
      version 1, holding the switch's rules. */
  function InitialConfigs(id: nat, envs: seq<Environment>, rules: Option<RuleNode>): (r: seq<SwitchConfig>)
    ensures |r| == |envs|
    ensures forall i :: 0 <= i < |envs| ==> r[i] == SwitchConfig(id, envs[i].tag, rules, ConfigPending, 1, "")
  {
    seq(|envs|, i requires 0 <= i < |envs| => SwitchConfig(id, envs[i].tag, rules, ConfigPending, 1, ""))
  }

  /** Every environment of the namespace gets exactly one configuration of the new switch. */
  lemma OneConfigPerEnv(id: nat, envs: seq<Environment>, rules: Option<RuleNode>, tag: string)
    requires WellTagged(envs)
    ensures var cs := InitialConfigs(id, envs, rules);
      (exists i :: 0 <= i < |envs| && envs[i].tag == tag) <==> (exists k :: 0 <= k < |cs| && cs[k].envTag == tag)
    ensures var cs := InitialConfigs(id, envs, rules);
      forall k, m :: 0 <= k < m < |cs| ==> cs[k].envTag != cs[m].envTag
  {
    var cs := InitialConfigs(id, envs, rules);
    if i :| 0 <= i < |envs| && envs[i].tag == tag {
      assert cs[i].envTag == tag;
    }
  }

  /** The creation branch of `CreateSwitch`: the request's namespace must have environments;
      the transaction creates the switch (given the id `newId`), its configurations and the
      approval rules requested, each step able to fail. */
  method NewSwitch(req: SwitchReq, uName: string, newId: nat, envsOf: string -> Result<seq<Environment>>,
                   createSwitch: Outcome, createConfigs: Outcome, createRules: Outcome)
    returns (r: Result<SwitchModel>, writes: seq<Write>)
    ensures var envs := envsOf(req.namespaceTag);
      (envs.Err? ==> r == Err(EnvListFailed + envs.msg) && writes == [])
      && (envs == Ok([]) ==> r == Err(NoEnvsCreate) && writes == [])
    ensures var envs := envsOf(req.namespaceTag);
      var rules := RequestedRules(newId, req.approvers, uName);
      envs.Ok? && envs.value != [] ==>
        (createSwitch.Fail? ==> r == Err(createSwitch.msg) && writes == [])
        && (createSwitch.Pass? && createConfigs.Fail? ==> r == Err(createConfigs.msg) && writes == [])
        && (createSwitch.Pass? && createConfigs.Pass? && rules != [] && createRules.Fail?
            ==> r == Err(createRules.msg) && writes == [])
        && (createSwitch.Pass? && createConfigs.Pass? && (rules == [] || createRules.Pass?)
            ==> r == Ok(Created(req, uName, newId))
                && writes == [SwitchCreated(Created(req, uName, newId)),
                              ConfigsCreated(InitialConfigs(newId, envs.value, req.rules))]
                             + (if rules != [] then [ApprovalRulesCreated(rules)] else []))
  {
    var envs := envsOf(req.namespaceTag);
    if envs.Err? {
      return Err(EnvListFailed + envs.msg), [];
    }
    if |envs.value| == 0 {
      return Err(NoEnvsCreate), [];
    }
    var sw := Created(req, uName, newId);
    var configs: seq<SwitchConfig> := [];
    for i := 0 to |envs.value|
      invariant |configs| == i
      invariant forall k :: 0 <= k < i ==> configs[k] == SwitchConfig(newId, envs.value[k].tag, req.rules, ConfigPending, 1, "")
    {
      configs := configs + [SwitchConfig(newId, envs.value[i].tag, req.rules, ConfigPending, 1, "")];
    }
    var sas: seq<SwitchApproval> := [];
    for i := 0 to |req.approvers|
      invariant sas == RequestedRules(newId, req.approvers[..i], uName)
    {
      sas := sas + [SwitchApproval(newId, req.approvers[i].envTag, req.approvers[i].approverUsers, uName)];
    }
    assert req.approvers[..|req.approvers|] == req.approvers;
    if createSwitch.Fail? {
      return Err(createSwitch.msg), [];
    }
    if createConfigs.Fail? {
      return Err(createConfigs.msg), [];
    }
    assert configs == InitialConfigs(newId, envs.value, req.rules);
    assert sas == RequestedRules(newId, req.approvers, uName);
    writes := [SwitchCreated(sw), ConfigsCreated(configs)];
    if |sas| > 0 {
      if createRules.Fail? {
        return Err(createRules.msg), [];
      }
      writes := writes + [ApprovalRulesCreated(sas)];
    }
    return Ok(sw), writes;
  }

  /** `CreateSwitch`: the approver check, then an edit of the switch fetched when the request
      names one, or a new switch. */
  method CreateSwitch(req: SwitchReq, uName: string, approversOf: string -> Result<seq<nat>>,
                      fetched: Result<SwitchCell>, newId: nat, envsOf: string -> Result<seq<Environment>>,
                      first: Outcome, second: Outcome, third: Outcome)
    returns (r: Result<SwitchModel>, writes: seq<Write>)
    modifies if fetched.Ok? then {fetched.value} else {}
    ensures var check := CheckOutcome(req, approversOf);
      (check.Fail? ==> r == Err(check.msg) && writes == [])
    ensures CheckOutcome(req, approversOf).Pass? && req.switchId != 0 && fetched.Err?
      ==> r == Err("failed to obtain factor: " + fetched.msg) && writes == []
    ensures CheckOutcome(req, approversOf).Pass? && req.switchId == 0 ==> r.Ok? ==> r.value.version == 1
    ensures CheckOutcome(req, approversOf).Pass? && req.switchId != 0 && fetched.Ok? && r.Ok?
      ==> r.value == Edited(old(fetched.value.value), req, uName)
    ensures fetched.Ok? && (req.switchId == 0 || CheckOutcome(req, approversOf).Fail?)
      ==> fetched.value.value == old(fetched.value.value)
  {
    var check := CheckApprovers(req, approversOf);
    if check.Fail? {
      return Err(check.msg), [];
    }
    if req.switchId != 0 {
      if fetched.Err? {
        return Err("failed to obtain factor: " + fetched.msg), [];
      }
      r, writes := UpdateSwitch(fetched.value, req, uName, envsOf, first, second, third);
    } else {
      r, writes := NewSwitch(req, uName, newId, envsOf, first, second, third);
    }
  }

  /** The approver check as a value: what `CheckApprovers` answers. */
  function CheckOutcome(req: SwitchReq, approversOf: string -> Result<seq<nat>>): (r: Outcome)
    ensures r.Pass? <==> (req.approvers == []
                          || (approversOf(req.namespaceTag).Ok? && approversOf(req.namespaceTag).value != []
                              && AllRequested(req.approvers, approversOf(req.namespaceTag).value)))
  {
    if req.approvers == [] then Pass
    else if approversOf(req.namespaceTag).Err? || approversOf(req.namespaceTag).value == [] then Fail(NoApprovers(req.namespaceTag))
    else if AllRequested(req.approvers, approversOf(req.namespaceTag).value) then Pass
    else Fail(ApproversChanged(req.namespaceTag))
  }

  // ---------------------------------------------------------------------------------
  // Pushing a switch to its next environment

  /** A push request (`dto.SubmitSwitchPushReq`). */
  datatype PushReq = PushReq(switchId: nat, targetEnvTag: string)

  /** A switch's approval rule as stored: its approvers as JSON text. */
  datatype StoredRule = StoredRule(switchId: nat, envTag: string, approverUsers: string)

  /** The answer of `GetBySwitchIdEnvTagVersion`. */
  datatype ConfigLookup = ConfigFound(cell: ConfigCell) | ConfigNotFound | ConfigError(msg: string)

  /** The answer of `FindBySwitchAndEnv`. */
  datatype RuleLookup = RuleFound(rule: StoredRule) | RuleNotFound | RuleError(msg: string)

  /** The answers of the store and the notifier during one push, in the order asked. */
  datatype PushStore = PushStore(config: ConfigLookup, createConfig: Outcome, rule: RuleLookup,
                                 createForm: Outcome, updateApproval: Outcome,
                                 createSnapshot: Outcome, updateConfig: Outcome,
                                 updateSwitch: Outcome, notify: Outcome)

  const Pushed: string := "推送成功"
  const Refresh: string := "请刷新重试"
  const Resubmitted: string := "已重新提交审批，等待审核人审批"
  const Submitted: string := "已提交审批，等待审核人审批"
  const AlreadyPending: string := "审批中-不可重复提交"
  const DirectPush: string := "failed to execute publish request directly: "

  /** Whether a push to `target` goes ahead, given where the switch stands: the target must
      be an environment of the namespace, the switch must have somewhere to go, and the
      target must be exactly where it goes next. */
  datatype Gate = EnvMissing | NothingToDo | Stale | Proceed(env: Environment)

  function PushGate(current: string, target: string, envs: seq<Environment>): (g: Gate)
    ensures g.Proceed? ==> g.env in envs && g.env.tag == target
  {
    var k := TagIndex(envs, target);
    if k == -1 then EnvMissing
    else if NextTag(current, envs) == current then NothingToDo
    else if NextTag(current, envs) != target then Stale
    else Proceed(envs[k])
  }

  /** A push goes ahead exactly when its target is the switch's next environment, and then
      it moves the switch one environment along: a switch nowhere yet, or at an environment
      no longer listed, to the first; a switch at an environment, to the one after it. A
      switch at the last environment never moves. */
  lemma PushMovesOneStep(current: string, target: string, envs: seq<Environment>)
    requires WellTagged(envs) && |envs| > 0
    ensures PushGate(current, target, envs).Proceed? <==> target == NextTag(current, envs) && target != current
    ensures PushGate(current, target, envs).Proceed? && (current == "" || TagIndex(envs, current) == -1)
      ==> target == envs[0].tag
    ensures forall i :: (0 <= i < |envs| - 1 && current == envs[i].tag && PushGate(current, target, envs).Proceed?
                         ==> target == envs[i + 1].tag)
    ensures current == envs[|envs| - 1].tag ==> !PushGate(current, target, envs).Proceed?
  {
    NextIndexCases(current, envs);
    NoOpExactlyAtEnd(current, envs);
    if target == NextTag(current, envs) && target != current {
      var i := NextIndex(current, envs);
      assert envs[i].tag == target;
      assert TagIndex(envs, target) != -1;
    }
    forall i | 0 <= i < |envs| - 1 && current == envs[i].tag && PushGate(current, target, envs).Proceed?
      ensures target == envs[i + 1].tag
    {
      PromotionWalk(envs, i);
    }
  }

  /** How a push that goes ahead proceeds, by the switch's approval status and its approval
      rule for the environment. */
  datatype Route = Refuse(reason: string) | Publish | Submit(resubmit: bool)

  function RouteFor(status: string, rule: RuleLookup): Route {
    if status == "PENDING" then Refuse(AlreadyPending)
    else if status == "APPROVED" then Publish
    else
      match rule
      case RuleNotFound => Publish
      case RuleError(m) => Refuse(m)
      case RuleFound(x) => if |x.approverUsers| > 0 then Submit(status == "REJECTED") else Publish
  }

  /** A pending approval blocks every push; an approved one publishes without asking
      again; otherwise an environment with approvers asks for approval, as a resubmission
      after a rejection, and one without approvers (or without a rule) publishes. */
  lemma RouteCases(status: string, rule: RuleLookup)
    ensures status == "PENDING" ==> RouteFor(status, rule) == Refuse(AlreadyPending)
    ensures status == "APPROVED" ==> RouteFor(status, rule) == Publish
    ensures status == "REJECTED" && rule.RuleFound? && rule.rule.approverUsers != "" ==> RouteFor(status, rule) == Submit(true)
    ensures status !in ["PENDING", "APPROVED", "REJECTED"] && rule.RuleFound? && rule.rule.approverUsers != ""
      ==> RouteFor(status, rule) == Submit(false)
    ensures status != "PENDING" && status != "APPROVED" && rule.RuleNotFound? ==> RouteFor(status, rule) == Publish
    ensures RouteFor(status, rule).Submit? ==> rule.RuleFound? && status != "PENDING" && status != "APPROVED"
  {
  }

  /** The approver list is tested as text, so a rule whose list is the empty JSON array
      still sends a push for approval, to nobody. */
  lemma EmptyApproverListStillSubmits(status: string, id: nat, envTag: string)
    requires status != "PENDING" && status != "APPROVED"
    ensures RouteFor(status, RuleFound(StoredRule(id, envTag, "[]"))).Submit?
  {
  }

  /** The text a push answers with when it goes ahead. */
  function RouteText(route: Route): string {
    match route
    case Refuse(_) => ""
    case Publish => Pushed
    case Submit(resubmit) => if resubmit then Resubmitted else Submitted
  }

  /** What publishing answers, step by step through its transaction. */
  function PublishOutcome(store: PushStore): Outcome {
    if store.createSnapshot.Fail? then Fail(DirectPush + "failed to create snapshot in transaction: " + store.createSnapshot.msg)
    else if store.updateConfig.Fail? then Fail(DirectPush + "failed to update factor config in transaction: " + store.updateConfig.msg)
    else if store.updateSwitch.Fail? then Fail(DirectPush + "failed to update factor config in transaction: " + store.updateSwitch.msg)
    else if store.notify.Fail? then Fail(DirectPush + "failed to send notification, transaction rolled back: " + store.notify.msg)
    else Pass
  }

  /** A configuration once published to `env`: it holds the switch's rules at the switch's
      version, recorded by the user. */
  function Published(cfg: SwitchConfig, sw: SwitchModel, env: Environment, author: string): (r: SwitchConfig)
    ensures r.envTag == env.tag && r.status == ConfigPublished && r.version == sw.version && r.configValue == sw.rules
    ensures r.switchId == cfg.switchId && r.updateBy == author
  {
    cfg.(envTag := env.tag, updateBy := author, configValue := sw.rules, status := ConfigPublished, version := sw.version)
  }

  /** What a successful publication commits: the snapshot, the configuration, the switch's
      environment with its approval status cleared, and the notification. */
  function PublishWrites(sw: SwitchModel, cfg: SwitchConfig, env: Environment, author: string): seq<Write> {
    [SnapshotCreated(Snapshot(author, sw.version, sw.id, sw.namespaceTag, env.tag, sw)),
     ConfigUpdated(cfg),
     SwitchEnvUpdated(sw.id, sw.currentEnvTag, ""),
     Notified(sw.namespaceTag, env.tag, sw)]
  }

  /** `executeInitialPush` with `ExecutePublishRequest`: without a user nothing happens;
      otherwise the switch and the configuration are moved to `env` in place and the
      transaction commits the publication or nothing. */
  method ExecuteInitialPush(sw: SwitchCell, cfg: ConfigCell, env: Environment, user: Option<UserInfo>, store: PushStore)
    returns (r: Outcome, writes: seq<Write>)
    modifies sw, cfg
    ensures user.None? ==> r == Fail("can not get user info") && writes == []
    ensures user.None? ==> sw.value == old(sw.value) && cfg.value == old(cfg.value)
    ensures user.Some? ==> sw.value == old(sw.value).(currentEnvTag := env.tag)
    ensures user.Some? ==> cfg.value == Published(old(cfg.value), sw.value, env, user.value.username)
    ensures user.Some? ==> r == PublishOutcome(store)
    ensures user.Some? ==> writes == (if r.Pass? then PublishWrites(sw.value, cfg.value, env, user.value.username) else [])
  {
    if user.None? {
      return Fail("can not get user info"), [];
    }
    var userInfo := user.value;
    sw.value := sw.value.(currentEnvTag := env.tag);
    cfg.value := Published(cfg.value, sw.value, env, userInfo.username);
    var snapshot := Snapshot(userInfo.username, sw.value.version, sw.value.id, sw.value.namespaceTag, env.tag, sw.value);
    r := PublishOutcome(store);
    writes := if r.Pass? then
      [SnapshotCreated(snapshot), ConfigUpdated(cfg.value), SwitchEnvUpdated(sw.value.id, sw.value.currentEnvTag, ""),
       Notified(snapshot.namespaceTag, snapshot.envTag, sw.value)]
    else [];
  }

  /** The approval form a resubmission creates. */
  function FormFor(rule: StoredRule, sw: SwitchModel, env: Environment, user: UserInfo): SwitchForm {
    SwitchForm(user.username, FormDetails(rule.switchId, rule.envTag, sw.rules, sw, sw.version, env),
               "PENDING", user.id, rule.approverUsers, sw.namespaceTag)
  }

  /** What submitting for approval answers, step by step through its transaction. */
  function SubmitOutcome(rule: StoredRule, store: PushStore): Outcome {
    if |rule.approverUsers| > 0 && store.createForm.Fail? then Fail("failed to create approval form: " + store.createForm.msg)
    else if store.updateApproval.Fail? then Fail(store.updateApproval.msg)
    else Pass
  }

  /** `executeRejectedResubmit`: without a user nothing happens; otherwise an approval form
      for the switch as it stands is created and the switch is marked pending, in one
      transaction. */
  method ExecuteRejectedResubmit(rule: StoredRule, sw: SwitchCell, env: Environment, user: Option<UserInfo>, store: PushStore)
    returns (r: Outcome, writes: seq<Write>)
    modifies sw
    ensures user.None? ==> r == Fail("user info is nil") && writes == [] && sw.value == old(sw.value)
    ensures user.Some? ==> r == SubmitOutcome(rule, store)
    ensures user.Some? && r.Pass? ==> sw.value == old(sw.value).(approverStatus := "PENDING")
    ensures user.Some? && r.Pass? ==>
      writes == (if |rule.approverUsers| > 0 then [FormCreated(FormFor(rule, old(sw.value), env, user.value))] else [])
                + [SwitchApprovalUpdated(sw.value.id, "PENDING")]
    ensures r.Fail? ==> writes == []
  {
    if user.None? {
      return Fail("user info is nil"), [];
    }
    var form := FormFor(rule, sw.value, env, user.value);
    writes := [];
    if |rule.approverUsers| > 0 {
      if store.createForm.Fail? {
        return Fail("failed to create approval form: " + store.createForm.msg), [];
      }
      writes := [FormCreated(form)];
    }
    sw.value := sw.value.(approverStatus := "PENDING");
    if store.updateApproval.Fail? {
      return Fail(store.updateApproval.msg), [];
    }
    writes := writes + [SwitchApprovalUpdated(sw.value.id, sw.value.approverStatus)];
    return Pass, writes;
  }

  /** What following the route leads to, with the switch `before` and `after` it and the
      writes `more` committed. */
  predicate RouteResult(text: string, r: Outcome, more: seq<Write>, before: SwitchModel, after: SwitchModel,
                        env: Environment, user: Option<UserInfo>, store: PushStore)
  {
    var route := RouteFor(before.approverStatus, store.rule);
    text == RouteText(route)
    && (route.Refuse? ==> r == Fail(route.reason) && more == [] && after == before)
    && (route == Publish && user.None? ==> r == Fail("can not get user info"))
    && (route == Publish && user.Some? ==> r == PublishOutcome(store) && after == before.(currentEnvTag := env.tag))
    && (route.Submit? && user.None? ==> r == Fail("user info is nil"))
    && (route.Submit? && user.Some? && store.rule.RuleFound? ==> r == SubmitOutcome(store.rule.rule, store))
    && (route.Submit? && r.Pass? ==> after == before.(approverStatus := "PENDING"))
    && (r.Fail? ==> more == [])
  }

  /** `handleApprovalFlow`: publishes when the environment has no approval rule or a rule
      without approvers, refuses on a lookup error, and otherwise submits for approval. */
  method HandleApprovalFlow(sw: SwitchCell, cfg: ConfigCell, env: Environment, user: Option<UserInfo>,
                            store: PushStore, isRejectedResubmit: bool)
    returns (text: string, r: Outcome, writes: seq<Write>)
    modifies sw, cfg
    ensures store.rule.RuleError? ==> text == "" && r == Fail(store.rule.msg) && writes == []
    ensures store.rule.RuleError? ==> sw.value == old(sw.value) && cfg.value == old(cfg.value)
    ensures store.rule.RuleFound? && |store.rule.rule.approverUsers| > 0
      ==> text == (if isRejectedResubmit then Resubmitted else Submitted) && cfg.value == old(cfg.value)
          && (user.None? ==> r == Fail("user info is nil"))
          && (user.Some? ==> r == SubmitOutcome(store.rule.rule, store))
          && (r.Pass? ==> sw.value == old(sw.value).(approverStatus := "PENDING"))
    ensures (store.rule.RuleNotFound? || (store.rule.RuleFound? && store.rule.rule.approverUsers == ""))
      ==> text == Pushed
          && (user.None? ==> r == Fail("can not get user info"))
          && (user.Some? ==> r == PublishOutcome(store) && sw.value == old(sw.value).(currentEnvTag := env.tag))
    ensures r.Fail? ==> writes == []
    ensures old(sw.value).approverStatus != "PENDING" && old(sw.value).approverStatus != "APPROVED"
      && isRejectedResubmit == (old(sw.value).approverStatus == "REJECTED")
      ==> RouteResult(text, r, writes, old(sw.value), sw.value, env, user, store)
  {
    match store.rule {
      case RuleError(m) =>
        return "", Fail(m), [];
      case RuleNotFound =>
        r, writes := ExecuteInitialPush(sw, cfg, env, user, store);
        return Pushed, r, writes;
      case RuleFound(rule) =>
        if |rule.approverUsers| > 0 {
          r, writes := ExecuteRejectedResubmit(rule, sw, env, user, store);
          text := if isRejectedResubmit then Resubmitted else Submitted;
          return text, r, writes;
        }
        r, writes := ExecuteInitialPush(sw, cfg, env, user, store);
        return Pushed, r, writes;
    }
  }

  function FindFailed(id: nat): string {
    "failed to find factor with ID " + NatToString(id)
  }

  /** A configuration created for an environment added after the switch was. */
  function MissingConfig(id: nat, env: Environment, sw: SwitchModel): SwitchConfig {
    SwitchConfig(id, env.tag, sw.rules, ConfigPending, 1, "")
  }

  /** The approval-status switch of `PushSwitchChange`, on the configuration found or made. */
  method FollowRoute(sw: SwitchCell, cfg: ConfigCell, env: Environment, user: Option<UserInfo>, store: PushStore)
    returns (text: string, r: Outcome, more: seq<Write>)
    modifies sw, cfg
    ensures RouteResult(text, r, more, old(sw.value), sw.value, env, user, store)
  {
    match sw.value.approverStatus {
      case "PENDING" =>
        return "", Fail(AlreadyPending), [];
      case "APPROVED" =>
        r, more := ExecuteInitialPush(sw, cfg, env, user, store);
        text := Pushed;
      case "REJECTED" =>
        text, r, more := HandleApprovalFlow(sw, cfg, env, user, store, true);
      case _ =>
        text, r, more := HandleApprovalFlow(sw, cfg, env, user, store, false);
    }
  }

  /** What a push that passed its gate leads to: a lookup error or a failure to create the
      missing configuration stops it; otherwise the configuration made, if any, is committed
      first and the route decides the rest. */
  predicate ProceedResult(text: string, r: Outcome, writes: seq<Write>, before: SwitchModel, after: SwitchModel,
                          req: PushReq, env: Environment, user: Option<UserInfo>, store: PushStore)
  {
    (store.config.ConfigError? ==> text == "" && r == Fail(store.config.msg) && writes == [])
    && (store.config.ConfigNotFound? && store.createConfig.Fail? ==> text == "" && r == Fail(store.createConfig.msg) && writes == [])
    && (store.config.ConfigFound? || (store.config.ConfigNotFound? && store.createConfig.Pass?) ==>
          var created := if store.config.ConfigNotFound? then [ConfigCreated(MissingConfig(req.switchId, env, before))] else [];
          |created| <= |writes| && writes[..|created|] == created
          && RouteResult(text, r, writes[|created|..], before, after, env, user, store))
  }

  /** The part of `PushSwitchChange` after the gate: the configuration, then the route. */
  method ProceedPush(req: PushReq, sw: SwitchCell, env: Environment, user: Option<UserInfo>, store: PushStore)
    returns (text: string, r: Outcome, writes: seq<Write>)
    modifies sw
    modifies if store.config.ConfigFound? then {store.config.cell} else {}
    ensures ProceedResult(text, r, writes, old(sw.value), sw.value, req, env, user, store)
  {
    var switchConfig: ConfigCell;
    var created: seq<Write> := [];
    match store.config {
      case ConfigError(m) =>
        return "", Fail(m), [];
      case ConfigNotFound =>
        var config := MissingConfig(req.switchId, env, sw.value);
        if store.createConfig.Fail? {
          return "", Fail(store.createConfig.msg), [];
        }
        switchConfig := new ConfigCell(config);
        created := [ConfigCreated(config)];
      case ConfigFound(c) =>
        switchConfig := c;
    }
    var more: seq<Write>;
    text, r, more := FollowRoute(sw, switchConfig, env, user, store);
    writes := created + more;
    assert writes[|created|..] == more;
  }

  /** `PushSwitchChange`: the switch (`GetSwitchByID`) and the environments of its namespace
      must be found; the push is gated on the target being the switch's next environment; a
      missing configuration is created on the spot; then the approval status and the
      approval rule decide between refusing, publishing and submitting for approval. */
  method PushSwitchChange(req: PushReq, fetched: Result<Option<SwitchCell>>,
                          envsOf: string -> Result<seq<Environment>>, user: Option<UserInfo>, store: PushStore)
    returns (text: string, r: Outcome, writes: seq<Write>)
    modifies if fetched.Ok? && fetched.value.Some? then {fetched.value.value} else {}
    modifies if store.config.ConfigFound? then {store.config.cell} else {}
    ensures fetched.Err? ==> text == "" && r == Fail(FindFailed(req.switchId) + ": " + fetched.msg) && writes == []
    ensures fetched == Ok(None) ==> text == "" && r == Fail(FindFailed(req.switchId)) && writes == []
    ensures fetched.Ok? && fetched.value.Some? ==>
      var sw := fetched.value.value;
      var envs := envsOf(old(sw.value).namespaceTag);
      (envs.Err? ==> text == "" && r == Fail(EnvListFailed + envs.msg) && writes == [])
      && (envs == Ok([]) ==> text == "" && r == Fail(NoEnvsUpdate) && writes == [])
      && (envs.Ok? && envs.value != [] ==>
            var gate := PushGate(old(sw.value).currentEnvTag, req.targetEnvTag, envs.value);
            (gate == EnvMissing ==> text == "" && r == Fail("failed to find environment with Tag " + req.targetEnvTag + ": %!w(<nil>)") && writes == [])
            && (gate == NothingToDo ==> text == Pushed && r == Pass && writes == [] && sw.value == old(sw.value))
            && (gate == Stale ==> text == Refresh && r == Fail("need refresh") && writes == [] && sw.value == old(sw.value))
            && (gate.Proceed? ==> ProceedResult(text, r, writes, old(sw.value), sw.value, req, gate.env, user, store)))
  {
    if fetched.Err? {
      return "", Fail(FindFailed(req.switchId) + ": " + fetched.msg), [];
    }
    if fetched.value.None? {
      return "", Fail(FindFailed(req.switchId)), [];
    }
    var switchInstance := fetched.value.value;
    var envs := envsOf(switchInstance.value.namespaceTag);
    if envs.Err? {
      return "", Fail(EnvListFailed + envs.msg), [];
    }
    if |envs.value| == 0 {
      return "", Fail(NoEnvsUpdate), [];
    }
    var env: Option<Environment> := None;
    for i := 0 to |envs.value|
      invariant forall k :: 0 <= k < i ==> envs.value[k].tag != req.targetEnvTag
    {
      if envs.value[i].tag == req.targetEnvTag {
        env := Some(envs.value[i]);
        assert i == TagIndex(envs.value, req.targetEnvTag);
        break;
      }
    }
    ghost var gate := PushGate(switchInstance.value.currentEnvTag, req.targetEnvTag, envs.value);
    if env.None? {
      assert gate == EnvMissing;
      return "", Fail("failed to find environment with Tag " + req.targetEnvTag + ": %!w(<nil>)"), [];
    }
    var nextEnvTag := GetNextEnvTag(switchInstance.value.currentEnvTag, envs.value);
    if nextEnvTag == switchInstance.value.currentEnvTag {
      return Pushed, Pass, [];
    }
    if nextEnvTag != env.value.tag {
      return Refresh, Fail("need refresh"), [];
    }
    assert gate == Proceed(env.value);
    text, r, writes := ProceedPush(req, switchInstance, env.value, user, store);
  }
}
