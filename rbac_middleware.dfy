/** The admin API's permission check (`middleware.RBACMiddleware`): a request passes when
    the caller holds any of the required permissions in the namespace selected, or is a
    super administrator. `canSuperAdmin` is a special requirement that only super
    administrators meet. The HTTP response written on denial is its message here. */
module RbacMiddleware {
  import opened Wrappers

  const SuperAdminPerm: string := "canSuperAdmin"

  const NotInToken: string := "User role not found in token"
  const SuperAdminRequired: string := "Super admin permission required"
  const NoPermission: string := "You do not have permission to perform this action"
  const ChooseNamespace: string := "You need to choose a namespace"

  /** A role and the names of its permissions. */
  datatype Role = Role(permissions: seq<string>)

  /** A user's membership of a namespace, with the roles held there. */
  datatype NamespaceMember = NamespaceMember(namespaceTag: string, userRoles: seq<Role>)

  /** The caller, as decoded from the token: `isSuperAdmin` may be absent. */
  datatype UserInfo = UserInfo(isSuperAdmin: Option<bool>, namespaceMembers: seq<NamespaceMember>, selectNamespace: string)

  datatype Decision = Allow | Deny(message: string)

  predicate IsSuperAdmin(u: UserInfo) {
    u.isSuperAdmin == Some(true)
  }

  /** The roles the user holds in namespace `tag`, membership by membership, in order. */
  function RolesIn(members: seq<NamespaceMember>, tag: string): seq<Role> {
    if members == [] then []
    else
      var last := members[|members| - 1];
      RolesIn(members[..|members| - 1], tag) + (if last.namespaceTag == tag then last.userRoles else [])
  }

  /** A permission equals a requirement other than `canSuperAdmin`. */
  predicate Meets(permission: string, required: seq<string>) {
    exists k :: 0 <= k < |required| && required[k] != SuperAdminPerm && permission == required[k]
  }

  /** One of the role's permissions meets a requirement. */
  predicate RoleGrants(role: Role, required: seq<string>) {
    exists j :: 0 <= j < |role.permissions| && Meets(role.permissions[j], required)
  }

  /** A role holds a required permission other than `canSuperAdmin`. */
  predicate Grants(roles: seq<Role>, required: seq<string>) {
    exists i :: 0 <= i < |roles| && RoleGrants(roles[i], required)
  }

  /** The decision, step by step as the middleware takes it. */
  function Decide(user: Option<UserInfo>, required: seq<string>): Decision {
    if user.None? then Deny(NotInToken)
    else
      var u := user.value;
      if SuperAdminPerm in required && IsSuperAdmin(u) then Allow
      else if SuperAdminPerm in required && |required| == 1 then Deny(SuperAdminRequired)
      else if IsSuperAdmin(u) then Allow
      else if |u.namespaceMembers| == 0 then Deny(NoPermission)
      else if u.selectNamespace == "" then Deny(ChooseNamespace)
      else
        var roles := RolesIn(u.namespaceMembers, u.selectNamespace);
        if |roles| == 0 then Deny(NoPermission)
        else if Grants(roles, required) then Allow
        else Deny(NoPermission)
  }

  /** A role is held in a namespace exactly when some membership of that namespace lists it. */
  lemma {:induction false} RolesInMembers(members: seq<NamespaceMember>, tag: string, r: Role)
    ensures r in RolesIn(members, tag) <==>
      exists m :: m in members && m.namespaceTag == tag && r in m.userRoles
  {
    if members != [] {
      var init := members[..|members| - 1];
      var last := members[|members| - 1];
      RolesInMembers(init, tag, r);
      assert members == init + [last];
      if r in RolesIn(members, tag) && r !in RolesIn(init, tag) {
        assert last in members;
      }
      if m :| m in members && m.namespaceTag == tag && r in m.userRoles {
        if m != last {
          assert m in init;
        }
      }
    }
  }

  /** Memberships of other namespaces never change the roles found. */
  lemma {:induction false} OtherNamespacesIgnored(members: seq<NamespaceMember>, other: NamespaceMember, tag: string)
    requires other.namespaceTag != tag
    ensures RolesIn(members + [other], tag) == RolesIn(members, tag)
  {
    assert (members + [other])[..|members|] == members;
  }

  /** The whole decision in one statement: a request passes exactly when the caller is
      known and is a super administrator, or, with at least one requirement besides
      `canSuperAdmin` alone, holds one of the other required permissions through a role
      of the namespace selected. */
  lemma AllowedExactly(user: Option<UserInfo>, required: seq<string>)
    ensures Decide(user, required) == Allow <==>
      user.Some? && (IsSuperAdmin(user.value)
        || (!(SuperAdminPerm in required && |required| == 1)
            && user.value.selectNamespace != ""
            && Grants(RolesIn(user.value.namespaceMembers, user.value.selectNamespace), required)))
  {
    if user.Some? && |user.value.namespaceMembers| == 0 {
      assert RolesIn(user.value.namespaceMembers, user.value.selectNamespace) == [];
    }
  }

  /** A super administrator passes every check, whatever is required. */
  lemma SuperAdminPasses(u: UserInfo, required: seq<string>)
    requires IsSuperAdmin(u)
    ensures Decide(Some(u), required) == Allow
  {
  }

  /** Requiring `canSuperAdmin` alone shuts out everybody else. */
  lemma OnlySuperAdminRequired(u: UserInfo)
    requires !IsSuperAdmin(u)
    ensures Decide(Some(u), [SuperAdminPerm]) == Deny(SuperAdminRequired)
  {
  }

  /** A role permission named `canSuperAdmin` never grants anything. */
  lemma SuperAdminNameNotGranted(roles: seq<Role>)
    ensures !Grants(roles, [SuperAdminPerm])
  {
  }

  /** With no requirement at all only a super administrator passes. */
  lemma NothingRequired(user: Option<UserInfo>)
    ensures Decide(user, []) == Allow <==> user.Some? && IsSuperAdmin(user.value)
  {
  }

  // ---------------------------------------------------------------------------------
  // The handler, loop by loop

  /** The required-permissions scan for `canSuperAdmin`. */
  method HasSuperAdminRequirement(required: seq<string>) returns (found: bool)
    ensures found <==> SuperAdminPerm in required
  {
    found := false;
    for i := 0 to |required|
      invariant !found <==> SuperAdminPerm !in required[..i]
    {
      if required[i] == SuperAdminPerm {
        found := true;
        assert required[i] in required[..i + 1];
        break;
      }
      assert required[..i + 1] == required[..i] + [required[i]];
    }
    if !found {
      assert required[..|required|] == required;
    }
  }

  /** The roles of the selected namespace, gathered membership by membership. */
  method CollectRoles(members: seq<NamespaceMember>, nsTag: string) returns (roles: seq<Role>)
    ensures roles == RolesIn(members, nsTag)
  {
    roles := [];
    for i := 0 to |members|
      invariant roles == RolesIn(members[..i], nsTag)
    {
      assert members[..i + 1][..i] == members[..i];
      if members[i].namespaceTag == nsTag {
        if |members[i].userRoles| > 0 {
          for j := 0 to |members[i].userRoles|
            invariant roles == RolesIn(members[..i], nsTag) + members[i].userRoles[..j]
          {
            roles := roles + [members[i].userRoles[j]];
            assert members[i].userRoles[..j + 1] == members[i].userRoles[..j] + [members[i].userRoles[j]];
          }
          assert members[i].userRoles[..|members[i].userRoles|] == members[i].userRoles;
        }
      }
    }
    assert members[..|members|] == members;
  }

  /** The nested scan over roles, their permissions and the requirements. */
  method AnyGranted(roles: seq<Role>, required: seq<string>) returns (granted: bool)
    ensures granted <==> Grants(roles, required)
  {
    for i := 0 to |roles|
      invariant forall i' :: 0 <= i' < i ==> !RoleGrants(roles[i'], required)
    {
      for j := 0 to |roles[i].permissions|
        invariant forall j' :: 0 <= j' < j ==> !Meets(roles[i].permissions[j'], required)
      {
        for k := 0 to |required|
          invariant forall k' :: 0 <= k' < k ==> required[k'] == SuperAdminPerm || roles[i].permissions[j] != required[k']
        {
          if required[k] == SuperAdminPerm {
            continue;
          }
          if roles[i].permissions[j] == required[k] {
            return true;
          }
        }
      }
    }
    return false;
  }

  /** `RBACMiddleware(requiredPermissions...)` applied to one request. */
  method Check(userInfo: Option<UserInfo>, requiredPermissions: seq<string>) returns (d: Decision)
    ensures d == Decide(userInfo, requiredPermissions)
  {
    if userInfo.None? {
      return Deny(NotInToken);
    }
    var u := userInfo.value;
    var hasCanSuperAdmin := HasSuperAdminRequirement(requiredPermissions);
    if hasCanSuperAdmin {
      if u.isSuperAdmin.Some? && u.isSuperAdmin.value {
        return Allow;
      }
      if |requiredPermissions| == 1 {
        return Deny(SuperAdminRequired);
      }
    }
    if u.isSuperAdmin.Some? && u.isSuperAdmin.value {
      return Allow;
    }
    if |u.namespaceMembers| <= 0 {
      return Deny(NoPermission);
    }
    var nsTag := u.selectNamespace;
    if nsTag == "" {
      return Deny(ChooseNamespace);
    }
    var roles := CollectRoles(u.namespaceMembers, nsTag);
    if |roles| <= 0 {
      return Deny(NoPermission);
    }
    var granted := AnyGranted(roles, requiredPermissions);
    if granted {
      return Allow;
    }
    return Deny(NoPermission);
  }
}
