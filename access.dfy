/** The console's access map (`access.ts`): the permissions the logged-in user holds in the
    namespace selected, each mapped to `true`, next to `canSuperAdmin`. Values JavaScript
    may leave undefined are options; an undefined namespace tag equals an undefined
    selection, as `===` has it. */
module Access {
  import opened Wrappers

  const SuperAdminKey: string := "canSuperAdmin"

  /** A role entry of a membership: the role, and its permissions' names, may be missing. */
  datatype UserRole = UserRole(role: Option<Option<seq<string>>>)

  datatype NamespaceMember = NamespaceMember(namespaceTag: Option<string>, userRoles: Option<seq<Option<UserRole>>>)

  /** `API.CurrentUser`: `isSuperAdmin` is the truthiness of `is_super_admin`. */
  datatype CurrentUser = CurrentUser(
    isSuperAdmin: bool, namespaceMembers: Option<seq<NamespaceMember>>, selectNamespace: Option<string>)

  /** `namespaceMembers.find(...)`: the first membership whose tag is the selection. */
  function Selected(members: seq<NamespaceMember>, sel: Option<string>): (r: Option<NamespaceMember>)
    ensures r.Some? ==> r.value in members && r.value.namespaceTag == sel
    ensures r.None? ==> forall m :: m in members ==> m.namespaceTag != sel
  {
    if members == [] then None
    else if members[0].namespaceTag == sel then Some(members[0])
    else Selected(members[1..], sel)
  }

  /** The permission names one role entry contributes. */
  function RoleNames(ur: Option<UserRole>): set<string> {
    if ur.Some? && ur.value.role.Some? && ur.value.role.value.Some? then
      Elems(ur.value.role.value.value)
    else {}
  }

  function Elems(s: seq<string>): set<string> {
    set p | p in s
  }

  lemma ElemsSnoc(s: seq<string>, j: nat)
    requires j < |s|
    ensures Elems(s[..j + 1]) == Elems(s[..j]) + {s[j]}
  {
    assert s[..j + 1] == s[..j] + [s[j]];
  }

  /** The permission names of a list of role entries. */
  function NamesOf(roles: seq<Option<UserRole>>): set<string> {
    if roles == [] then {} else NamesOf(roles[..|roles| - 1]) + RoleNames(roles[|roles| - 1])
  }

  /** The permission names of the selected membership's roles; none without one. */
  function Names(state: Option<CurrentUser>): set<string> {
    if state.None? || state.value.namespaceMembers.None? then {}
    else
      var sel := Selected(state.value.namespaceMembers.value, state.value.selectNamespace);
      if sel.Some? && sel.value.userRoles.Some? then NamesOf(sel.value.userRoles.value) else {}
  }

  predicate SuperAdmin(state: Option<CurrentUser>) {
    state.Some? && state.value.isSuperAdmin
  }

  /** `access(initialState)`: the selected membership's permissions all map to `true`,
      `canSuperAdmin` is present and says whether the user is a super administrator,
      unless a permission of that very name overrides it to `true`; nothing else is
      present. */
  method ComputeAccess(initialState: Option<CurrentUser>) returns (m: map<string, bool>)
    ensures SuperAdminKey in m && m[SuperAdminKey] == (SuperAdmin(initialState) || SuperAdminKey in Names(initialState))
    ensures forall k :: k != SuperAdminKey ==> (k in m <==> k in Names(initialState))
    ensures forall k :: k in m && k != SuperAdminKey ==> m[k]
  {
    var permissions: map<string, bool> := map[];
    var selected: Option<NamespaceMember> := None;
    if initialState.Some? && initialState.value.namespaceMembers.Some? {
      selected := Selected(initialState.value.namespaceMembers.value, initialState.value.selectNamespace);
    }
    if selected.Some? && selected.value.userRoles.Some? {
      var roles := selected.value.userRoles.value;
      for i := 0 to |roles|
        invariant permissions.Keys == NamesOf(roles[..i]) && forall k :: k in permissions ==> permissions[k]
      {
        assert roles[..i + 1][..i] == roles[..i];
        permissions := AddRole(permissions, roles[i]);
      }
      assert roles[..|roles|] == roles;
    }
    m := map[SuperAdminKey := initialState.Some? && initialState.value.isSuperAdmin] + permissions;
  }

  /** `role?.role?.permissions?.forEach(perm => permissions[perm.name] = true)`. */
  method AddRole(permissions: map<string, bool>, ur: Option<UserRole>) returns (r: map<string, bool>)
    requires forall k :: k in permissions ==> permissions[k]
    ensures r.Keys == permissions.Keys + RoleNames(ur) && forall k :: k in r ==> r[k]
  {
    r := permissions;
    if ur.Some? && ur.value.role.Some? && ur.value.role.value.Some? {
      var perms := ur.value.role.value.value;
      for j := 0 to |perms|
        invariant r.Keys == permissions.Keys + Elems(perms[..j]) && forall k :: k in r ==> r[k]
      {
        r := r[perms[j] := true];
        ElemsSnoc(perms, j);
      }
      assert perms[..|perms|] == perms;
    }
  }

  /** Only the first membership of the selected namespace counts: a later membership of
      the same namespace adds nothing. */
  lemma {:induction false} FirstMembershipOnly(members: seq<NamespaceMember>, later: NamespaceMember, sel: Option<string>)
    requires Selected(members, sel).Some?
    ensures Selected(members + [later], sel) == Selected(members, sel)
  {
    if members[0].namespaceTag != sel {
      assert (members + [later])[1..] == members[1..] + [later];
      FirstMembershipOnly(members[1..], later, sel);
    }
  }

  /** A user's permission names are those of the roles of the selected membership, role by
      role. */
  lemma {:induction false} NamesOfMembers(roles: seq<Option<UserRole>>, name: string)
    ensures name in NamesOf(roles) <==> exists i :: 0 <= i < |roles| && name in RoleNames(roles[i])
  {
    if roles != [] {
      var init := roles[..|roles| - 1];
      NamesOfMembers(init, name);
      if name in NamesOf(roles) && name !in NamesOf(init) {
        assert name in RoleNames(roles[|roles| - 1]);
      }
      if i :| 0 <= i < |roles| && name in RoleNames(roles[i]) {
        if i < |roles| - 1 {
          assert roles[i] == init[i];
        }
      }
    }
  }

  /** Without a membership of the selected namespace only `canSuperAdmin` is present. */
  lemma NoSelectedMembership(state: Option<CurrentUser>)
    requires state.Some? && state.value.namespaceMembers.Some?
    requires Selected(state.value.namespaceMembers.value, state.value.selectNamespace).None?
    ensures Names(state) == {}
  {
  }
}
