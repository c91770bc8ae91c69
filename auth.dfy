/**
 * The client's permission checks. A signed-in user carries a list of roles,
 * each with a name and a list of permissions; either list may be missing in
 * the payload, and a missing list grants nothing.
 */
module AuthContext {
  import opened Wrappers

  datatype Permission = Permission(name: string)

  datatype Role = Role(name: string, permissions: Option<seq<Permission>>)

  datatype User = User(roles: Option<seq<Role>>)

  /** `permissions.some(perm => perm.name === name)`. */
  function AnyNamed(permissions: seq<Permission>, name: string): (r: bool)
    ensures r <==> exists j :: 0 <= j < |permissions| && permissions[j].name == name
  {
    if permissions == [] then false
    else permissions[0].name == name || AnyNamed(permissions[1..], name)
  }

  /** `role.permissions?.some(...)`: a role without a permission list grants nothing. */
  predicate Grants(role: Role, permission: string)
  {
    role.permissions.Some? && AnyNamed(role.permissions.value, permission)
  }

  /** `roles.some(role => role.permissions?.some(...))`. */
  function AnyGrants(roles: seq<Role>, permission: string): (r: bool)
    ensures r <==> exists i :: 0 <= i < |roles| && Grants(roles[i], permission)
  {
    if roles == [] then false
    else Grants(roles[0], permission) || AnyGrants(roles[1..], permission)
  }

  /** `roles.some(role => role.name === name)`. */
  function AnyRoleNamed(roles: seq<Role>, name: string): (r: bool)
    ensures r <==> exists i :: 0 <= i < |roles| && roles[i].name == name
  {
    if roles == [] then false
    else roles[0].name == name || AnyRoleNamed(roles[1..], name)
  }

  /**
   * `hasPermission`: false with no user or no role list; otherwise true
   * exactly when some role holds a permission of that name.
   */
  function HasPermission(user: Option<User>, permission: string): (r: bool)
    ensures user.None? ==> !r
    ensures r <==>
      && user.Some? && user.value.roles.Some?
      && exists i :: 0 <= i < |user.value.roles.value| &&
           var role := user.value.roles.value[i];
           role.permissions.Some? &&
           exists j :: 0 <= j < |role.permissions.value| && role.permissions.value[j].name == permission
  {
    match user
    case None => false
    case Some(u) => u.roles.Some? && AnyGrants(u.roles.value, permission)
  }

  /**
   * `hasRole`: false with no user or no role list; otherwise true exactly
   * when some role has that name.
   */
  function HasRole(user: Option<User>, roleName: string): (r: bool)
    ensures user.None? ==> !r
    ensures r <==>
      && user.Some? && user.value.roles.Some?
      && exists i :: 0 <= i < |user.value.roles.value| && user.value.roles.value[i].name == roleName
  {
    match user
    case None => false
    case Some(u) => u.roles.Some? && AnyRoleNamed(u.roles.value, roleName)
  }

  /** The user with one more role; a missing role list becomes a list of that role. */
  function WithRole(user: User, role: Role): (u: User)
    ensures u.roles.Some? && |u.roles.value| >= 1 && u.roles.value[|u.roles.value| - 1] == role
  {
    match user.roles
    case None => User(Some([role]))
    case Some(roles) => User(Some(roles + [role]))
  }

  /**
   * Granting is monotone: adding a role never takes away a permission or a
   * role, and the user gains every permission and the name of the new role.
   */
  lemma AddRoleMonotone(user: User, role: Role, permission: string, roleName: string)
    ensures HasPermission(Some(user), permission) ==> HasPermission(Some(WithRole(user, role)), permission)
    ensures HasRole(Some(user), roleName) ==> HasRole(Some(WithRole(user, role)), roleName)
    ensures Grants(role, permission) ==> HasPermission(Some(WithRole(user, role)), permission)
    ensures HasRole(Some(WithRole(user, role)), role.name)
  {
    var roles := WithRole(user, role).roles.value;
    if user.roles.Some? {
      var before := user.roles.value;
      assert forall i :: 0 <= i < |before| ==> roles[i] == before[i];
    }
    assert roles[|roles| - 1] == role;
  }

  /**
   * A role's name is not a permission: a user whose only role is named after
   * a permission, with no permission list, holds that role but not that
   * permission.
   */
  lemma RoleNameIsNoPermission(name: string)
    ensures HasRole(Some(User(Some([Role(name, None)]))), name)
    ensures !HasPermission(Some(User(Some([Role(name, None)]))), name)
  {
    var roles := [Role(name, None)];
    assert roles[0].name == name;
  }
}
