/**
 * The route guard of the client: a chain of early returns on the loading
 * flag, the signed-in user, the required permission and the required role.
 * A requirement that is missing or the empty string is no requirement.
 */
module ProtectedRoute {
  import opened AuthContext
  import opened Wrappers

  /** What the guard renders. The denial screens name what is missing. */
  datatype View =
    | Loading
    | RedirectToLogin
    | DeniedPermission(permission: string)
    | DeniedRole(role: string)
    | Children

  /** JavaScript truthiness of a string prop. */
  predicate Required(requirement: Option<string>)
  {
    requirement.Some? && requirement.value != ""
  }

  /** Whether a (possibly absent) requirement is met by the user. */
  predicate PermissionMet(user: Option<User>, permission: Option<string>)
  {
    Required(permission) ==> HasPermission(user, permission.value)
  }

  predicate RoleMet(user: Option<User>, role: Option<string>)
  {
    Required(role) ==> HasRole(user, role.value)
  }

  /**
   * The guard: the loading screen whatever else holds; then the redirect to
   * /login without a user; then the permission denial, which takes priority
   * over the role denial; otherwise the children.
   */
  function Guard(loading: bool, user: Option<User>, permission: Option<string>, role: Option<string>): (v: View)
    ensures loading ==> v == Loading
    ensures v == RedirectToLogin <==> !loading && user.None?
    ensures v.DeniedPermission? <==> !loading && user.Some? && !PermissionMet(user, permission)
    ensures v.DeniedPermission? ==> v.permission == permission.value
    ensures v.DeniedRole? <==>
      !loading && user.Some? && PermissionMet(user, permission) && !RoleMet(user, role)
    ensures v.DeniedRole? ==> v.role == role.value
    ensures v == Children <==>
      !loading && user.Some? && PermissionMet(user, permission) && RoleMet(user, role)
  {
    if loading then Loading
    else if user.None? then RedirectToLogin
    else if Required(permission) && !HasPermission(user, permission.value) then DeniedPermission(permission.value)
    else if Required(role) && !HasRole(user, role.value) then DeniedRole(role.value)
    else Children
  }

  /** A route with neither requirement admits every signed-in user once loading is over. */
  lemma OpenRouteAdmitsAnyUser(user: User, permission: Option<string>, role: Option<string>)
    requires !Required(permission) && !Required(role)
    ensures Guard(false, Some(user), permission, role) == Children
  {
  }

  /**
   * Giving a user one more role never turns an admitted route into a denied
   * one, and a denial can only move from the permission to the role or to
   * the children.
   */
  lemma GuardMonotone(user: User, extra: Role, permission: Option<string>, role: Option<string>)
    ensures Guard(false, Some(user), permission, role) == Children ==>
      Guard(false, Some(WithRole(user, extra)), permission, role) == Children
    ensures Guard(false, Some(user), permission, role).DeniedRole? ==>
      !Guard(false, Some(WithRole(user, extra)), permission, role).DeniedPermission?
  {
    if Required(permission) {
      AddRoleMonotone(user, extra, permission.value, "");
    }
    if Required(role) {
      AddRoleMonotone(user, extra, "", role.value);
    }
  }

  /**
   * Priority: a user holding neither the required permission nor the
   * required role is told about the permission.
   */
  lemma PermissionDeniedFirst(user: User, permission: string, role: string)
    requires permission != "" && role != ""
    requires !HasPermission(Some(user), permission) && !HasRole(Some(user), role)
    ensures Guard(false, Some(user), Some(permission), Some(role)) == DeniedPermission(permission)
  {
  }
}
