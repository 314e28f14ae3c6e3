/** utils/permissions.ts: whether the signed-in user's role is one of the
    roles a page or action allows. */
module Permissions {
  import opened Wrappers
  import opened Schemas

  /** `requiredRoles.includes(role)`: a scan from the front. */
  function Includes(requiredRoles: seq<string>, role: string): (r: bool)
    ensures r <==> role in requiredRoles
  {
    if requiredRoles == [] then false
    else requiredRoles[0] == role || Includes(requiredRoles[1..], role)
  }

  /** `hasPermission(user, requiredRoles)`: no user, no permission; otherwise
      the user's role must be in the list. */
  function HasPermission(user: Option<SessionUser>, requiredRoles: seq<string>): (r: bool)
    ensures user.None? ==> !r
    ensures user.Some? ==> (r <==> user.value.role in requiredRoles)
  {
    if user.None? then false else Includes(requiredRoles, user.value.role)
  }

  /** An empty allow-list denies everyone. */
  lemma EmptyListDenies(user: Option<SessionUser>)
    ensures !HasPermission(user, [])
  {
  }

  /** Allowing more roles never takes a permission away. */
  lemma MoreRolesKeepPermission(user: Option<SessionUser>, roles: seq<string>, more: seq<string>)
    requires forall r :: r in roles ==> r in more
    ensures HasPermission(user, roles) ==> HasPermission(user, more)
  {
  }

  /** Only the role string and the set of listed roles matter: not the id, the
      email or the names, nor the order or repetitions of the list. */
  lemma OnlyRoleMatters(u1: SessionUser, u2: SessionUser, roles1: seq<string>, roles2: seq<string>)
    requires u1.role == u2.role
    requires forall r :: r in roles1 <==> r in roles2
    ensures HasPermission(Some(u1), roles1) == HasPermission(Some(u2), roles2)
  {
  }
}
