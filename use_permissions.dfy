/**
 * The permissions accessor of src/hooks/usePermissions.ts: it binds the
 * current user's role, `client` when there is no user or the role is empty,
 * and answers the catalogue's questions for that role.
 */
module UsePermissions {
  import opened Wrappers
  import opened AuthContext
  import P = Permissions

  /** `user?.role || 'client'`: an absent user or an empty role binds `client`. */
  function BoundRole(user: Option<UserProfile>): (role: string)
    ensures role != ""
    ensures user.Some? && user.value.role != "" ==> role == user.value.role
    ensures user.None? || user.value.role == "" ==> role == "client"
  {
    if user.Some? && user.value.role != "" then user.value.role else "client"
  }

  /** What the hook returns: the bound role and the lookups closed over it. */
  datatype Accessor = Accessor(role: string) {
    function HasPermission(resource: string, action: string): bool {
      P.HasPermission(role, resource, action)
    }
    function HasFeature(feature: string): bool {
      P.HasFeature(role, feature)
    }
    function CanAccessRoute(route: string): bool {
      P.CanAccessRoute(role, route)
    }
    predicate IsAdmin() { role == "admin" }
    predicate IsTeam() { role == "team" }
    predicate IsClient() { role == "client" }
  }

  function UsePermissions(user: Option<UserProfile>): (acc: Accessor)
    ensures acc.role == BoundRole(user)
  {
    Accessor(BoundRole(user))
  }

  // ---------------------------------------------------------------------------

  /** At most one of the three role predicates holds. */
  lemma AtMostOneRolePredicate(acc: Accessor)
    ensures !(acc.IsAdmin() && acc.IsTeam())
    ensures !(acc.IsAdmin() && acc.IsClient())
    ensures !(acc.IsTeam() && acc.IsClient())
  {
  }

  /** With no user the accessor answers exactly as the role `client` does. */
  lemma NoUserActsAsClient(resource: string, action: string, feature: string, route: string)
    ensures UsePermissions(None).HasPermission(resource, action) == P.HasPermission("client", resource, action)
    ensures UsePermissions(None).HasFeature(feature) == P.HasFeature("client", feature)
    ensures UsePermissions(None).CanAccessRoute(route) == P.CanAccessRoute("client", route)
    ensures UsePermissions(None).IsClient()
  {
  }

  /** A signed-out visitor may read documents, as a client may. */
  lemma NoUserReadsDocuments()
    ensures UsePermissions(None).HasPermission("documents", "read")
  {
    P.RoleEntry("client", 0);
  }

  /**
   * A profile role outside the catalogue (the profiles' own "user" and
   * "viewer") makes all three role predicates false and denies every
   * permission, feature and mapped route.
   */
  lemma ForeignRoleHasNothing(u: UserProfile, resource: string, action: string, feature: string, route: string)
    requires u.role !in {"", "admin", "team", "client"}
    ensures var acc := UsePermissions(Some(u));
      && !acc.IsAdmin() && !acc.IsTeam() && !acc.IsClient()
      && !acc.HasPermission(resource, action)
      && !acc.HasFeature(feature)
      && (acc.CanAccessRoute(route) <==> route !in P.RoutePermissions)
  {
    assert UsePermissions(Some(u)).role == u.role;
    P.UnknownRoleDenied(u.role, resource, action);
    if route in P.RoutePermissions {
      P.UnknownRoleDenied(u.role, P.RoutePermissions[route].resource, P.RoutePermissions[route].action);
    }
  }

  /** The profile role "user", which every newly created profile gets, has no permission at all. */
  lemma DefaultProfileRoleDenied(u: UserProfile, resource: string, action: string)
    requires u.role == "user"
    ensures !UsePermissions(Some(u)).HasPermission(resource, action)
  {
    ForeignRoleHasNothing(u, resource, action, "", "");
  }
}
