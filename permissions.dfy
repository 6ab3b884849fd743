/**
 * The role catalogue and the three lookups that read it (src/types/permissions.ts).
 * Roles, resources, actions, features and routes are plain strings, as in the
 * source, so that names outside the catalogue (the profile roles "user" and
 * "viewer", say) can be asked about and are denied.
 */
module Permissions {
  import opened Wrappers

  /** One resource and the actions a role may perform on it. */
  datatype Permission = Permission(resource: string, actions: seq<string>)

  datatype Role = Role(
    name: string,
    displayName: string,
    description: string,
    permissions: seq<Permission>,
    features: seq<string>)

  const AdminRole := Role(
    "admin",
    "Administrator",
    "Full system access with all administrative privileges",
    [
      Permission("users", ["create", "read", "update", "delete", "invite", "manage_roles"]),
      Permission("documents", ["create", "read", "update", "delete", "download", "share", "approve"]),
      Permission("folders", ["create", "read", "update", "delete", "organize"]),
      Permission("tasks", ["create", "read", "update", "delete", "assign", "complete"]),
      Permission("templates", ["create", "read", "update", "delete", "publish", "use"]),
      Permission("settings", ["read", "update", "configure"]),
      Permission("analytics", ["read", "export"]),
      Permission("billing", ["read", "update", "manage"]),
      Permission("integrations", ["read", "update", "configure"])
    ],
    [
      "user_management", "system_settings", "billing_management", "analytics_dashboard", "audit_logs",
      "api_access", "workflow_automation", "advanced_reporting", "bulk_operations", "data_export"
    ])

  const TeamRole := Role(
    "team",
    "Team Member",
    "Internal team member with document and task management access",
    [
      Permission("users", ["read"]),
      Permission("documents", ["create", "read", "update", "download", "share"]),
      Permission("folders", ["create", "read", "update", "organize"]),
      Permission("tasks", ["create", "read", "update", "assign", "complete"]),
      Permission("templates", ["create", "read", "update", "use"]),
      Permission("settings", ["read"]),
      Permission("analytics", ["read"])
    ],
    [
      "document_management", "task_management", "template_creation", "collaboration_tools",
      "basic_reporting", "file_sharing", "workflow_participation"
    ])

  const ClientRole := Role(
    "client",
    "Client",
    "External client with limited access to assigned documents and tasks",
    [
      Permission("documents", ["read", "download"]),
      Permission("tasks", ["read", "update"]),
      Permission("templates", ["read", "use"])
    ],
    [
      "document_viewing", "document_download", "task_updates", "template_usage",
      "basic_collaboration", "status_tracking"
    ])

  /** The catalogue, keyed by role name. */
  const ROLES: map<string, Role> := map["admin" := AdminRole, "team" := TeamRole, "client" := ClientRole]

  /** A required (resource, action) pair. */
  datatype Requirement = Requirement(resource: string, action: string)

  /** The routes that need a permission; every other route is open. */
  const RoutePermissions: map<string, Requirement> := map[
    "/users" := Requirement("users", "read"),
    "/user-management" := Requirement("users", "manage_roles"),
    "/settings" := Requirement("settings", "read"),
    "/analytics" := Requirement("analytics", "read"),
    "/insights" := Requirement("analytics", "read"),
    "/billing" := Requirement("billing", "read")
  ]

  /** Within one role each resource is listed at most once. */
  predicate ResourcesDistinct(ps: seq<Permission>) {
    forall i, j :: 0 <= i < j < |ps| ==> ps[i].resource != ps[j].resource
  }

  /** `permissions.find(p => p.resource === resource)`: the first entry for `resource`. */
  function FindPermission(ps: seq<Permission>, resource: string): (r: Option<Permission>)
    ensures r.Some? ==> r.value.resource == resource
    decreases |ps|
  {
    if |ps| == 0 then None
    else if ps[0].resource == resource then Some(ps[0])
    else FindPermission(ps[1..], resource)
  }

  /** What the catalogue grants: `role` lists `resource` with `action` among its actions. */
  ghost predicate Grants(userRole: string, resource: string, action: string) {
    userRole in ROLES &&
    exists i :: 0 <= i < |ROLES[userRole].permissions| &&
      ROLES[userRole].permissions[i].resource == resource &&
      action in ROLES[userRole].permissions[i].actions
  }

  /** Deny by default: unknown role, unknown resource or unlisted action all give false. */
  function HasPermission(userRole: string, resource: string, action: string): (granted: bool)
    ensures granted ==> userRole in ROLES
  {
    if userRole !in ROLES then false
    else
      match FindPermission(ROLES[userRole].permissions, resource)
      case None => false
      case Some(p) => action in p.actions
  }

  /** Membership in the role's feature list; false for an unknown role. */
  function HasFeature(userRole: string, feature: string): (granted: bool)
    ensures granted <==> userRole in ROLES && feature in ROLES[userRole].features
  {
    if userRole in ROLES then feature in ROLES[userRole].features else false
  }

  /** Routes missing from the route table are open; mapped routes need their permission. */
  function CanAccessRoute(userRole: string, route: string): (granted: bool)
    ensures route !in RoutePermissions ==> granted
    ensures granted && route in RoutePermissions ==> userRole in ROLES
  {
    if route !in RoutePermissions then true
    else HasPermission(userRole, RoutePermissions[route].resource, RoutePermissions[route].action)
  }

  // ---------------------------------------------------------------------------
  // Properties of the catalogue and the lookups.
  // ---------------------------------------------------------------------------

  /** No role of the catalogue lists a resource twice, so `find` is unambiguous. */
  lemma CatalogueResourcesDistinct(userRole: string)
    requires userRole in ROLES
    ensures ResourcesDistinct(ROLES[userRole].permissions)
  {
  }

  /** `find` returns the first entry that names `resource`. */
  lemma {:induction false} FindPermissionFirst(ps: seq<Permission>, resource: string, i: int)
    requires 0 <= i < |ps| && ps[i].resource == resource
    requires forall j :: 0 <= j < i ==> ps[j].resource != resource
    ensures FindPermission(ps, resource) == Some(ps[i])
    decreases i
  {
    if i > 0 {
      FindPermissionFirst(ps[1..], resource, i - 1);
    }
  }

  /** `find` comes back empty exactly when no entry names `resource`. */
  lemma {:induction false} FindPermissionAbsent(ps: seq<Permission>, resource: string)
    ensures FindPermission(ps, resource).None? <==> forall i :: 0 <= i < |ps| ==> ps[i].resource != resource
    decreases |ps|
  {
    if |ps| > 0 && ps[0].resource != resource {
      FindPermissionAbsent(ps[1..], resource);
      assert forall i :: 1 <= i < |ps| ==> ps[i] == ps[1..][i - 1];
    }
  }

  /** With distinct resources, the first match is the only match. */
  lemma FindPermissionUnique(ps: seq<Permission>, resource: string, i: int)
    requires ResourcesDistinct(ps)
    requires 0 <= i < |ps| && ps[i].resource == resource
    ensures FindPermission(ps, resource) == Some(ps[i])
  {
    FindPermissionFirst(ps, resource, i);
  }

  /** Looking up the resource of a role's `i`-th entry finds that entry. */
  lemma RoleEntry(userRole: string, i: int)
    requires userRole in ROLES && 0 <= i < |ROLES[userRole].permissions|
    ensures FindPermission(ROLES[userRole].permissions, ROLES[userRole].permissions[i].resource)
      == Some(ROLES[userRole].permissions[i])
  {
    CatalogueResourcesDistinct(userRole);
    FindPermissionUnique(ROLES[userRole].permissions, ROLES[userRole].permissions[i].resource, i);
  }

  /**
   * `hasPermission(r, res, a)` holds exactly when role `r` has an entry for
   * `res` whose action list contains `a`.
   */
  lemma HasPermissionMeaning(userRole: string, resource: string, action: string)
    ensures HasPermission(userRole, resource, action) <==> Grants(userRole, resource, action)
  {
    if userRole in ROLES {
      var ps := ROLES[userRole].permissions;
      CatalogueResourcesDistinct(userRole);
      FindPermissionAbsent(ps, resource);
      if FindPermission(ps, resource).Some? {
        var i :| 0 <= i < |ps| && ps[i].resource == resource;
        FindPermissionUnique(ps, resource, i);
        if Grants(userRole, resource, action) {
          var k :| 0 <= k < |ps| && ps[k].resource == resource && action in ps[k].actions;
          assert k == i;
        }
      }
    }
  }

  /** An unknown role is denied every resource and action. */
  lemma UnknownRoleDenied(userRole: string, resource: string, action: string)
    requires userRole !in ROLES
    ensures !HasPermission(userRole, resource, action)
    ensures !Grants(userRole, resource, action)
  {
  }

  /** An unknown role has no feature. */
  lemma UnknownRoleHasNoFeature(userRole: string, feature: string)
    requires userRole !in ROLES
    ensures !HasFeature(userRole, feature)
  {
  }

  /** Where the team lists each of the client's resources. */
  function TeamIndexOfClient(i: nat): nat
  {
    if i == 0 then 1 else if i == 1 then 3 else 4
  }

  /** The team's entry for each of the client's resources lists at least the client's actions. */
  lemma TeamExtendsClientAt(i: int, action: string)
    requires 0 <= i < |ClientRole.permissions|
    requires action in ClientRole.permissions[i].actions
    ensures TeamIndexOfClient(i) < |TeamRole.permissions|
    ensures TeamRole.permissions[TeamIndexOfClient(i)].resource == ClientRole.permissions[i].resource
    ensures action in TeamRole.permissions[TeamIndexOfClient(i)].actions
  {
    if i == 0 {
    } else if i == 1 {
    } else {
    }
  }

  /** Every (resource, action) the client holds, the team holds too. */
  lemma ClientWithinTeam(resource: string, action: string)
    requires HasPermission("client", resource, action)
    ensures HasPermission("team", resource, action)
  {
    var c := ClientRole.permissions;
    CatalogueResourcesDistinct("client");
    FindPermissionAbsent(c, resource);
    var i :| 0 <= i < |c| && c[i].resource == resource;
    FindPermissionUnique(c, resource, i);
    TeamExtendsClientAt(i, action);
    CatalogueResourcesDistinct("team");
    FindPermissionUnique(TeamRole.permissions, resource, TeamIndexOfClient(i));
  }

  /** The admin's entry at each of the team's positions lists the same resource and more actions. */
  lemma AdminExtendsTeamAt(i: int, action: string)
    requires 0 <= i < |TeamRole.permissions|
    requires action in TeamRole.permissions[i].actions
    ensures AdminRole.permissions[i].resource == TeamRole.permissions[i].resource
    ensures action in AdminRole.permissions[i].actions
  {
    if i == 0 {
    } else if i == 1 {
    } else if i == 2 {
    } else if i == 3 {
    } else if i == 4 {
    } else if i == 5 {
    } else {
    }
  }

  /** Every (resource, action) the team holds, the admin holds too. */
  lemma TeamWithinAdmin(resource: string, action: string)
    requires HasPermission("team", resource, action)
    ensures HasPermission("admin", resource, action)
  {
    var t := TeamRole.permissions;
    CatalogueResourcesDistinct("team");
    FindPermissionAbsent(t, resource);
    var i :| 0 <= i < |t| && t[i].resource == resource;
    FindPermissionUnique(t, resource, i);
    AdminExtendsTeamAt(i, action);
    CatalogueResourcesDistinct("admin");
    FindPermissionUnique(AdminRole.permissions, resource, i);
  }

  /** Permissions nest: client within team within admin. */
  lemma PermissionsNest(resource: string, action: string)
    ensures HasPermission("client", resource, action) ==> HasPermission("team", resource, action)
    ensures HasPermission("team", resource, action) ==> HasPermission("admin", resource, action)
  {
    if HasPermission("client", resource, action) { ClientWithinTeam(resource, action); }
    if HasPermission("team", resource, action) { TeamWithinAdmin(resource, action); }
  }

  /** Feature lists do not nest: each role has a feature the next role up lacks. */
  lemma FeaturesDoNotNest()
    ensures HasFeature("client", "document_viewing") && !HasFeature("team", "document_viewing")
    ensures HasFeature("team", "document_management") && !HasFeature("admin", "document_management")
  {
  }

  /** The client holds nothing on users, folders, settings, analytics, billing or integrations. */
  lemma ClientDeniedResources(resource: string, action: string)
    requires resource in {"users", "folders", "settings", "analytics", "billing", "integrations"}
    ensures !HasPermission("client", resource, action)
  {
    var c := ClientRole.permissions;
    assert forall i :: 0 <= i < |c| ==> c[i].resource in {"documents", "tasks", "templates"};
    assert FindPermission(c, resource).None?;
  }

  /** The team has no entry for billing at all. */
  lemma TeamLacksBilling()
    ensures FindPermission(TeamRole.permissions, "billing").None?
  {
    var t := TeamRole.permissions;
    FindPermissionAbsent(t, "billing");
    assert forall i :: 0 <= i < |t| ==> t[i].resource in {"users", "documents", "folders", "tasks", "templates", "settings", "analytics"};
  }

  /** Billing: the admin may manage it, the team and the client may not. */
  lemma BillingExamples()
    ensures HasPermission("admin", "billing", "manage")
    ensures !HasPermission("team", "billing", "manage") && !HasPermission("client", "billing", "manage")
  {
    RoleEntry("admin", 7);
    TeamLacksBilling();
    ClientDeniedResources("billing", "manage");
  }

  /** Documents: the team may update but not delete. */
  lemma TeamDocumentExamples()
    ensures HasPermission("team", "documents", "update") && !HasPermission("team", "documents", "delete")
  {
    RoleEntry("team", 1);
  }

  /** Features: the client views documents but does not manage billing. */
  lemma ClientFeatureExamples()
    ensures HasFeature("client", "document_viewing") && !HasFeature("client", "billing_management")
  {
  }

  /** A route missing from the table is open to every role, known or not. */
  lemma UnmappedRouteOpen(userRole: string, route: string)
    requires route !in RoutePermissions
    ensures CanAccessRoute(userRole, route)
  {
  }

  /** A mapped route is exactly the permission it maps to. */
  lemma MappedRouteIsPermission(userRole: string, route: string)
    requires route in RoutePermissions
    ensures CanAccessRoute(userRole, route) <==>
      Grants(userRole, RoutePermissions[route].resource, RoutePermissions[route].action)
  {
    HasPermissionMeaning(userRole, RoutePermissions[route].resource, RoutePermissions[route].action);
  }

  /** The admin holds every permission the route table asks for. */
  lemma AdminPassesRouteTable(route: string)
    requires route in RoutePermissions
    ensures HasPermission("admin", RoutePermissions[route].resource, RoutePermissions[route].action)
  {
    var req := RoutePermissions[route];
    assert req in {Requirement("users", "read"), Requirement("users", "manage_roles"), Requirement("settings", "read"),
                   Requirement("analytics", "read"), Requirement("billing", "read")};
    AdminHoldsRoutePermissions();
  }

  /** The admin holds each permission the route table asks for. */
  lemma AdminHoldsRoutePermissions()
    ensures HasPermission("admin", "users", "read") && HasPermission("admin", "users", "manage_roles")
    ensures HasPermission("admin", "settings", "read") && HasPermission("admin", "analytics", "read")
    ensures HasPermission("admin", "billing", "read")
  {
    RoleEntry("admin", 0);
    RoleEntry("admin", 5);
    RoleEntry("admin", 6);
    RoleEntry("admin", 7);
  }

  /** Route access nests like permissions, and the admin can reach every route. */
  lemma RouteAccessNests(route: string)
    ensures CanAccessRoute("client", route) ==> CanAccessRoute("team", route)
    ensures CanAccessRoute("team", route) ==> CanAccessRoute("admin", route)
    ensures CanAccessRoute("admin", route)
  {
    if route in RoutePermissions {
      var req := RoutePermissions[route];
      PermissionsNest(req.resource, req.action);
      AdminPassesRouteTable(route);
    }
  }

  /** `/user-management` needs users/manage_roles: the admin passes, the client does not. */
  lemma UserManagementRoute()
    ensures CanAccessRoute("admin", "/user-management")
    ensures !CanAccessRoute("client", "/user-management")
  {
    assert "/user-management" in RoutePermissions;
    assert RoutePermissions["/user-management"] == Requirement("users", "manage_roles");
    AdminHoldsRoutePermissions();
    ClientDeniedResources("users", "manage_roles");
  }

  // ---------------------------------------------------------------------------
  // The lookups as JavaScript evaluates them. `ROLES[userRole]` and
  // `routePermissions[route]` index plain objects, so a key the object
  // inherits from `Object.prototype` finds a function or an object instead of
  // nothing. The functions above, which the rest of the model uses, read own
  // keys only.
  // ---------------------------------------------------------------------------

  /** Keys every plain JavaScript object inherits from `Object.prototype`. */
  const InheritedKeys: set<string> := {
    "constructor", "__proto__", "toString", "toLocaleString", "valueOf", "hasOwnProperty",
    "isPrototypeOf", "propertyIsEnumerable", "__defineGetter__", "__defineSetter__",
    "__lookupGetter__", "__lookupSetter__"
  }

  /** A boolean answer, or a `TypeError` thrown while computing it. */
  datatype Outcome = Returns(value: bool) | Throws

  /**
   * `hasPermission` as written: an inherited role key finds a truthy value
   * whose `permissions` is `undefined`, and calling `find` on it throws.
   */
  function HasPermissionAsWritten(userRole: string, resource: string, action: string): Outcome
  {
    if userRole in ROLES then Returns(HasPermission(userRole, resource, action))
    else if userRole in InheritedKeys then Throws
    else Returns(false)
  }

  /**
   * `canAccessRoute` as written: an inherited route key finds a truthy value
   * whose `resource` and `action` are `undefined`; no catalogue entry has an
   * undefined resource, so the answer is a denial (or a throw, for an
   * inherited role key).
   */
  function CanAccessRouteAsWritten(userRole: string, route: string): Outcome
  {
    if route in RoutePermissions then
      HasPermissionAsWritten(userRole, RoutePermissions[route].resource, RoutePermissions[route].action)
    else if route in InheritedKeys then
      (if userRole in InheritedKeys && userRole !in ROLES then Throws else Returns(false))
    else Returns(true)
  }

  /** Away from inherited keys, the lookups as written agree with the model. */
  lemma AsWrittenAgreesOffInheritedKeys(userRole: string, resource: string, action: string, route: string)
    requires userRole !in InheritedKeys && route !in InheritedKeys
    ensures HasPermissionAsWritten(userRole, resource, action) == Returns(HasPermission(userRole, resource, action))
    ensures CanAccessRouteAsWritten(userRole, route) == Returns(CanAccessRoute(userRole, route))
  {
  }

  /**
   * The discrepancy: "constructor" is not in the route table, yet the admin is
   * refused it, and asking about the role "toString" throws instead of denying.
   */
  lemma InheritedKeyCounterexample()
    ensures "constructor" !in RoutePermissions && CanAccessRoute("admin", "constructor")
    ensures CanAccessRouteAsWritten("admin", "constructor") == Returns(false)
    ensures HasPermissionAsWritten("toString", "documents", "read") == Throws
    ensures !HasPermission("toString", "documents", "read")
  {
  }
}
