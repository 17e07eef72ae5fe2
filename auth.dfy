/** The static grant table of `src/lib/auth.ts` and the pure predicates built
    on it: permission lookup with wildcard and `manage` subsumption, the
    account-status predicates, and the route-to-grant table. */
module Auth {

  import opened Wrappers

  datatype Role = Candidate | Rh | Admin | SuperAdmin

  datatype Action = Create | Read | Update | Delete | Manage

  /** One entry of the grant table. */
  datatype Permission = Permission(id: string, name: string, resource: string, action: Action)

  /** The resource that matches every resource. */
  const Wildcard: string := "*"

  /** `locked_until`: unset (null or empty, both falsy), a parsed instant in
      milliseconds, or a string that `new Date` cannot parse. */
  datatype LockedUntil = Unset | At(ms: int) | Unparseable

  /** The fields of a user profile that the authorization code reads. */
  datatype UserProfile = UserProfile(
    id: string,
    role: Role,
    isActive: bool,
    failedLoginAttempts: int,
    lockedUntil: LockedUntil)

  /** `ROLE_PERMISSIONS`. */
  function RolePermissions(role: Role): seq<Permission> {
    match role
    case Candidate => [
      Permission("1", "view_own_profile", "profile", Read),
      Permission("2", "update_own_profile", "profile", Update),
      Permission("3", "submit_assessment", "assessment", Create),
      Permission("4", "view_own_results", "results", Read)]
    case Rh => [
      Permission("5", "view_candidates", "candidates", Read),
      Permission("6", "view_assessments", "assessments", Read),
      Permission("7", "export_reports", "reports", Read),
      Permission("8", "manage_candidates", "candidates", Manage)]
    case Admin => [
      Permission("9", "manage_users", "users", Manage),
      Permission("10", "manage_system", "system", Manage),
      Permission("11", "view_analytics", "analytics", Read),
      Permission("12", "manage_backups", "backups", Manage)]
    case SuperAdmin => [
      Permission("13", "full_access", Wildcard, Manage)]
  }

  /** The test inside `permissions.some(...)`. */
  predicate Covers(p: Permission, resource: string, action: Action) {
    (p.resource == resource || p.resource == Wildcard) && (p.action == action || p.action == Manage)
  }

  /** `hasPermission`: SUPER_ADMIN short-circuits to true; every other role
      needs one covering entry in its own list. */
  function HasPermission(role: Role, resource: string, action: Action): (r: bool)
    ensures role == SuperAdmin ==> r
    ensures role != SuperAdmin ==>
      (r <==> exists p :: p in RolePermissions(role) && Covers(p, resource, action))
  {
    var permissions := RolePermissions(role);
    if role == SuperAdmin then true
    else exists i | 0 <= i < |permissions| :: Covers(permissions[i], resource, action)
  }

  /** `canAccess` forwards to `hasPermission`. */
  function CanAccess(role: Role, resource: string, action: Action): (r: bool)
    ensures r == HasPermission(role, resource, action)
  {
    HasPermission(role, resource, action)
  }

  /** An independent, hand-expanded reading of the table: which
      (resource, action) pairs each role is granted once `manage` is expanded
      to all five actions. */
  predicate ExpandedGrant(role: Role, resource: string, action: Action) {
    match role
    case Candidate =>
      (resource == "profile" && (action == Read || action == Update))
      || (resource == "assessment" && action == Create)
      || (resource == "results" && action == Read)
    case Rh =>
      resource == "candidates"
      || ((resource == "assessments" || resource == "reports") && action == Read)
    case Admin =>
      resource == "users" || resource == "system" || resource == "backups"
      || (resource == "analytics" && action == Read)
    case SuperAdmin => true
  }

  /** The lookup agrees with the expanded table for every role, resource
      and action. */
  lemma {:induction false} HasPermissionIsExpandedGrant(role: Role, resource: string, action: Action)
    ensures HasPermission(role, resource, action) <==> ExpandedGrant(role, resource, action)
  {
    var ps := RolePermissions(role);
    match role
    case Candidate =>
      assert ExpandedGrant(role, resource, action) ==>
        Covers(ps[0], resource, action) || Covers(ps[1], resource, action)
        || Covers(ps[2], resource, action) || Covers(ps[3], resource, action);
    case Rh =>
      assert ExpandedGrant(role, resource, action) ==>
        Covers(ps[0], resource, action) || Covers(ps[1], resource, action)
        || Covers(ps[2], resource, action) || Covers(ps[3], resource, action);
    case Admin =>
      assert ExpandedGrant(role, resource, action) ==>
        Covers(ps[0], resource, action) || Covers(ps[1], resource, action)
        || Covers(ps[2], resource, action) || Covers(ps[3], resource, action);
    case SuperAdmin =>
  }

  /** SUPER_ADMIN holds every (resource, action) pair. */
  lemma SuperAdminHoldsEverything(resource: string, action: Action)
    ensures HasPermission(SuperAdmin, resource, action)
  {
  }

  /** A `manage` entry grants all five actions on its resource. */
  lemma {:induction false} ManageGrantsEveryAction(role: Role, i: nat, action: Action)
    requires i < |RolePermissions(role)|
    requires RolePermissions(role)[i].action == Manage
    ensures HasPermission(role, RolePermissions(role)[i].resource, action)
  {
    var p := RolePermissions(role)[i];
    assert p in RolePermissions(role) && Covers(p, p.resource, action);
  }

  /** Concrete consequences of `manage` subsumption. */
  lemma ManageExamples()
    ensures HasPermission(Rh, "candidates", Delete)
    ensures HasPermission(Admin, "users", Create)
  {
    ManageGrantsEveryAction(Rh, 3, Delete);
    ManageGrantsEveryAction(Admin, 0, Create);
  }

  /** Grants are not inherited along the role ranks: RH reads candidates,
      ADMIN does not. */
  lemma {:induction false} NoInheritanceUpTheRanks()
    ensures HasPermission(Rh, "candidates", Read)
    ensures !HasPermission(Admin, "candidates", Read)
  {
    HasPermissionIsExpandedGrant(Rh, "candidates", Read);
    HasPermissionIsExpandedGrant(Admin, "candidates", Read);
  }

  /** `isUserActive`, with the current instant `now` passed in. An
      unparseable `locked_until` compares false, so it does not lock. */
  function IsUserActive(profile: UserProfile, now: int): (r: bool)
    ensures !r <==> !profile.isActive || (profile.lockedUntil.At? && profile.lockedUntil.ms > now)
  {
    if !profile.isActive then false
    else if profile.lockedUntil != Unset && LockedAfter(profile.lockedUntil, now) then false
    else true
  }

  /** `new Date(lockedUntil) > new Date()`; an invalid date is NaN and
      every comparison with NaN is false. */
  predicate LockedAfter(l: LockedUntil, now: int) {
    match l
    case Unset => false
    case At(ms) => ms > now
    case Unparseable => false
  }

  /** The failed-attempt threshold. */
  const MaxFailedAttempts: int := 5

  /** `canUserLogin`. */
  function CanUserLogin(profile: UserProfile, now: int): (r: bool)
    ensures r ==> IsUserActive(profile, now)
    ensures r <==> IsUserActive(profile, now) && profile.failedLoginAttempts < MaxFailedAttempts
  {
    if !IsUserActive(profile, now) then false
    else if profile.failedLoginAttempts >= MaxFailedAttempts then false
    else true
  }

  /** Five failures keep login closed even once the lock has expired. */
  lemma ExpiredLockStillBlocksAfterFiveFailures(profile: UserProfile, now: int)
    requires profile.failedLoginAttempts >= MaxFailedAttempts
    requires profile.lockedUntil.At? && profile.lockedUntil.ms <= now
    ensures IsUserActive(profile, now) == profile.isActive
    ensures !CanUserLogin(profile, now)
  {
  }

  /** The route-to-grant table inside `checkRouteAccess`. */
  function RouteRequirement(route: string): Option<(string, Action)> {
    if route == "/dashboard" then Some(("dashboard", Read))
    else if route == "/settings" then Some(("settings", Read))
    else if route == "/settings/users" then Some(("users", Read))
    else if route == "/settings/backup" then Some(("backups", Read))
    else if route == "/settings/api-panel" then Some(("system", Read))
    else if route == "/admin" then Some(("admin", Read))
    else if route == "/admin/dashboard" then Some(("admin", Read))
    else if route == "/admin/users" then Some(("users", Manage))
    else if route == "/admin/system" then Some(("system", Manage))
    else None
  }

  /** The names an object literal inherits from `Object.prototype`. Looking
      one of them up in the route table yields a function or an object, which
      is truthy and has no `resource` or `action` property. */
  const InheritedNames: set<string> := {
    "constructor", "hasOwnProperty", "isPrototypeOf", "propertyIsEnumerable",
    "toString", "toLocaleString", "valueOf", "__proto__",
    "__defineGetter__", "__defineSetter__", "__lookupGetter__", "__lookupSetter__"}

  /** Only SUPER_ADMIN's list holds a wildcard entry, so for every other role
      no entry matches a resource that is no string at all (`undefined`). */
  lemma OnlySuperAdminHoldsWildcard(role: Role)
    ensures (exists p :: p in RolePermissions(role) && p.resource == Wildcard) <==> role == SuperAdmin
  {
    if role == SuperAdmin {
      assert RolePermissions(role)[0].resource == Wildcard;
    }
  }

  /** `checkRouteAccess`: unmapped routes are allowed by default. An
      inherited name is found by the lookup, and `canAccess` with an
      `undefined` resource and action then holds for SUPER_ADMIN alone. */
  function CheckRouteAccess(role: Role, route: string): (r: bool)
    ensures route in InheritedNames ==> (r <==> role == SuperAdmin)
    ensures route !in InheritedNames && RouteRequirement(route).None? ==> r
    ensures RouteRequirement(route).Some? ==>
      r == CanAccess(role, RouteRequirement(route).value.0, RouteRequirement(route).value.1)
  {
    var requirement := RouteRequirement(route);
    if route in InheritedNames then role == SuperAdmin
    else if requirement.None? then true
    else CanAccess(role, requirement.value.0, requirement.value.1)
  }

  /** `checkRouteAccess('CANDIDATE', 'constructor')` is false, while a path
      the table does not map is allowed. */
  lemma InheritedNameDeniedUnmappedAllowed()
    ensures !CheckRouteAccess(Candidate, "constructor")
    ensures CheckRouteAccess(Candidate, "/unknown")
  {
  }

  /** `/dashboard`, `/settings` and `/admin` name resources that only the
      wildcard entry covers, so only SUPER_ADMIN passes them. */
  lemma {:induction false} TopLevelRoutesOnlyForSuperAdmin(role: Role)
    ensures CheckRouteAccess(role, "/dashboard") <==> role == SuperAdmin
    ensures CheckRouteAccess(role, "/settings") <==> role == SuperAdmin
    ensures CheckRouteAccess(role, "/admin") <==> role == SuperAdmin
  {
    HasPermissionIsExpandedGrant(role, "dashboard", Read);
    HasPermissionIsExpandedGrant(role, "settings", Read);
    HasPermissionIsExpandedGrant(role, "admin", Read);
  }

  /** The user and system administration routes open to ADMIN and
      SUPER_ADMIN and to no one else. */
  lemma {:induction false} AdministrationRoutesForAdmins(role: Role)
    ensures CheckRouteAccess(role, "/admin/users") <==> role == Admin || role == SuperAdmin
    ensures CheckRouteAccess(role, "/settings/users") <==> role == Admin || role == SuperAdmin
  {
    HasPermissionIsExpandedGrant(role, "users", Manage);
    HasPermissionIsExpandedGrant(role, "users", Read);
  }
}
