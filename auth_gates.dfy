/** The three layers that guard the administration pages side by side: the
    request gate of `src/middleware.ts`, the `AdminRoute` wrapper of
    `ProtectedRoute.tsx`, and `checkRouteAccess` of `src/lib/auth.ts`. Each
    admits a different set of roles for `/admin`. */
module AuthGates {

  import opened Wrappers
  import opened Auth
  import ProtectedRoute
  import Middleware

  /** The string stored in the `role` column for each role. */
  function RoleName(role: Role): (name: string)
    ensures (name == "ADMIN" || name == "RH") <==> (role == Admin || role == Rh)
    ensures name == "SUPER_ADMIN" <==> role == SuperAdmin
  {
    match role
    case Candidate => "CANDIDATE"
    case Rh => "RH"
    case Admin => "ADMIN"
    case SuperAdmin => "SUPER_ADMIN"
  }

  /** Distinct roles are stored under distinct names. */
  lemma RoleNamesDistinct(a: Role, b: Role)
    ensures RoleName(a) == RoleName(b) <==> a == b
  {
  }

  /** A signed-in request for `/admin` with a stored role passes the request gate. */
  predicate PassesMiddleware(role: Role) {
    Middleware.Decide("/admin", Middleware.Session("u"), Middleware.Row(RoleName(role))).Next?
  }

  /** An active profile passes `AdminRoute` from the initial state. */
  predicate PassesAdminRoute(role: Role) {
    var p := UserProfile("u", role, true, 0, Unset);
    ProtectedRoute.Outcome(ProtectedRoute.Initial, false, true, ProtectedRoute.Found(p),
                           Some(ProtectedRoute.RequiredRole(ProtectedRoute.AdminRoute)), None).authorized
  }

  /** `checkRouteAccess(role, "/admin")`. */
  predicate PassesRouteTable(role: Role) {
    CheckRouteAccess(role, "/admin")
  }

  /** The request gate admits exactly ADMIN and RH. */
  lemma {:induction false} MiddlewareAdmits(role: Role)
    ensures PassesMiddleware(role) <==> role == Admin || role == Rh
  {
    assert Middleware.IsAdminRoute("/admin") by {
      assert "/admin"[..6] == "/admin";
    }
    assert !Middleware.IsAuthRoute("/admin");
  }

  /** `AdminRoute` admits exactly ADMIN and SUPER_ADMIN. */
  lemma {:induction false} AdminRouteAdmits(role: Role)
    ensures PassesAdminRoute(role) <==> role == Admin || role == SuperAdmin
  {
    ProtectedRoute.WrapperAdmits(ProtectedRoute.AdminRoute, UserProfile("u", role, true, 0, Unset));
  }

  /** The three gates disagree: SUPER_ADMIN is turned away by the request
      gate, RH by `AdminRoute`, ADMIN by the route table, so no role gets
      through all three. */
  lemma {:induction false} NoRolePassesAllAdminGates(role: Role)
    ensures !(PassesMiddleware(role) && PassesAdminRoute(role) && PassesRouteTable(role))
    ensures !PassesMiddleware(SuperAdmin) && !PassesAdminRoute(Rh) && !PassesRouteTable(Admin)
  {
    MiddlewareAdmits(role);
    AdminRouteAdmits(role);
    TopLevelRoutesOnlyForSuperAdmin(role);
    MiddlewareAdmits(SuperAdmin);
    AdminRouteAdmits(Rh);
    TopLevelRoutesOnlyForSuperAdmin(Admin);
  }
}
