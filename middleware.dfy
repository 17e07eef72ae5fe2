/** The request gate of `src/middleware.ts`: path classification by exact
    match and plain prefix, the redirect chain, and the security headers set
    in place on the pass-through response. The session and the role lookup
    are results handed in. */
module Middleware {

  import opened Wrappers

  const LoginPath: string := "/auth/login"
  const RegisterPath: string := "/auth/register"
  const DashboardPath: string := "/dashboard"

  /** What `supabase.auth.getSession()` produced (creating the client and
      awaiting the session); `SessionThrew` is an exception on either step. */
  datatype SessionResult = NoSession | Session(userId: string) | SessionThrew

  /** The `profiles` role lookup: no row, a row with its raw `role` column, or
      an exception. */
  datatype RoleLookup = NoRow | Row(role: string) | LookupThrew

  /** A redirect (with the optional `redirect` query parameter) or the
      pass-through response with its header map. */
  datatype Response = Redirect(location: string, redirectParam: Option<string>)
                    | Next(headers: map<string, string>)

  predicate StartsWith(s: string, prefix: string) {
    |prefix| <= |s| && s[..|prefix|] == prefix
  }

  predicate IsAuthRoute(pathname: string) {
    pathname == LoginPath || pathname == RegisterPath
  }

  predicate IsProtectedRoute(pathname: string) {
    StartsWith(pathname, "/dashboard") || StartsWith(pathname, "/form")
    || StartsWith(pathname, "/settings") || StartsWith(pathname, "/admin")
  }

  predicate IsAdminRoute(pathname: string) {
    StartsWith(pathname, "/admin")
  }

  /** The roles the admin gate lets through. */
  predicate AdminGateRole(role: string) {
    role == "ADMIN" || role == "RH"
  }

  /** The four headers every pass-through response carries. */
  function SecurityHeaders(): map<string, string> {
    map[
      "X-Frame-Options" := "DENY",
      "X-Content-Type-Options" := "nosniff",
      "Referrer-Policy" := "strict-origin-when-cross-origin",
      "Permissions-Policy" := "camera=(), microphone=(), geolocation=()"]
  }

  /** The response `middleware` returns. */
  function Decide(pathname: string, session: SessionResult, profile: RoleLookup): (r: Response)
    ensures r.Next? ==> r.headers == SecurityHeaders()
    ensures session.SessionThrew? ==> r == Next(SecurityHeaders())
    ensures session.NoSession? && IsProtectedRoute(pathname) ==> r == Redirect(LoginPath, Some(pathname))
    ensures session.Session? && IsAuthRoute(pathname) ==> r == Redirect(DashboardPath, None)
    ensures session.Session? && IsAdminRoute(pathname) ==>
      (r.Next? <==> profile.Row? && AdminGateRole(profile.role))
    ensures session.Session? && IsAdminRoute(pathname) && r.Redirect? ==> r == Redirect(DashboardPath, None)
    ensures session.Session? && !IsAuthRoute(pathname) && !IsAdminRoute(pathname) ==> r == Next(SecurityHeaders())
    ensures !IsProtectedRoute(pathname) && !IsAuthRoute(pathname) ==> r.Next?
  {
    match session
    case SessionThrew => Next(SecurityHeaders())
    case NoSession =>
      if IsProtectedRoute(pathname) then Redirect(LoginPath, Some(pathname))
      else Next(SecurityHeaders())
    case Session(_) =>
      if IsAuthRoute(pathname) then
        AuthRoutesAreNotProtected(pathname);
        Redirect(DashboardPath, None)
      else if IsAdminRoute(pathname) && !(profile.Row? && AdminGateRole(profile.role))
      then Redirect(DashboardPath, None)
      else Next(SecurityHeaders())
  }

  /** The header map of a `NextResponse`, set in place by `headers.set`. */
  class Headers {
    var entries: map<string, string>

    constructor ()
      ensures entries == map[]
    {
      entries := map[];
    }

    method Set(name: string, value: string)
      modifies this
      ensures entries == old(entries)[name := value]
    {
      entries := entries[name := value];
    }
  }

  /** The four `res.headers.set` calls shared by the normal and error exits. */
  method SetSecurityHeaders(h: Headers)
    modifies h
    ensures h.entries == old(h.entries) + SecurityHeaders()
  {
    h.Set("X-Frame-Options", "DENY");
    h.Set("X-Content-Type-Options", "nosniff");
    h.Set("Referrer-Policy", "strict-origin-when-cross-origin");
    h.Set("Permissions-Policy", "camera=(), microphone=(), geolocation=()");
  }

  /** `middleware`, following its branches and its in-place header updates. */
  method HandleRequest(pathname: string, session: SessionResult, profile: RoleLookup) returns (r: Response)
    ensures r == Decide(pathname, session, profile)
  {
    var res := new Headers();
    if session.SessionThrew? {
      // outer catch
      SetSecurityHeaders(res);
      return Next(res.entries);
    }
    var isAuthRoute := pathname == LoginPath || pathname == RegisterPath;
    var isProtectedRoute := StartsWith(pathname, "/dashboard") || StartsWith(pathname, "/form")
                            || StartsWith(pathname, "/settings") || StartsWith(pathname, "/admin");
    var isAdminRoute := StartsWith(pathname, "/admin");
    var hasSession := session.Session?;
    if isProtectedRoute && !hasSession {
      return Redirect(LoginPath, Some(pathname));
    }
    if isAuthRoute && hasSession {
      return Redirect(DashboardPath, None);
    }
    if isAdminRoute && hasSession {
      match profile
      case LookupThrew =>
        // inner catch
        return Redirect(DashboardPath, None);
      case NoRow =>
        return Redirect(DashboardPath, None);
      case Row(role) =>
        if role != "ADMIN" && role != "RH" {
          return Redirect(DashboardPath, None);
        }
    }
    SetSecurityHeaders(res);
    assert map[] + SecurityHeaders() == SecurityHeaders();
    return Next(res.entries);
  }

  /** The prefix test also protects paths that merely begin with a protected
      word. */
  lemma PrefixOverreach()
    ensures IsProtectedRoute("/formulario") && IsProtectedRoute("/administrator")
    ensures IsAdminRoute("/administrator")
  {
    assert "/formulario"[..5] == "/form";
    assert "/administrator"[..6] == "/admin";
  }

  /** Auth routes are never protected (and so never admin routes). */
  lemma AuthRoutesAreNotProtected(pathname: string)
    requires IsAuthRoute(pathname)
    ensures !IsProtectedRoute(pathname)
  {
    // Both auth routes begin "/au"; the protected prefixes begin "/da",
    // "/fo", "/se" and "/ad".
    assert pathname[1] == 'a' && pathname[2] == 'u';
    assert !StartsWith(pathname, "/dashboard") by {
      if |pathname| >= 10 { assert pathname[..10][2] != "/dashboard"[2]; }
    }
    assert !StartsWith(pathname, "/form") by {
      assert pathname[..5][1] != "/form"[1];
    }
    assert !StartsWith(pathname, "/settings") by {
      if |pathname| >= 9 { assert pathname[..9][1] != "/settings"[1]; }
    }
    assert !StartsWith(pathname, "/admin") by {
      assert pathname[..6][2] != "/admin"[2];
    }
  }

  /** An anonymous request for an auth route always passes. */
  lemma AnonymousAuthRoutePasses(pathname: string, profile: RoleLookup)
    requires IsAuthRoute(pathname)
    ensures Decide(pathname, NoSession, profile) == Next(SecurityHeaders())
  {
    AuthRoutesAreNotProtected(pathname);
  }

  /** The admin gate, for a signed-in request: SUPER_ADMIN and CANDIDATE are
      sent to the dashboard, ADMIN and RH pass. */
  lemma AdminGateByRole(pathname: string, userId: string)
    requires IsAdminRoute(pathname)
    ensures Decide(pathname, Session(userId), Row("SUPER_ADMIN")) == Redirect(DashboardPath, None)
    ensures Decide(pathname, Session(userId), Row("CANDIDATE")) == Redirect(DashboardPath, None)
    ensures Decide(pathname, Session(userId), Row("ADMIN")).Next?
    ensures Decide(pathname, Session(userId), Row("RH")).Next?
  {
    if IsAuthRoute(pathname) {
      AuthRoutesAreNotProtected(pathname);
    }
  }

  /** If retrieving the session throws, even a protected path passes with
      only the headers: the gate fails open. */
  lemma SessionErrorFailsOpen(pathname: string, profile: RoleLookup)
    ensures Decide(pathname, SessionThrew, profile) == Next(SecurityHeaders())
  {
  }
}
