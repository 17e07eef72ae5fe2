/** The client-side route guard of `src/components/auth/ProtectedRoute.tsx`:
    the `checkAuthorization` effect as a state change over the component's
    `authorized`/`checking` flags (and the navigation it requests), the
    role ranks, the render choice, and the three wrapper components. */
module ProtectedRoute {

  import opened Wrappers
  import opened Auth

  const LoginRoute: string := "/auth/login"

  /** `roleHierarchy`. */
  function Rank(role: Role): int {
    match role
    case Candidate => 1
    case Rh => 2
    case Admin => 3
    case SuperAdmin => 4
  }

  /** The rank test: a profile fails it iff its rank is below the required one. */
  predicate MeetsRank(role: Role, required: Role) {
    !(Rank(role) < Rank(required))
  }

  /** The roles in hierarchy order, lowest first. */
  const Hierarchy: seq<Role> := [Candidate, Rh, Admin, SuperAdmin]

  /** The ranks follow the hierarchy order exactly: `MeetsRank(a, b)` holds
      iff `a` stands at or after `b` in `Hierarchy`. */
  lemma {:induction false} MeetsRankFollowsHierarchy(a: Role, b: Role, i: nat, j: nat)
    requires i < |Hierarchy| && j < |Hierarchy|
    requires Hierarchy[i] == a && Hierarchy[j] == b
    ensures MeetsRank(a, b) <==> j <= i
  {
    assert Rank(Hierarchy[i]) == i + 1 && Rank(Hierarchy[j]) == j + 1 by {
      assert Rank(Hierarchy[0]) == 1 && Rank(Hierarchy[1]) == 2;
      assert Rank(Hierarchy[2]) == 3 && Rank(Hierarchy[3]) == 4;
    }
  }

  /** `requiredPermission`. */
  datatype PermissionRequest = PermissionRequest(resource: string, action: Action)

  /** What awaiting `getUserProfile(user.id)` produced: a profile, `null`, or
      an exception. */
  datatype ProfileLookup = Found(profile: UserProfile) | NotFound | Threw

  /** The component state the effect changes, plus the last `router.push`. */
  datatype GuardState = GuardState(authorized: bool, checking: bool, navigation: Option<string>)

  /** `useState(false)`, `useState(true)`, nothing pushed. */
  const Initial: GuardState := GuardState(false, true, None)

  predicate PermissionPasses(role: Role, requested: Option<PermissionRequest>) {
    requested.None? || CanAccess(role, requested.value.resource, requested.value.action)
  }

  predicate RankPasses(role: Role, required: Option<Role>) {
    required.None? || MeetsRank(role, required.value)
  }

  /** The state after one run of `checkAuthorization`. Early `return`s inside
      the `try` still run the `finally`, which clears `checking`; the two
      returns before the `try` do not. `authorized` is only ever written on
      the denial, exception and grant paths, so a redirect keeps its value. */
  function Outcome(s: GuardState, loading: bool, signedIn: bool, lookup: ProfileLookup,
                   requiredRole: Option<Role>, requiredPermission: Option<PermissionRequest>): GuardState
  {
    if loading then s
    else if !signedIn then s.(navigation := Some(LoginRoute))
    else match lookup
      case Threw => s.(authorized := false, checking := false)
      case NotFound => s.(navigation := Some(LoginRoute), checking := false)
      case Found(p) =>
        if !p.isActive then s.(navigation := Some(LoginRoute), checking := false)
        else if !PermissionPasses(p.role, requiredPermission) then s.(authorized := false, checking := false)
        else if !RankPasses(p.role, requiredRole) then s.(authorized := false, checking := false)
        else s.(authorized := true, checking := false)
  }

  /** The component's state, updated in place by the effect. */
  class Guard {
    var authorized: bool
    var checking: bool
    var navigation: Option<string>

    function State(): GuardState
      reads this
    {
      GuardState(authorized, checking, navigation)
    }

    constructor ()
      ensures State() == Initial
    {
      authorized := false;
      checking := true;
      navigation := None;
    }

    /** `checkAuthorization`, statement by statement. */
    method CheckAuthorization(loading: bool, signedIn: bool, lookup: ProfileLookup,
                              requiredRole: Option<Role>, requiredPermission: Option<PermissionRequest>)
      modifies this
      ensures State() == Outcome(old(State()), loading, signedIn, lookup, requiredRole, requiredPermission)
    {
      if loading {
        return;
      }
      if !signedIn {
        navigation := Some(LoginRoute);
        return;
      }
      if lookup.Threw? {
        // catch
        authorized := false;
      } else if lookup.NotFound? {
        navigation := Some(LoginRoute);
      } else {
        var profile := lookup.profile;
        if !profile.isActive {
          navigation := Some(LoginRoute);
        } else if requiredPermission.Some?
                  && !CanAccess(profile.role, requiredPermission.value.resource, requiredPermission.value.action) {
          authorized := false;
          checking := false;
        } else if requiredRole.Some? && Rank(profile.role) < Rank(requiredRole.value) {
          authorized := false;
          checking := false;
        } else {
          authorized := true;
        }
      }
      // finally
      checking := false;
    }
  }

  /** What the component renders. */
  datatype View = Spinner | FallbackView | AccessDenied | Children

  function Render(loading: bool, s: GuardState, hasFallback: bool): (v: View)
    ensures v == Spinner <==> loading || s.checking
    ensures v == Children <==> !loading && !s.checking && s.authorized
    ensures v == FallbackView <==> !loading && !s.checking && !s.authorized && hasFallback
  {
    if loading || s.checking then Spinner
    else if !s.authorized then (if hasFallback then FallbackView else AccessDenied)
    else Children
  }

  /** From the initial state, the guard grants exactly when the user is
      signed in, the profile exists and is active, and both requested checks
      pass. */
  lemma GrantedExactlyWhenAllChecksPass(loading: bool, signedIn: bool, lookup: ProfileLookup,
                                        requiredRole: Option<Role>, requiredPermission: Option<PermissionRequest>)
    ensures Outcome(Initial, loading, signedIn, lookup, requiredRole, requiredPermission).authorized
      <==> !loading && signedIn && lookup.Found? && lookup.profile.isActive
           && PermissionPasses(lookup.profile.role, requiredPermission)
           && RankPasses(lookup.profile.role, requiredRole)
  {
  }

  /** From any state, a run that newly sets `authorized` had every check pass. */
  lemma GrantNeedsEveryCheck(s: GuardState, loading: bool, signedIn: bool, lookup: ProfileLookup,
                             requiredRole: Option<Role>, requiredPermission: Option<PermissionRequest>)
    requires !s.authorized
    requires Outcome(s, loading, signedIn, lookup, requiredRole, requiredPermission).authorized
    ensures signedIn && lookup.Found? && lookup.profile.isActive
    ensures PermissionPasses(lookup.profile.role, requiredPermission)
    ensures RankPasses(lookup.profile.role, requiredRole)
  {
  }

  /** With neither requirement, every found and active profile is admitted. */
  lemma NoRequirementAdmitsActiveProfiles(s: GuardState, p: UserProfile)
    requires p.isActive
    ensures Outcome(s, false, true, Found(p), None, None) == s.(authorized := true, checking := false)
  {
  }

  /** An exception during the check leaves the guard closed and done. */
  lemma ExceptionFailsClosed(s: GuardState, requiredRole: Option<Role>, requiredPermission: Option<PermissionRequest>)
    ensures Outcome(s, false, true, Threw, requiredRole, requiredPermission) == s.(authorized := false, checking := false)
  {
  }

  /** A missing or inactive profile redirects to the login page and grants
      nothing; the previous `authorized` value is left as it was. */
  lemma MissingOrInactiveRedirects(s: GuardState, lookup: ProfileLookup,
                                   requiredRole: Option<Role>, requiredPermission: Option<PermissionRequest>)
    requires lookup.NotFound? || (lookup.Found? && !lookup.profile.isActive)
    ensures Outcome(s, false, true, lookup, requiredRole, requiredPermission)
            == s.(navigation := Some(LoginRoute), checking := false)
  {
  }

  /** A grant from an earlier run survives a later run that finds no profile:
      the children stay rendered while the login redirect is requested. */
  lemma EarlierGrantSurvivesMissingProfile(requiredRole: Option<Role>, requiredPermission: Option<PermissionRequest>)
    ensures var s := GuardState(true, false, None);
            var t := Outcome(s, false, true, NotFound, requiredRole, requiredPermission);
            Render(false, t, false) == Children && t.navigation == Some(LoginRoute)
  {
  }

  /** Only `is_active` is read: neither the lock nor the failed-attempt
      counter changes the outcome. */
  lemma {:induction false} LockAndAttemptsIgnored(s: GuardState, p: UserProfile, lockedUntil: LockedUntil, attempts: int,
                                                  requiredRole: Option<Role>, requiredPermission: Option<PermissionRequest>)
    ensures var q := p.(lockedUntil := lockedUntil, failedLoginAttempts := attempts);
            Outcome(s, false, true, Found(q), requiredRole, requiredPermission)
            == Outcome(s, false, true, Found(p), requiredRole, requiredPermission)
  {
    var q := p.(lockedUntil := lockedUntil, failedLoginAttempts := attempts);
    assert q.isActive == p.isActive && q.role == p.role;
  }

  /** With no signed-in user the effect never clears `checking`, so from the
      initial state the spinner is all that is ever rendered. */
  lemma {:induction false} NoUserSpinsForever(s: GuardState, lookup: ProfileLookup, hasFallback: bool,
                                              requiredRole: Option<Role>, requiredPermission: Option<PermissionRequest>)
    requires s.checking
    ensures var t := Outcome(s, false, false, lookup, requiredRole, requiredPermission);
            t.checking && Render(false, t, hasFallback) == Spinner && t.navigation == Some(LoginRoute)
  {
  }

  /** While the auth context is loading, the effect changes nothing and
      neither the children nor a denial view is rendered. */
  lemma LoadingShowsOnlySpinner(s: GuardState, signedIn: bool, lookup: ProfileLookup, hasFallback: bool,
                                requiredRole: Option<Role>, requiredPermission: Option<PermissionRequest>)
    ensures Outcome(s, true, signedIn, lookup, requiredRole, requiredPermission) == s
    ensures Render(true, s, hasFallback) == Spinner
  {
  }

  /** `AdminRoute`, `RHRoute` and `SuperAdminRoute`: a guard with only a
      required role. */
  datatype RouteWrapper = AdminRoute | RhRoute | SuperAdminRoute

  function RequiredRole(w: RouteWrapper): Role {
    match w
    case AdminRoute => Admin
    case RhRoute => Rh
    case SuperAdminRoute => SuperAdmin
  }

  /** The roles each wrapper lets through, for an active profile checked
      from the initial state. */
  lemma WrapperAdmits(w: RouteWrapper, p: UserProfile)
    requires p.isActive
    ensures var t := Outcome(Initial, false, true, Found(p), Some(RequiredRole(w)), None);
            t.authorized <==>
              match w
              case AdminRoute => p.role == Admin || p.role == SuperAdmin
              case RhRoute => p.role != Candidate
              case SuperAdminRoute => p.role == SuperAdmin
  {
  }
}
