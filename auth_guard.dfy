/** The render decision of the authentication guard (src/guards/AuthGuard.tsx),
    as an outcome instead of markup. */
module AuthGuard {
  import opened Wrappers
  import opened StoreTypes
  import opened Text
  import Keycloak
  import UseAuth

  /** What the guard reads from the authentication hook. `grantedRoles` are the
      roles the hook's `hasAnyRole` accepts. */
  datatype AuthView = AuthView(
    isAuthenticated: bool,
    isInitializing: bool,
    initError: Option<string>,
    user: Option<User>,
    authInitialized: bool,
    grantedRoles: set<string>)

  datatype AuthOutcome =
    | ShowLoading
    | ShowInitError
    | ShowPermissionDenied
    | RedirectTo(path: string)
    | ShowInconsistentState
    | RenderChildren

  const DefaultFallbackPath := "/auth/login"

  /** The role check passes: no roles required, or a user holding one. */
  predicate RolesSatisfied(v: AuthView, roles: seq<string>) {
    |roles| == 0 || (v.user.Some? && SomeIn(roles, v.grantedRoles))
  }

  /** The guard, with its two optional props (`requiredRoles` defaults to
      `[]`, `fallbackPath` to `'/auth/login'`). */
  function Decide(v: AuthView, requiredRoles: Option<seq<string>>, fallbackPath: Option<string>): (o: AuthOutcome)
    ensures v.isInitializing ==> o == ShowLoading
    ensures !v.isInitializing && v.initError.Some? ==> o == ShowInitError
    ensures o == RenderChildren <==>
      !v.isInitializing && v.initError.None? && v.isAuthenticated && v.authInitialized &&
      RolesSatisfied(v, requiredRoles.GetOr([]))
    ensures o == ShowPermissionDenied <==>
      !v.isInitializing && v.initError.None? && v.isAuthenticated && !RolesSatisfied(v, requiredRoles.GetOr([]))
    ensures o.RedirectTo? <==>
      !v.isInitializing && v.initError.None? && !v.isAuthenticated && v.authInitialized
    ensures o.RedirectTo? ==> o.path == fallbackPath.GetOr(DefaultFallbackPath)
    ensures o == ShowInconsistentState <==>
      !v.isInitializing && v.initError.None? && !v.authInitialized &&
      (!v.isAuthenticated || RolesSatisfied(v, requiredRoles.GetOr([])))
  {
    var roles := requiredRoles.GetOr([]);
    if v.isInitializing then ShowLoading
    else if v.initError.Some? then ShowInitError
    else if v.isAuthenticated && |roles| > 0 && (v.user.None? || !SomeIn(roles, v.grantedRoles)) then ShowPermissionDenied
    else if !v.isAuthenticated && v.authInitialized then RedirectTo(fallbackPath.GetOr(DefaultFallbackPath))
    else if !v.authInitialized && !v.isInitializing && v.initError.None? then ShowInconsistentState
    else RenderChildren
  }

  /** With no required roles the role check never blocks. */
  lemma NoRolesNeverDenied(v: AuthView, fallbackPath: Option<string>)
    ensures Decide(v, None, fallbackPath) != ShowPermissionDenied
    ensures Decide(v, Some([]), fallbackPath) == Decide(v, None, fallbackPath)
  {
  }

  /** The view the guard gets from the hook's local state, the store and the
      service. */
  function ViewOf(s: GlobalState, kc: Option<Keycloak.Instance>, isInitializing: bool, initError: Option<string>): (v: AuthView)
    ensures v.isAuthenticated == UseAuth.ExposedAuthenticated(s, kc)
    ensures v.user == s.user && v.authInitialized == s.authInitialized
    ensures forall role :: role in v.grantedRoles <==> Keycloak.HasRoleIn(kc, role)
  {
    AuthView(UseAuth.ExposedAuthenticated(s, kc), isInitializing, initError, s.user, s.authInitialized,
      if Keycloak.IsAuthenticatedIn(kc) then kc.value.session.grantedRoles else {})
  }

  /** The guard's role check is the service's `hasAnyRole`. */
  lemma GrantedMatchesService(s: GlobalState, kc: Option<Keycloak.Instance>, isInitializing: bool,
                              initError: Option<string>, roles: seq<string>)
    ensures SomeIn(roles, ViewOf(s, kc, isInitializing, initError).grantedRoles) == Keycloak.HasAnyRoleIn(kc, roles)
  {
  }

  /** Protected children render only when initialisation has finished without
      error, auth is initialised in the store, the store and the service both
      say authenticated, and some required role (if any) is held by the user. */
  lemma RenderOnlyWhenSignedIn(s: GlobalState, kc: Option<Keycloak.Instance>, isInitializing: bool,
                               initError: Option<string>, roles: seq<string>, fallbackPath: Option<string>)
    requires Decide(ViewOf(s, kc, isInitializing, initError), Some(roles), fallbackPath) == RenderChildren
    ensures !isInitializing && initError.None?
    ensures s.authInitialized && s.isAuthenticated && Keycloak.IsAuthenticatedIn(kc)
    ensures |roles| > 0 ==> s.user.Some? && exists i :: 0 <= i < |roles| && Keycloak.HasRoleIn(kc, roles[i])
  {
    GrantedMatchesService(s, kc, isInitializing, initError, roles);
  }

  /** The converse: in that situation the children do render. */
  lemma SignedInRenders(s: GlobalState, kc: Option<Keycloak.Instance>, roles: seq<string>, fallbackPath: Option<string>)
    requires s.authInitialized && s.isAuthenticated && Keycloak.IsAuthenticatedIn(kc)
    requires |roles| == 0 || (s.user.Some? && Keycloak.HasAnyRoleIn(kc, roles))
    ensures Decide(ViewOf(s, kc, false, None), Some(roles), fallbackPath) == RenderChildren
  {
    GrantedMatchesService(s, kc, false, None, roles);
  }
}
