/** The protected part of the router (src/router/ProtectedLayout.tsx): the
    authentication guard with default props around the tenant guard around the
    application layout. */
module ProtectedLayout {
  import opened Wrappers
  import opened StoreTypes
  import Keycloak
  import AuthGuard
  import TenantGuard

  datatype Screen = AuthScreen(auth: AuthGuard.AuthOutcome) | TenantScreen(tenant: TenantGuard.TenantOutcome) | AppLayoutScreen

  /** The screen shown: the outer guard decides first, the inner one only
      when the outer renders its children. */
  function Decide(a: AuthGuard.AuthView, t: TenantGuard.TenantView): (sc: Screen)
    ensures sc.AuthScreen? <==> AuthGuard.Decide(a, None, None) != AuthGuard.RenderChildren
    ensures sc.AuthScreen? ==> sc.auth == AuthGuard.Decide(a, None, None)
    ensures sc.TenantScreen? ==> sc.tenant == TenantGuard.Decide(t) && sc.tenant != TenantGuard.RenderTenantChildren
    ensures sc == AppLayoutScreen <==>
      AuthGuard.Decide(a, None, None) == AuthGuard.RenderChildren && TenantGuard.Decide(t) == TenantGuard.RenderTenantChildren
  {
    var outer := AuthGuard.Decide(a, None, None);
    if outer != AuthGuard.RenderChildren then AuthScreen(outer)
    else
      var inner := TenantGuard.Decide(t);
      if inner != TenantGuard.RenderTenantChildren then TenantScreen(inner) else AppLayoutScreen
  }

  /** The application layout shows exactly when authentication has finished
      and is confirmed by the store and the service, and a tenant is loaded
      without error and selected. */
  lemma LayoutIff(s: GlobalState, kc: Option<Keycloak.Instance>, isInitializing: bool, initError: Option<string>,
                  isLoading: bool, error: Option<string>)
    ensures Decide(AuthGuard.ViewOf(s, kc, isInitializing, initError), TenantGuard.ViewOf(s, isLoading, error)) == AppLayoutScreen
      <==>
      !isInitializing && initError.None? && s.authInitialized && s.isAuthenticated && Keycloak.IsAuthenticatedIn(kc) &&
      !isLoading && error.None? && s.currentTenant.Some?
  {
    TenantGuard.DecisionFromHook(s, isLoading, error);
  }
}
