/** The render decision of the tenant guard (src/guards/TenantGuard.tsx). */
module TenantGuard {
  import opened Wrappers
  import opened StoreTypes
  import UseTenant

  /** What the guard reads from the tenant hook; `error` is the message of
      the query error. */
  datatype TenantView = TenantView(currentTenant: Option<Tenant>, isLoading: bool, isInitialized: bool, error: Option<string>)

  datatype TenantOutcome = ShowWorkspaceLoading | ShowTenantError(message: string) | ShowNoWorkspace | RenderTenantChildren

  function Decide(v: TenantView): (o: TenantOutcome)
    ensures v.isLoading && !v.isInitialized ==> o == ShowWorkspaceLoading
    ensures !(v.isLoading && !v.isInitialized) && v.error.Some? ==> o == ShowTenantError(v.error.value)
    ensures o == RenderTenantChildren <==>
      !(v.isLoading && !v.isInitialized) && v.error.None? && v.currentTenant.Some?
    ensures o == ShowNoWorkspace <==>
      !(v.isLoading && !v.isInitialized) && v.error.None? && v.currentTenant.None?
  {
    if v.isLoading && !v.isInitialized then ShowWorkspaceLoading
    else if v.error.Some? then ShowTenantError(v.error.value)
    else if v.currentTenant.None? then ShowNoWorkspace
    else RenderTenantChildren
  }

  /** The view the hook supplies: `isInitialized` is not-loading and no error. */
  function ViewOf(s: GlobalState, isLoading: bool, error: Option<string>): (v: TenantView)
    ensures v.isInitialized == UseTenant.IsInitialized(isLoading, error)
    ensures v.currentTenant == s.currentTenant && v.isLoading == isLoading && v.error == error
  {
    TenantView(s.currentTenant, isLoading, UseTenant.IsInitialized(isLoading, error), error)
  }

  /** With the hook's `isInitialized`, the loading screen shows exactly while
      the query loads, and the children render exactly when it is neither
      loading nor failed and a current tenant exists. */
  lemma DecisionFromHook(s: GlobalState, isLoading: bool, error: Option<string>)
    ensures (Decide(ViewOf(s, isLoading, error)) == ShowWorkspaceLoading) <==> isLoading
    ensures (Decide(ViewOf(s, isLoading, error)) == RenderTenantChildren) <==>
      !isLoading && error.None? && s.currentTenant.Some?
  {
  }
}
