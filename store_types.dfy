/** The entities held by the global store (src/store/types.ts) and the
    partial-object merge that every zustand `set` performs. */
module StoreTypes {
  import opened Wrappers

  /** A user as the auth service maps it from the identity token. Optional
      properties of the source interface are `Option`s. Timestamps and dates
      are integers (milliseconds); `lastLogin` is kept as the raw claim text. */
  datatype User = User(
    id: string,
    username: string,
    email: string,
    firstName: Option<string>,
    lastName: Option<string>,
    name: Option<string>,
    roles: seq<string>,
    emailVerified: Option<bool>,
    locale: Option<string>,
    picture: Option<string>,
    tenantId: Option<string>,
    preferredTenant: Option<string>,
    lastLogin: Option<string>,
    displayName: Option<string>,
    initials: Option<string>)

  datatype TenantStatus = Active | Suspended | Trial

  datatype Tenant = Tenant(id: string, name: string, subdomain: string, plan: string, status: TenantStatus)

  datatype NotificationType = SuccessNote | ErrorNote | WarningNote | InfoNote

  datatype Notification = Notification(id: string, kind: NotificationType, title: string, message: string, timestamp: int)

  datatype Theme = Light | Dark

  /** The state record of the store, field for field. */
  datatype GlobalState = GlobalState(
    user: Option<User>,
    isAuthenticated: bool,
    authInitialized: bool,
    lastAuthCheck: Option<int>,
    currentTenant: Option<Tenant>,
    availableTenants: seq<Tenant>,
    theme: Theme,
    sidebarCollapsed: bool,
    notifications: seq<Notification>)

  /** `Partial<GlobalState>`: every key may be absent (`None`). A present key whose
      value may be `null` has type `Option<Option<_>>`. */
  datatype PartialGlobal = PartialGlobal(
    user: Option<Option<User>>,
    isAuthenticated: Option<bool>,
    authInitialized: Option<bool>,
    lastAuthCheck: Option<Option<int>>,
    currentTenant: Option<Option<Tenant>>,
    availableTenants: Option<seq<Tenant>>,
    theme: Option<Theme>,
    sidebarCollapsed: Option<bool>,
    notifications: Option<seq<Notification>>)

  function Pick<T>(present: Option<T>, current: T): T {
    if present.Some? then present.value else current
  }

  /** `set(p)`: a shallow merge, where every key present in `p` replaces the
      state's value and every absent key leaves it as it was. */
  function Merge(s: GlobalState, p: PartialGlobal): (r: GlobalState)
    ensures p.user.Some? ==> r.user == p.user.value
    ensures p.user.None? ==> r.user == s.user
    ensures p.isAuthenticated.Some? ==> r.isAuthenticated == p.isAuthenticated.value
    ensures p.isAuthenticated.None? ==> r.isAuthenticated == s.isAuthenticated
    ensures p.authInitialized.Some? ==> r.authInitialized == p.authInitialized.value
    ensures p.authInitialized.None? ==> r.authInitialized == s.authInitialized
    ensures p.lastAuthCheck.Some? ==> r.lastAuthCheck == p.lastAuthCheck.value
    ensures p.lastAuthCheck.None? ==> r.lastAuthCheck == s.lastAuthCheck
    ensures p.currentTenant.Some? ==> r.currentTenant == p.currentTenant.value
    ensures p.currentTenant.None? ==> r.currentTenant == s.currentTenant
    ensures p.availableTenants.Some? ==> r.availableTenants == p.availableTenants.value
    ensures p.availableTenants.None? ==> r.availableTenants == s.availableTenants
    ensures p.theme.Some? ==> r.theme == p.theme.value
    ensures p.theme.None? ==> r.theme == s.theme
    ensures p.sidebarCollapsed.Some? ==> r.sidebarCollapsed == p.sidebarCollapsed.value
    ensures p.sidebarCollapsed.None? ==> r.sidebarCollapsed == s.sidebarCollapsed
    ensures p.notifications.Some? ==> r.notifications == p.notifications.value
    ensures p.notifications.None? ==> r.notifications == s.notifications
  {
    GlobalState(
      Pick(p.user, s.user),
      Pick(p.isAuthenticated, s.isAuthenticated),
      Pick(p.authInitialized, s.authInitialized),
      Pick(p.lastAuthCheck, s.lastAuthCheck),
      Pick(p.currentTenant, s.currentTenant),
      Pick(p.availableTenants, s.availableTenants),
      Pick(p.theme, s.theme),
      Pick(p.sidebarCollapsed, s.sidebarCollapsed),
      Pick(p.notifications, s.notifications))
  }

  /** A full state seen as a partial object: every key present. */
  function AsPartial(s: GlobalState): (p: PartialGlobal)
    ensures p.authInitialized == Some(s.authInitialized)
  {
    PartialGlobal(Some(s.user), Some(s.isAuthenticated), Some(s.authInitialized), Some(s.lastAuthCheck),
      Some(s.currentTenant), Some(s.availableTenants), Some(s.theme), Some(s.sidebarCollapsed),
      Some(s.notifications))
  }

  /** Merging a full state replaces everything. */
  lemma MergeFull(s: GlobalState, t: GlobalState)
    ensures Merge(s, AsPartial(t)) == t
  {
  }

  // ----- the slices' views of the state -----

  datatype AuthState = AuthState(user: Option<User>, isAuthenticated: bool, authInitialized: bool, lastAuthCheck: Option<int>)
  datatype TenantState = TenantState(currentTenant: Option<Tenant>, availableTenants: seq<Tenant>)
  datatype UIState = UIState(theme: Theme, sidebarCollapsed: bool)

  function AuthOf(s: GlobalState): AuthState {
    AuthState(s.user, s.isAuthenticated, s.authInitialized, s.lastAuthCheck)
  }

  function TenantOf(s: GlobalState): TenantState {
    TenantState(s.currentTenant, s.availableTenants)
  }

  function UiOf(s: GlobalState): UIState {
    UIState(s.theme, s.sidebarCollapsed)
  }

  /** The state made of the four slices' values. */
  function Compose(a: AuthState, t: TenantState, u: UIState, ns: seq<Notification>): (s: GlobalState)
    ensures AuthOf(s) == a && TenantOf(s) == t && UiOf(s) == u && s.notifications == ns
  {
    GlobalState(a.user, a.isAuthenticated, a.authInitialized, a.lastAuthCheck,
      t.currentTenant, t.availableTenants, u.theme, u.sidebarCollapsed, ns)
  }

  /** `availableTenants.find(t => t.id === id)`. */
  function FindTenant(tenants: seq<Tenant>, id: string): (r: Option<Tenant>)
    ensures r.Some? ==> r.value in tenants && r.value.id == id
    ensures r.None? <==> forall i :: 0 <= i < |tenants| ==> tenants[i].id != id
  {
    if |tenants| == 0 then None
    else if tenants[0].id == id then Some(tenants[0])
    else FindTenant(tenants[1..], id)
  }

  /** `find` returns the first tenant carrying the id. */
  lemma {:induction false} FindTenantFirst(tenants: seq<Tenant>, id: string, i: nat)
    requires i < |tenants| && tenants[i].id == id
    requires forall j :: 0 <= j < i ==> tenants[j].id != id
    ensures FindTenant(tenants, id) == Some(tenants[i])
  {
    if i > 0 {
      FindTenantFirst(tenants[1..], id, i - 1);
    }
  }
}
