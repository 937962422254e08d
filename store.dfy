/** The combined store (src/store/index.ts): the four slices side by side, the
    global `reset`, and a mutable store object whose actions perform the
    slices' `set`/`get` steps in place. */
module Store {
  import opened Wrappers
  import opened StoreTypes
  import opened StoreConfig
  import AuthSlice
  import TenantSlice
  import UiSlice
  import NotificationsSlice

  /** The state the store is created with: each slice's initial values. */
  function InitialState(): (s: GlobalState)
    ensures AuthOf(s) == AuthSlice.InitialAuthState
    ensures TenantOf(s) == TenantSlice.InitialTenantState
    ensures UiOf(s) == UiSlice.InitialUIState
    ensures s.notifications == NotificationsSlice.InitialNotifications
  {
    Compose(AuthSlice.InitialAuthState, TenantSlice.InitialTenantState, UiSlice.InitialUIState,
      NotificationsSlice.InitialNotifications)
  }

  /** The partial object `reset` hands to `set`: the configured initial values
      with the current UI preferences. */
  function ResetPartial(s: GlobalState): PartialGlobal {
    ConfigInitialState.(theme := Some(s.theme), sidebarCollapsed := Some(s.sidebarCollapsed))
  }

  /** `reset`: the initial state, except that the UI preferences and
      `lastAuthCheck` (absent from the configured initial values) survive. */
  function ResetState(s: GlobalState): (r: GlobalState)
    ensures r == InitialState().(lastAuthCheck := s.lastAuthCheck, theme := s.theme, sidebarCollapsed := s.sidebarCollapsed)
  {
    Merge(s, ResetPartial(s))
  }

  /** `reset` is the three slice resets together, except for `lastAuthCheck`. */
  lemma ResetIsSliceResets(s: GlobalState)
    ensures ResetState(s) == NotificationsSlice.ClearNotifications(TenantSlice.ResetTenant(AuthSlice.ResetAuth(s))).(lastAuthCheck := s.lastAuthCheck)
  {
  }

  lemma ResetIdempotent(s: GlobalState)
    ensures ResetState(ResetState(s)) == ResetState(s)
  {
  }

  /** After `reset` nobody is signed in and no tenant or notification is left. */
  lemma ResetSignsOut(s: GlobalState)
    ensures var r := ResetState(s);
      r.user.None? && !r.isAuthenticated && !r.authInitialized &&
      r.currentTenant.None? && r.availableTenants == [] && r.notifications == [] &&
      UiOf(r) == UiOf(s)
  {
  }

  /** The live store: one field per state key. */
  class AppStore {
    var user: Option<User>
    var isAuthenticated: bool
    var authInitialized: bool
    var lastAuthCheck: Option<int>
    var currentTenant: Option<Tenant>
    var availableTenants: seq<Tenant>
    var theme: Theme
    var sidebarCollapsed: bool
    var notifications: seq<Notification>

    /** `get()`. */
    function State(): GlobalState
      reads this
    {
      GlobalState(user, isAuthenticated, authInitialized, lastAuthCheck, currentTenant,
        availableTenants, theme, sidebarCollapsed, notifications)
    }

    constructor ()
      ensures State() == InitialState()
    {
      user, isAuthenticated, authInitialized, lastAuthCheck := None, false, false, None;
      currentTenant, availableTenants := None, [];
      theme, sidebarCollapsed := Light, false;
      notifications := [];
    }

    /** `set(partial)`: the keys present are overwritten, the others kept. */
    method Set(p: PartialGlobal)
      modifies this
      ensures State() == Merge(old(State()), p)
    {
      user := Pick(p.user, user);
      isAuthenticated := Pick(p.isAuthenticated, isAuthenticated);
      authInitialized := Pick(p.authInitialized, authInitialized);
      lastAuthCheck := Pick(p.lastAuthCheck, lastAuthCheck);
      currentTenant := Pick(p.currentTenant, currentTenant);
      availableTenants := Pick(p.availableTenants, availableTenants);
      theme := Pick(p.theme, theme);
      sidebarCollapsed := Pick(p.sidebarCollapsed, sidebarCollapsed);
      notifications := Pick(p.notifications, notifications);
    }

    method SetUser(u: Option<User>, now: int)
      modifies this
      ensures State() == AuthSlice.SetUser(old(State()), u, now)
    {
      Set(NoKeys.(user := Some(u), lastAuthCheck := Some(Some(now))));
      if u.Some? && !authInitialized {
        Set(NoKeys.(authInitialized := Some(true), isAuthenticated := Some(true)));
      }
    }

    method SetAuthenticated(b: bool, now: int)
      modifies this
      ensures State() == AuthSlice.SetAuthenticated(old(State()), b, now)
    {
      Set(NoKeys.(isAuthenticated := Some(b), lastAuthCheck := Some(Some(now))));
      if !b {
        Set(NoKeys.(user := Some(None)));
      }
      if !authInitialized {
        Set(NoKeys.(authInitialized := Some(true)));
      }
    }

    method SetAuthInitialized(b: bool, now: int)
      modifies this
      ensures State() == AuthSlice.SetAuthInitialized(old(State()), b, now)
    {
      Set(NoKeys.(authInitialized := Some(b), lastAuthCheck := Some(if b then Some(now) else None)));
    }

    method ResetAuth()
      modifies this
      ensures State() == AuthSlice.ResetAuth(old(State()))
    {
      Set(NoKeys.(user := Some(None), isAuthenticated := Some(false), authInitialized := Some(false),
        lastAuthCheck := Some(None)));
    }

    method ForceAuthRecheck()
      modifies this
      ensures State() == AuthSlice.ForceAuthRecheck(old(State()))
    {
      Set(NoKeys.(authInitialized := Some(false), lastAuthCheck := Some(None)));
    }

    method SetCurrentTenant(t: Option<Tenant>)
      modifies this
      ensures State() == TenantSlice.SetCurrentTenant(old(State()), t)
    {
      Set(NoKeys.(currentTenant := Some(t)));
    }

    method SetAvailableTenants(ts: seq<Tenant>)
      modifies this
      ensures State() == TenantSlice.SetAvailableTenants(old(State()), ts)
    {
      Set(NoKeys.(availableTenants := Some(ts)));
    }

    method SwitchTenant(id: string)
      modifies this
      ensures State() == TenantSlice.SwitchTenant(old(State()), id)
    {
      var tenant := FindTenant(availableTenants, id);
      if tenant.Some? {
        Set(NoKeys.(currentTenant := Some(tenant)));
      }
    }

    method ResetTenant()
      modifies this
      ensures State() == TenantSlice.ResetTenant(old(State()))
    {
      Set(NoKeys.(currentTenant := Some(None), availableTenants := Some([])));
    }

    method SetTheme(t: Theme)
      modifies this
      ensures State() == UiSlice.SetTheme(old(State()), t)
    {
      Set(NoKeys.(theme := Some(t)));
    }

    method SetSidebarCollapsed(collapsed: bool)
      modifies this
      ensures State() == UiSlice.SetSidebarCollapsed(old(State()), collapsed)
    {
      Set(NoKeys.(sidebarCollapsed := Some(collapsed)));
    }

    /** `addNotification`, with the generated id and creation time as inputs;
        returns the id whose removal the five-second timer will perform. */
    method AddNotification(input: NotificationsSlice.NotificationInput, id: string, now: int)
      returns (scheduled: Option<string>)
      modifies this
      ensures State() == NotificationsSlice.AddNotification(old(State()), input, id, now)
      ensures scheduled == NotificationsSlice.ScheduledRemoval(input, id)
    {
      var n := NotificationsSlice.NewNotification(input, id, now);
      Set(NoKeys.(notifications := Some(notifications + [n])));
      scheduled := if input.kind != ErrorNote then Some(id) else None;
    }

    /** The timer of a non-error notification firing. */
    method AutoRemove(id: string)
      modifies this
      ensures State() == NotificationsSlice.AutoRemove(old(State()), id)
    {
      Set(NoKeys.(notifications := Some(NotificationsSlice.Without(notifications, id))));
    }

    method RemoveNotification(id: string)
      modifies this
      ensures State() == NotificationsSlice.RemoveNotification(old(State()), id)
    {
      Set(NoKeys.(notifications := Some(NotificationsSlice.Without(notifications, id))));
    }

    method ClearNotifications()
      modifies this
      ensures State() == NotificationsSlice.ClearNotifications(old(State()))
    {
      Set(NoKeys.(notifications := Some([])));
    }

    method Reset()
      modifies this
      ensures State() == ResetState(old(State()))
    {
      var keepTheme, keepCollapsed := theme, sidebarCollapsed;
      Set(ConfigInitialState.(theme := Some(keepTheme), sidebarCollapsed := Some(keepCollapsed)));
    }

    /** Start-up: the persisted UI preferences are merged in and the
        rehydration callback clears `authInitialized`. */
    method Hydrate(stored: Option<PersistedUi>)
      modifies this
      ensures State() == StoreConfig.Hydrate(old(State()), stored)
    {
      if stored.Some? {
        Set(StoredAsPartial(stored.value));
      }
      var called := OnRehydrate(Some(AsPartial(State())));
      Set(called.value);
    }
  }
}
