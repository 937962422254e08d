/** The auth slice (src/store/slices/auth.slice.ts): each action as the state it
    leaves behind. The store's methods (module Store) perform the same steps
    in place. `now` is the reading of `Date.now()`. */
module AuthSlice {
  import opened Wrappers
  import opened StoreTypes

  const InitialAuthState := AuthState(None, false, false, None)

  /** Tenant, UI and notification fields are left as they were. */
  predicate OnlyAuthChanged(s: GlobalState, r: GlobalState) {
    TenantOf(r) == TenantOf(s) && UiOf(r) == UiOf(s) && r.notifications == s.notifications
  }

  /** `setUser`: stores the user and stamps the check time; a user arriving
      before auth is initialised also marks auth initialised and authenticated. */
  function SetUser(s: GlobalState, u: Option<User>, now: int): (r: GlobalState)
    ensures r.user == u && r.lastAuthCheck == Some(now)
    ensures r.authInitialized == (s.authInitialized || u.Some?)
    ensures u.Some? && !s.authInitialized ==> r.isAuthenticated
    ensures u.None? || s.authInitialized ==> r.isAuthenticated == s.isAuthenticated
    ensures OnlyAuthChanged(s, r)
  {
    var s1 := s.(user := u, lastAuthCheck := Some(now));
    if u.Some? && !s1.authInitialized then s1.(authInitialized := true, isAuthenticated := true) else s1
  }

  /** `setAuthenticated`: sets the flag and the check time, drops the user on
      `false`, and always leaves auth initialised. */
  function SetAuthenticated(s: GlobalState, b: bool, now: int): (r: GlobalState)
    ensures r.isAuthenticated == b && r.lastAuthCheck == Some(now)
    ensures b ==> r.user == s.user
    ensures !b ==> r.user.None?
    ensures r.authInitialized
    ensures OnlyAuthChanged(s, r)
  {
    var s1 := s.(isAuthenticated := b, lastAuthCheck := Some(now));
    var s2 := if !b then s1.(user := None) else s1;
    if !s2.authInitialized then s2.(authInitialized := true) else s2
  }

  /** `setAuthInitialized`: the check time is a timestamp exactly when the flag
      is set; user and authentication flag are untouched. */
  function SetAuthInitialized(s: GlobalState, b: bool, now: int): (r: GlobalState)
    ensures r.authInitialized == b
    ensures r.lastAuthCheck.Some? <==> b
    ensures b ==> r.lastAuthCheck == Some(now)
    ensures r.user == s.user && r.isAuthenticated == s.isAuthenticated
    ensures OnlyAuthChanged(s, r)
  {
    s.(authInitialized := b, lastAuthCheck := if b then Some(now) else None)
  }

  /** `resetAuth`: all four auth fields back to their initial values. */
  function ResetAuth(s: GlobalState): (r: GlobalState)
    ensures AuthOf(r) == InitialAuthState
    ensures OnlyAuthChanged(s, r)
  {
    s.(user := None, isAuthenticated := false, authInitialized := false, lastAuthCheck := None)
  }

  /** `forceAuthRecheck`: auth becomes uninitialised (so the initialisation
      effect runs again) while the user and the flag stay. */
  function ForceAuthRecheck(s: GlobalState): (r: GlobalState)
    ensures !r.authInitialized && r.lastAuthCheck.None?
    ensures r.user == s.user && r.isAuthenticated == s.isAuthenticated
    ensures OnlyAuthChanged(s, r)
  {
    s.(authInitialized := false, lastAuthCheck := None)
  }

  /** A user supplied before initialisation is the whole sign-in: the state then
      reads as initialised, authenticated and holding that user. */
  lemma SetUserSignsIn(s: GlobalState, u: User, now: int)
    requires !s.authInitialized
    ensures var r := SetUser(s, Some(u), now);
      r.authInitialized && r.isAuthenticated && r.user == Some(u)
  {
  }

  /** After `setAuthenticated(false)` no user is left behind, whatever came before. */
  lemma SignedOutHasNoUser(s: GlobalState, now: int)
    ensures var r := SetAuthenticated(s, false, now);
      r.user.None? && !r.isAuthenticated && r.authInitialized
  {
  }

  /** `forceAuthRecheck` differs from `resetAuth` only in keeping the user and
      the authentication flag. */
  lemma RecheckVersusReset(s: GlobalState)
    ensures ForceAuthRecheck(s) == ResetAuth(s).(user := s.user, isAuthenticated := s.isAuthenticated)
  {
  }
}
