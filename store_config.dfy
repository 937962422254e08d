/** Store configuration (src/store/config.ts): the persisted subset, the
    rehydration callback and the initial values used by `reset`. */
module StoreConfig {
  import opened Wrappers
  import opened StoreTypes

  /** The storage key and devtools name. */
  const StoreName := "app-store"

  /** A partial object with no key present. */
  const NoKeys := PartialGlobal(None, None, None, None, None, None, None, None, None)

  /** `storeConfig.initialState`: every field except `lastAuthCheck`. */
  const ConfigInitialState: PartialGlobal :=
    PartialGlobal(Some(None), Some(false), Some(false), None, Some(None), Some([]), Some(Light), Some(false), Some([]))

  /** What `partialize` writes to local storage. */
  datatype PersistedUi = PersistedUi(theme: Theme, sidebarCollapsed: bool)

  /** `partialize`; `PartializeOnlyUi` states what it keeps. */
  function Partialize(s: GlobalState): (p: PersistedUi)
  {
    PersistedUi(s.theme, s.sidebarCollapsed)
  }

  /** Only the UI preferences are persisted: two states are stored alike exactly
      when their UI slices agree, whatever their auth, tenant or notifications. */
  lemma PartializeOnlyUi(s: GlobalState, t: GlobalState)
    ensures Partialize(s) == Partialize(t) <==> UiOf(s) == UiOf(t)
  {
  }

  /** The callback given to `onRehydrateStorage`: when a state arrives and has
      the `authInitialized` key, that key becomes `false`; nothing else moves. */
  function OnRehydrate(state: Option<PartialGlobal>): (r: Option<PartialGlobal>)
    ensures r.None? <==> state.None?
    ensures r.Some? && state.value.authInitialized.Some? ==> r.value.authInitialized == Some(false)
    ensures r.Some? && state.value.authInitialized.None? ==> r.value.authInitialized.None?
    ensures r.Some? ==> r.value.(authInitialized := state.value.authInitialized) == state.value
  {
    match state
    case None => None
    case Some(st) =>
      if st.authInitialized.Some? then Some(st.(authInitialized := Some(false))) else Some(st)
  }

  /** The persisted UI object as a partial state. */
  function StoredAsPartial(stored: PersistedUi): (p: PartialGlobal)
    ensures p.theme == Some(stored.theme) && p.sidebarCollapsed == Some(stored.sidebarCollapsed)
    ensures p.(theme := None, sidebarCollapsed := None) == NoKeys
  {
    NoKeys.(theme := Some(stored.theme), sidebarCollapsed := Some(stored.sidebarCollapsed))
  }

  /** Start-up hydration: the stored object (if any) is merged over the
      current state, and the callback receives the merged state, which always
      has the `authInitialized` key. */
  function Hydrate(s: GlobalState, stored: Option<PersistedUi>): (r: GlobalState)
    ensures !r.authInitialized
    ensures stored.Some? ==> UiOf(r) == UIState(stored.value.theme, stored.value.sidebarCollapsed)
    ensures stored.None? ==> UiOf(r) == UiOf(s)
    ensures r.user == s.user && r.isAuthenticated == s.isAuthenticated && r.lastAuthCheck == s.lastAuthCheck
    ensures TenantOf(r) == TenantOf(s) && r.notifications == s.notifications
  {
    var merged := if stored.Some? then Merge(s, StoredAsPartial(stored.value)) else s;
    var called := OnRehydrate(Some(AsPartial(merged)));
    Merge(merged, called.value)
  }

  /** Persisting a state and hydrating from it restores its UI preferences and
      forces the authentication to be checked again. */
  lemma PersistRoundTrip(saved: GlobalState, current: GlobalState)
    ensures var r := Hydrate(current, Some(Partialize(saved)));
      UiOf(r) == UiOf(saved) && !r.authInitialized
  {
  }
}
