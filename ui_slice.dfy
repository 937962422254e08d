/** The UI slice (src/store/slices/ui.slice.ts). */
module UiSlice {
  import opened StoreTypes

  const InitialUIState := UIState(Light, false)

  predicate OnlyUiChanged(s: GlobalState, r: GlobalState) {
    AuthOf(r) == AuthOf(s) && TenantOf(r) == TenantOf(s) && r.notifications == s.notifications
  }

  function SetTheme(s: GlobalState, theme: Theme): (r: GlobalState)
    ensures r.theme == theme && r.sidebarCollapsed == s.sidebarCollapsed
    ensures OnlyUiChanged(s, r)
  {
    s.(theme := theme)
  }

  function SetSidebarCollapsed(s: GlobalState, collapsed: bool): (r: GlobalState)
    ensures r.sidebarCollapsed == collapsed && r.theme == s.theme
    ensures OnlyUiChanged(s, r)
  {
    s.(sidebarCollapsed := collapsed)
  }

  /** Each setter applied twice with one value equals applying it once, and
      the two setters commute. */
  lemma SettersIdempotentAndCommute(s: GlobalState, theme: Theme, collapsed: bool)
    ensures SetTheme(SetTheme(s, theme), theme) == SetTheme(s, theme)
    ensures SetSidebarCollapsed(SetSidebarCollapsed(s, collapsed), collapsed) == SetSidebarCollapsed(s, collapsed)
    ensures SetTheme(SetSidebarCollapsed(s, collapsed), theme) == SetSidebarCollapsed(SetTheme(s, theme), collapsed)
  {
  }
}
