/** The tenant slice (src/store/slices/tenant.slice.ts). */
module TenantSlice {
  import opened Wrappers
  import opened StoreTypes

  const InitialTenantState := TenantState(None, [])

  /** Auth, UI and notification fields are left as they were. */
  predicate OnlyTenantChanged(s: GlobalState, r: GlobalState) {
    AuthOf(r) == AuthOf(s) && UiOf(r) == UiOf(s) && r.notifications == s.notifications
  }

  function SetCurrentTenant(s: GlobalState, t: Option<Tenant>): (r: GlobalState)
    ensures r.currentTenant == t && r.availableTenants == s.availableTenants
    ensures OnlyTenantChanged(s, r)
  {
    s.(currentTenant := t)
  }

  function SetAvailableTenants(s: GlobalState, ts: seq<Tenant>): (r: GlobalState)
    ensures r.availableTenants == ts && r.currentTenant == s.currentTenant
    ensures OnlyTenantChanged(s, r)
  {
    s.(availableTenants := ts)
  }

  /** `switchTenant(id)`: selects an available tenant carrying the id, or does
      nothing when none carries it; the available list is never touched. */
  function SwitchTenant(s: GlobalState, id: string): (r: GlobalState)
    ensures r.availableTenants == s.availableTenants
    ensures (forall i :: 0 <= i < |s.availableTenants| ==> s.availableTenants[i].id != id) ==> r == s
    ensures (exists i :: 0 <= i < |s.availableTenants| && s.availableTenants[i].id == id) ==>
      r.currentTenant.Some? && r.currentTenant.value in r.availableTenants && r.currentTenant.value.id == id
    ensures OnlyTenantChanged(s, r)
  {
    var tenant := FindTenant(s.availableTenants, id);
    if tenant.Some? then s.(currentTenant := tenant) else s
  }

  /** The tenant selected is the first available one with that id. */
  lemma {:induction false} SwitchTenantPicksFirst(s: GlobalState, id: string, i: nat)
    requires i < |s.availableTenants| && s.availableTenants[i].id == id
    requires forall j :: 0 <= j < i ==> s.availableTenants[j].id != id
    ensures SwitchTenant(s, id).currentTenant == Some(s.availableTenants[i])
  {
    FindTenantFirst(s.availableTenants, id, i);
  }

  function ResetTenant(s: GlobalState): (r: GlobalState)
    ensures TenantOf(r) == InitialTenantState
    ensures OnlyTenantChanged(s, r)
  {
    s.(currentTenant := None, availableTenants := [])
  }

  /** A current tenant drawn from the list stays drawn from it across switches. */
  lemma SwitchKeepsCurrentAvailable(s: GlobalState, id: string)
    requires s.currentTenant.Some? ==> s.currentTenant.value in s.availableTenants
    ensures var r := SwitchTenant(s, id);
      r.currentTenant.Some? ==> r.currentTenant.value in r.availableTenants
  {
  }
}
