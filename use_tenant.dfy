/** The tenant hook (src/hooks/useTenant.ts): the query gate, the effect that
    stores the loaded tenants and picks the initial one, the effect after a
    switch, and the lookups. The saved tenant id stands for the
    `current_tenant_id` entry of local storage. */
module UseTenant {
  import opened Wrappers
  import opened Text
  import opened StoreTypes
  import TenantSlice
  import NotificationsSlice
  import Store

  /** `tenants.find(t => t.id === savedTenantId) || tenants[0]`, for a non-empty
      list: the saved tenant if it is listed, else the first. */
  function InitialTenant(tenants: seq<Tenant>, saved: Option<string>): (t: Tenant)
    requires |tenants| > 0
    ensures t in tenants
    ensures saved.Some? && FindTenant(tenants, saved.value).Some? ==> t.id == saved.value
    ensures saved.None? || FindTenant(tenants, saved.value).None? ==> t == tenants[0]
  {
    if saved.Some? && FindTenant(tenants, saved.value).Some? then FindTenant(tenants, saved.value).value
    else tenants[0]
  }

  /** Of several tenants with the saved id, the first is chosen. */
  lemma InitialTenantFirstMatch(tenants: seq<Tenant>, saved: string, i: nat)
    requires i < |tenants| && tenants[i].id == saved
    requires forall j :: 0 <= j < i ==> tenants[j].id != saved
    ensures InitialTenant(tenants, Some(saved)) == tenants[i]
  {
    FindTenantFirst(tenants, saved, i);
  }

  /** The tenants query runs only while no tenants are known. */
  function QueryEnabled(s: GlobalState): (r: bool)
    ensures r <==> s.availableTenants == []
  {
    |s.availableTenants| == 0
  }

  /** The query-success effect: the store and the saved id afterwards. */
  function TenantsLoaded(s: GlobalState, tenants: seq<Tenant>, saved: Option<string>): (r: (GlobalState, Option<string>))
    ensures r.0.availableTenants == if |s.availableTenants| == 0 then tenants else s.availableTenants
    ensures s.currentTenant.Some? || |tenants| == 0 ==> r.0.currentTenant == s.currentTenant && r.1 == saved
    ensures s.currentTenant.None? && |tenants| > 0 ==>
      r.0.currentTenant == Some(InitialTenant(tenants, saved)) && r.1 == Some(InitialTenant(tenants, saved).id)
    ensures TenantSlice.OnlyTenantChanged(s, r.0)
  {
    var s1 := if |s.availableTenants| == 0 then TenantSlice.SetAvailableTenants(s, tenants) else s;
    if s.currentTenant.None? && |tenants| > 0 then
      var t := InitialTenant(tenants, saved);
      (TenantSlice.SetCurrentTenant(s1, Some(t)), Some(t.id))
    else (s1, saved)
  }

  /** On a first load the chosen tenant is one of the available tenants. */
  lemma FirstLoadSelectsAvailable(s: GlobalState, tenants: seq<Tenant>, saved: Option<string>)
    requires QueryEnabled(s) && s.currentTenant.None? && |tenants| > 0
    ensures var (r, _) := TenantsLoaded(s, tenants, saved);
      r.currentTenant.Some? && r.currentTenant.value in r.availableTenants
  {
  }

  function SwitchedInput(t: Tenant): NotificationsSlice.NotificationInput {
    NotificationsSlice.NotificationInput(SuccessNote, "Workspace switched", "Switched to " + t.name)
  }

  function SwitchFailedInput(message: Option<string>): NotificationsSlice.NotificationInput {
    NotificationsSlice.NotificationInput(ErrorNote, "Switch failed",
      if Truthy(message) then message.value else "Failed to switch workspace")
  }

  /** The switch-success effect: nothing for an empty (falsy) tenant id;
      otherwise the store switch, then a notice only when the id names an
      available tenant. */
  function SwitchSucceeded(s: GlobalState, tenantId: string, id: string, now: int): (r: GlobalState)
    ensures tenantId == "" ==> r == s
    ensures tenantId != "" ==> TenantOf(r) == TenantOf(TenantSlice.SwitchTenant(s, tenantId))
    ensures tenantId != "" && FindTenant(s.availableTenants, tenantId).Some? ==>
      r.notifications == s.notifications + [NotificationsSlice.NewNotification(SwitchedInput(FindTenant(s.availableTenants, tenantId).value), id, now)]
    ensures FindTenant(s.availableTenants, tenantId).None? ==> r == s
    ensures AuthOf(r) == AuthOf(s) && UiOf(r) == UiOf(s)
  {
    if tenantId == "" then s
    else
      var s1 := TenantSlice.SwitchTenant(s, tenantId);
      var t := FindTenant(s.availableTenants, tenantId);
      if t.Some? then NotificationsSlice.AddNotification(s1, SwitchedInput(t.value), id, now) else s1
  }

  /** The tenant a lookup is about: the one with the given id, or the current
      one when no (or an empty) id is given. */
  function TenantFor(s: GlobalState, tenantId: Option<string>): (t: Option<Tenant>)
    ensures !Truthy(tenantId) ==> t == s.currentTenant
    ensures Truthy(tenantId) ==> t == FindTenant(s.availableTenants, tenantId.value)
  {
    if Truthy(tenantId) then FindTenant(s.availableTenants, tenantId.value) else s.currentTenant
  }

  function IsTenantActive(s: GlobalState, tenantId: Option<string>): (r: bool)
    ensures r <==> TenantFor(s, tenantId).Some? && TenantFor(s, tenantId).value.status == Active
    ensures Truthy(tenantId) && (forall i :: 0 <= i < |s.availableTenants| ==> s.availableTenants[i].id != tenantId.value) ==> !r
  {
    var t := TenantFor(s, tenantId);
    t.Some? && t.value.status == Active
  }

  function IsTenantOnTrial(s: GlobalState, tenantId: Option<string>): (r: bool)
    ensures r <==> TenantFor(s, tenantId).Some? && TenantFor(s, tenantId).value.status == Trial
    ensures Truthy(tenantId) && (forall i :: 0 <= i < |s.availableTenants| ==> s.availableTenants[i].id != tenantId.value) ==> !r
  {
    var t := TenantFor(s, tenantId);
    t.Some? && t.value.status == Trial
  }

  function GetTenantPlan(s: GlobalState, tenantId: Option<string>): (r: Option<string>)
    ensures r.Some? <==> TenantFor(s, tenantId).Some?
    ensures r.Some? ==> r.value == TenantFor(s, tenantId).value.plan
  {
    var t := TenantFor(s, tenantId);
    if t.Some? then Some(t.value.plan) else None
  }

  /** `isInitialized`: the query is neither loading nor failed. */
  predicate IsInitialized(isLoading: bool, error: Option<string>) {
    !isLoading && error.None?
  }

  /** The hook over the store, with the saved tenant id. */
  class TenantHook {
    const store: Store.AppStore
    var savedTenantId: Option<string>

    constructor (store: Store.AppStore, saved: Option<string>)
      ensures this.store == store && savedTenantId == saved
    {
      this.store := store;
      savedTenantId := saved;
    }

    method OnTenantsLoaded(tenants: seq<Tenant>)
      modifies this, store
      ensures (store.State(), savedTenantId) == TenantsLoaded(old(store.State()), tenants, old(savedTenantId))
    {
      var current := store.currentTenant;
      if |store.availableTenants| == 0 {
        store.SetAvailableTenants(tenants);
      }
      if current.None? && |tenants| > 0 {
        var t := InitialTenant(tenants, savedTenantId);
        store.SetCurrentTenant(Some(t));
        savedTenantId := Some(t.id);
      }
    }

    /** The switch succeeded: for a non-empty id the saved id becomes the
        requested one, even when the store ignores an unknown id. */
    method OnSwitchSucceeded(tenantId: string, id: string, now: int)
      modifies this, store
      ensures store.State() == SwitchSucceeded(old(store.State()), tenantId, id, now)
      ensures savedTenantId == if tenantId == "" then old(savedTenantId) else Some(tenantId)
    {
      if tenantId == "" {
        return;
      }
      var available := store.availableTenants;
      store.SwitchTenant(tenantId);
      savedTenantId := Some(tenantId);
      var t := FindTenant(available, tenantId);
      if t.Some? {
        var _ := store.AddNotification(SwitchedInput(t.value), id, now);
      }
    }

    /** The switch failed: an error notice with the error's message. */
    method OnSwitchFailed(message: Option<string>, id: string, now: int)
      modifies store
      ensures store.State() == NotificationsSlice.AddNotification(old(store.State()), SwitchFailedInput(message), id, now)
    {
      var _ := store.AddNotification(SwitchFailedInput(message), id, now);
    }
  }
}
