/** The store selectors (src/store/selectors.ts): pure reads of the state.
    Plain field reads (`user`, `theme`, `notifications`, ...) are the fields
    of `GlobalState` themselves. */
module Selectors {
  import opened Wrappers
  import opened Text
  import opened StoreTypes
  import NotificationsSlice

  /** `state.user?.roles || []`. */
  function UserRoles(s: GlobalState): seq<string> {
    if s.user.Some? then s.user.value.roles else []
  }

  /** The roles a user holds, as a set for `includes`. */
  function Held(roles: seq<string>): (r: set<string>)
    ensures forall x :: x in r <==> x in roles
  {
    set x | x in roles
  }

  /** `authSelectors.hasRole`. */
  function HasRole(s: GlobalState, role: string): (r: bool)
    ensures r <==> s.user.Some? && role in s.user.value.roles
  {
    role in UserRoles(s)
  }

  /** `authSelectors.hasAnyRole`: an empty list never matches. */
  function HasAnyRole(s: GlobalState, roles: seq<string>): (r: bool)
    ensures r <==> exists i :: 0 <= i < |roles| && HasRole(s, roles[i])
    ensures |roles| == 0 ==> !r
  {
    SomeIn(roles, Held(UserRoles(s)))
  }

  /** `tenantSelectors.currentTenantName`: `name || 'No Tenant'`. */
  function CurrentTenantName(s: GlobalState): (r: string)
    ensures r != ""
    ensures s.currentTenant.Some? && s.currentTenant.value.name != "" ==> r == s.currentTenant.value.name
    ensures s.currentTenant.None? || s.currentTenant.value.name == "" ==> r == "No Tenant"
  {
    if s.currentTenant.Some? && s.currentTenant.value.name != "" then s.currentTenant.value.name else "No Tenant"
  }

  /** `tenantSelectors.currentTenantPlan`: `plan || 'Unknown'`. */
  function CurrentTenantPlan(s: GlobalState): (r: string)
    ensures r != ""
    ensures s.currentTenant.Some? && s.currentTenant.value.plan != "" ==> r == s.currentTenant.value.plan
    ensures s.currentTenant.None? || s.currentTenant.value.plan == "" ==> r == "Unknown"
  {
    if s.currentTenant.Some? && s.currentTenant.value.plan != "" then s.currentTenant.value.plan else "Unknown"
  }

  predicate IsTenantActive(s: GlobalState) {
    s.currentTenant.Some? && s.currentTenant.value.status == Active
  }

  predicate IsTenantOnTrial(s: GlobalState) {
    s.currentTenant.Some? && s.currentTenant.value.status == Trial
  }

  /** A tenant is never both active and on trial; with no tenant it is neither. */
  lemma TenantStatusExclusive(s: GlobalState)
    ensures !(IsTenantActive(s) && IsTenantOnTrial(s))
    ensures s.currentTenant.None? ==> !IsTenantActive(s) && !IsTenantOnTrial(s)
  {
  }

  /** `tenantSelectors.canSwitchTenant`: more than one tenant is available. */
  predicate CanSwitchTenant(s: GlobalState) {
    |s.availableTenants| > 1
  }

  /** `tenantSelectors.getTenantById`: the first available tenant with the id. */
  function GetTenantById(s: GlobalState, id: string): (r: Option<Tenant>)
    ensures r.Some? ==> r.value in s.availableTenants && r.value.id == id
    ensures r.None? <==> forall i :: 0 <= i < |s.availableTenants| ==> s.availableTenants[i].id != id
  {
    FindTenant(s.availableTenants, id)
  }

  predicate IsDarkMode(s: GlobalState) { s.theme == Dark }
  predicate IsLightMode(s: GlobalState) { s.theme == Light }

  /** Exactly one of the two theme selectors holds. */
  lemma ThemeModesComplementary(s: GlobalState)
    ensures IsDarkMode(s) != IsLightMode(s)
  {
  }

  /** `notifications.filter(n => n.type === kind)`. */
  function OfKind(ns: seq<Notification>, kind: NotificationType): (r: seq<Notification>)
    ensures |r| <= |ns|
    ensures forall i :: 0 <= i < |r| ==> r[i].kind == kind
  {
    if |ns| == 0 then []
    else (if ns[0].kind == kind then [ns[0]] else []) + OfKind(ns[1..], kind)
  }

  /** An entry is kept exactly when it is in the list and of that type. */
  lemma {:induction false} OfKindKeepsThatKind(ns: seq<Notification>, kind: NotificationType)
    ensures forall n :: n in OfKind(ns, kind) <==> n in ns && n.kind == kind
  {
    if |ns| > 0 {
      OfKindKeepsThatKind(ns[1..], kind);
      assert ns == [ns[0]] + ns[1..];
    }
  }

  /** The filter keeps order: it works piecewise over a concatenation. */
  lemma {:induction false} OfKindConcat(a: seq<Notification>, b: seq<Notification>, kind: NotificationType)
    ensures OfKind(a + b, kind) == OfKind(a, kind) + OfKind(b, kind)
  {
    if |a| > 0 {
      OfKindConcat(a[1..], b, kind);
      assert (a + b)[0] == a[0];
      assert (a + b)[1..] == a[1..] + b;
    } else {
      assert a + b == b;
    }
  }

  function NotificationCount(s: GlobalState): nat { |s.notifications| }

  function ErrorNotifications(s: GlobalState): (r: seq<Notification>)
    ensures |r| <= NotificationCount(s)
    ensures forall i :: 0 <= i < |r| ==> r[i].kind == ErrorNote
  {
    OfKind(s.notifications, ErrorNote)
  }

  function SuccessNotifications(s: GlobalState): (r: seq<Notification>)
    ensures |r| <= NotificationCount(s)
    ensures forall i :: 0 <= i < |r| ==> r[i].kind == SuccessNote
  {
    OfKind(s.notifications, SuccessNote)
  }

  /** Errors and successes are disjoint parts of the list: together they are
      never more than the count. */
  lemma {:induction false} ErrorsAndSuccessesWithinCount(ns: seq<Notification>)
    ensures |OfKind(ns, ErrorNote)| + |OfKind(ns, SuccessNote)| <= |ns|
  {
    if |ns| > 0 {
      ErrorsAndSuccessesWithinCount(ns[1..]);
    }
  }

  /** Adding a notification extends the error list by it exactly when it is an error. */
  lemma AddedErrorIsListed(s: GlobalState, input: NotificationsSlice.NotificationInput, id: string, now: int)
    ensures var r := NotificationsSlice.AddNotification(s, input, id, now);
      ErrorNotifications(r) == ErrorNotifications(s) +
        (if input.kind == ErrorNote then [NotificationsSlice.NewNotification(input, id, now)] else [])
  {
    var n := NotificationsSlice.NewNotification(input, id, now);
    OfKindConcat(s.notifications, [n], ErrorNote);
    assert OfKind([n], ErrorNote) == (if n.kind == ErrorNote then [n] else []) + OfKind([], ErrorNote);
  }

  predicate HasNotifications(s: GlobalState) { |s.notifications| > 0 }

  /** `combinedSelectors.isAppReady`. */
  predicate IsAppReady(s: GlobalState) { s.authInitialized }

  /** `user?.tenantId || user?.preferredTenant`: an empty tenant id falls through. */
  function UserTenantChoice(s: GlobalState): Option<string> {
    if s.user.None? then None
    else if Truthy(s.user.value.tenantId) then s.user.value.tenantId
    else s.user.value.preferredTenant
  }

  /** `combinedSelectors.userPrimaryTenant`: the available tenant named by the
      user's tenant id (else preferred tenant), else the current tenant. */
  function UserPrimaryTenant(s: GlobalState): (r: Option<Tenant>)
    ensures !Truthy(UserTenantChoice(s)) ==> r == s.currentTenant
    ensures Truthy(UserTenantChoice(s)) && GetTenantById(s, UserTenantChoice(s).value).None? ==> r == s.currentTenant
    ensures Truthy(UserTenantChoice(s)) && GetTenantById(s, UserTenantChoice(s).value).Some? ==>
      r == GetTenantById(s, UserTenantChoice(s).value)
    ensures r != s.currentTenant ==>
      r.Some? && r.value in s.availableTenants && r.value.id == UserTenantChoice(s).value
  {
    var id := UserTenantChoice(s);
    if !Truthy(id) then s.currentTenant
    else
      var found := FindTenant(s.availableTenants, id.value);
      if found.Some? then found else s.currentTenant
  }

  /** Without a user the primary tenant is simply the current one. */
  lemma NoUserPrimaryIsCurrent(s: GlobalState)
    requires s.user.None?
    ensures UserPrimaryTenant(s) == s.currentTenant
  {
  }

  /** `combinedSelectors.canAccessResource`. */
  function CanAccessResource(s: GlobalState, required: seq<string>): (r: bool)
    ensures !s.isAuthenticated || s.user.None? ==> !r
    ensures s.isAuthenticated && s.user.Some? ==> r == HasAnyRole(s, required)
  {
    if !s.isAuthenticated || s.user.None? then false
    else SomeIn(required, Held(s.user.value.roles))
  }

  /** Access is exactly: signed in, and some required role is held. */
  lemma CanAccessIff(s: GlobalState, required: seq<string>)
    ensures CanAccessResource(s, required) <==>
      s.isAuthenticated && s.user.Some? &&
      exists i :: 0 <= i < |required| && required[i] in s.user.value.roles
  {
  }
}
