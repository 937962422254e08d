# SaaS React starter: client-side state, session and helper logic in Dafny

This project models the deterministic core of a React single-page SaaS
starter: the global store (auth, tenant, UI and notification slices, the
global `reset`, persistence and the selectors), the authentication service
that wraps the identity-provider SDK, the authentication and tenant hooks, the
two route guards and their nesting, the breadcrumb, navigation and avatar
helpers of the application layout, the language-direction table, the
relative-time and retry helpers, the translation completeness script and the
pure parts of the project-renaming script.

Every store action is a function from the old `GlobalState` to the new one.
The class `Store.AppStore` holds the nine state fields and updates them in
place; each of its methods is proved equal to the slice function. The
authentication service (`Keycloak.KeycloakService`) and the two hooks
(`UseAuth.AuthHook`, `UseTenant.TenantHook`) are classes too. The loops of the
source are methods with loop invariants, proved against a specification
function:
- `extractRoles`;
- `generateBreadcrumbs`;
- `flattenObject`;
- the loading and comparison loops of `validateTranslations`.

Some inputs come from outside the model and are passed as parameters:
- the clock (`Date.now`, `new Date()`);
- generated ids (`crypto.randomUUID`);
- identity-provider results: what `init` returns or throws, and the session
  and claims it yields;
- the roles the SDK grants;
- the saved tenant id in local storage;
- the current i18next language;
- the answers typed at the renaming prompts.

Modules, one per source file, plus three shared ones:
- `Wrappers` holds `Option` and `Result`.
- `Text` holds character classes, ASCII case mapping, `split`/`join`, `trim`,
  JavaScript truthiness of strings and the decimal form of array indices.
- `StoreTypes` holds the entities and `GlobalState`.

## Model

| member | source | states |
|---|---|---|
| StoreTypes.Merge | src/store/types.ts:42-59 | a shallow `set(partial)`: every key present in the partial object replaces the field, every absent key keeps the old value |
| StoreTypes.MergeFull | src/store/types.ts:42-59 | merging a complete state replaces the whole state |
| StoreTypes.Compose | src/store/index.ts:16-21 | the global state is the four slices side by side: each slice view of the composed state is that slice |
| StoreTypes.FindTenant | src/store/slices/tenant.slice.ts:38 | `find` by id yields an available tenant with that id, and yields nothing iff no tenant carries the id |
| StoreTypes.FindTenantFirst | src/store/slices/tenant.slice.ts:38 | `find` yields the first tenant carrying the id |
| AuthSlice.SetUser | src/store/slices/auth.slice.ts:37-47 | stores the user and stamps `lastAuthCheck`; a non-null user while auth is uninitialised also sets `authInitialized` and `isAuthenticated`, otherwise both are unchanged; other slices untouched |
| AuthSlice.SetAuthenticated | src/store/slices/auth.slice.ts:49-64 | sets the flag and stamps the time; `false` clears the user, `true` keeps it; `authInitialized` is true afterwards |
| AuthSlice.SetAuthInitialized | src/store/slices/auth.slice.ts:66-71 | sets the flag; `lastAuthCheck` is a timestamp iff the flag is true; user and `isAuthenticated` untouched |
| AuthSlice.ResetAuth | src/store/slices/auth.slice.ts:73-81 | all four auth fields return to the initial auth state (lines 22-27) |
| AuthSlice.ForceAuthRecheck | src/store/slices/auth.slice.ts:83-89 | `authInitialized` false and `lastAuthCheck` null; user and `isAuthenticated` kept |
| AuthSlice.SetUserSignsIn | src/store/slices/auth.slice.ts:43-46 | a user supplied before initialisation leaves the state initialised, authenticated and holding that user |
| AuthSlice.SignedOutHasNoUser | src/store/slices/auth.slice.ts:55-58 | after `setAuthenticated(false)` no user is left |
| AuthSlice.RecheckVersusReset | src/store/slices/auth.slice.ts:73-89 | `forceAuthRecheck` is `resetAuth` except that it keeps the user and the authenticated flag |
| TenantSlice.SetCurrentTenant | src/store/slices/tenant.slice.ts:32 | replaces only `currentTenant` |
| TenantSlice.SetAvailableTenants | src/store/slices/tenant.slice.ts:34 | replaces only `availableTenants` |
| TenantSlice.SwitchTenant | src/store/slices/tenant.slice.ts:36-42 | an unknown id changes nothing; a known id selects a tenant with that id; the available list is never modified |
| TenantSlice.SwitchTenantPicksFirst | src/store/slices/tenant.slice.ts:37-40 | the tenant selected is the first available one with the id |
| TenantSlice.ResetTenant | src/store/slices/tenant.slice.ts:44-47 | restores the initial tenant state of lines 19-22 |
| TenantSlice.SwitchKeepsCurrentAvailable | src/store/slices/tenant.slice.ts:37-40 | a current tenant drawn from the available list stays drawn from it after any switch |
| UiSlice.SetTheme | src/store/slices/ui.slice.ts:30 | changes only `theme` |
| UiSlice.SetSidebarCollapsed | src/store/slices/ui.slice.ts:31 | changes only `sidebarCollapsed` |
| UiSlice.SettersIdempotentAndCommute | src/store/slices/ui.slice.ts:30-31 | each setter applied twice with one value is applied once, and the two setters commute |
| NotificationsSlice.NewNotification | src/store/slices/notifications.slice.ts:30-34 | the new entry copies type, title and message and carries the generated id and the timestamp |
| NotificationsSlice.AddNotification | src/store/slices/notifications.slice.ts:36-38 | exactly one entry is appended at the end; the earlier entries are kept in order |
| NotificationsSlice.ScheduledRemoval | src/store/slices/notifications.slice.ts:40-47 | a removal of the notification's own id is scheduled iff it is not an error |
| NotificationsSlice.Without | src/store/slices/notifications.slice.ts:52 | no survivor of the filter carries the removed id, and the list never grows |
| NotificationsSlice.WithoutKeepsTheOthers | src/store/slices/notifications.slice.ts:52 | an entry survives the filter exactly when it was in the list and its id differs |
| NotificationsSlice.WithoutConcat | src/store/slices/notifications.slice.ts:52 | the filter works piecewise over a concatenation, so survivors keep their order |
| NotificationsSlice.WithoutAbsent | src/store/slices/notifications.slice.ts:52 | removing an id no entry carries changes nothing |
| NotificationsSlice.WithoutIdempotent | src/store/slices/notifications.slice.ts:52 | removing an id twice is removing it once |
| NotificationsSlice.RemoveNotification | src/store/slices/notifications.slice.ts:50-54 | the list becomes the filtered list; other slices untouched |
| NotificationsSlice.AutoRemove | src/store/slices/notifications.slice.ts:42-46 | the timer callback is the same filter as `removeNotification` on the new id |
| NotificationsSlice.ClearNotifications | src/store/slices/notifications.slice.ts:56 | the list becomes empty |
| NotificationsSlice.AutoRemovalTakesOnlyItsOwn | src/store/slices/notifications.slice.ts:43-45 | the auto-removal of a fresh id deletes that entry and keeps all others in order |
| NotificationsSlice.AddThenAutoRemove | src/store/slices/notifications.slice.ts:29-48 | adding a non-error notification with a fresh id and letting its timer fire restores the previous state |
| StoreConfig.PartializeOnlyUi | src/store/config.ts:9-12 | two states persist alike iff their UI preferences are equal, so no auth, tenant or notification data is stored |
| StoreConfig.OnRehydrate | src/store/config.ts:15-23 | an arriving state with `authInitialized` gets it set to false; a missing state or key is left as it is; no other key changes |
| StoreConfig.StoredAsPartial | src/store/config.ts:9-12 | the persisted object seen as a partial state has exactly the two UI keys |
| StoreConfig.Hydrate | src/store/index.ts:34-39 | start-up hydration restores the stored UI preferences, leaves auth uninitialised and keeps the other fields |
| StoreConfig.PersistRoundTrip | src/store/config.ts:9-23 | persisting a state and hydrating from it restores its UI preferences |
| Store.InitialState | src/store/index.ts:16-21 | the initial state is each slice's initial state |
| Store.ResetState | src/store/index.ts:24-32 | `reset` is the configured initial state (src/store/config.ts:30-46) except that theme, sidebar and `lastAuthCheck` keep their values |
| Store.ResetIsSliceResets | src/store/index.ts:24-32 | `reset` equals the auth, tenant and notification resets together, except that `lastAuthCheck` survives |
| Store.ResetIdempotent | src/store/index.ts:24-32 | `reset` twice is `reset` once |
| Store.ResetSignsOut | src/store/index.ts:24-32 | after `reset` nobody is signed in and no tenant or notification is left |
| Store.AppStore.constructor | src/store/index.ts:16-21 | the store starts in the initial state |
| Store.AppStore.Set | src/store/index.ts:15 | the in-place `set` is the shallow merge |
| Store.AppStore.SetUser | src/store/slices/auth.slice.ts:37-47 | the two `set` calls with the `get()` between them produce `AuthSlice.SetUser` |
| Store.AppStore.SetAuthenticated | src/store/slices/auth.slice.ts:49-64 | the up to three `set` calls produce `AuthSlice.SetAuthenticated` |
| Store.AppStore.SetAuthInitialized | src/store/slices/auth.slice.ts:66-71 | in place, `AuthSlice.SetAuthInitialized` |
| Store.AppStore.ResetAuth | src/store/slices/auth.slice.ts:73-81 | in place, `AuthSlice.ResetAuth` |
| Store.AppStore.ForceAuthRecheck | src/store/slices/auth.slice.ts:83-89 | in place, `AuthSlice.ForceAuthRecheck` |
| Store.AppStore.SetCurrentTenant | src/store/slices/tenant.slice.ts:32 | in place, `TenantSlice.SetCurrentTenant` |
| Store.AppStore.SetAvailableTenants | src/store/slices/tenant.slice.ts:34 | in place, `TenantSlice.SetAvailableTenants` |
| Store.AppStore.SwitchTenant | src/store/slices/tenant.slice.ts:36-42 | reads the list, then sets the tenant only when found: `TenantSlice.SwitchTenant` |
| Store.AppStore.ResetTenant | src/store/slices/tenant.slice.ts:44-47 | in place, `TenantSlice.ResetTenant` |
| Store.AppStore.SetTheme | src/store/slices/ui.slice.ts:30 | in place, `UiSlice.SetTheme` |
| Store.AppStore.SetSidebarCollapsed | src/store/slices/ui.slice.ts:31 | in place, `UiSlice.SetSidebarCollapsed` |
| Store.AppStore.AddNotification | src/store/slices/notifications.slice.ts:29-48 | appends the new entry and returns the removal it schedules: the id for a non-error notification, none for an error |
| Store.AppStore.AutoRemove | src/store/slices/notifications.slice.ts:42-46 | the scheduled removal as an explicit step |
| Store.AppStore.RemoveNotification | src/store/slices/notifications.slice.ts:50-54 | in place, `NotificationsSlice.RemoveNotification` |
| Store.AppStore.ClearNotifications | src/store/slices/notifications.slice.ts:56 | in place, `NotificationsSlice.ClearNotifications` |
| Store.AppStore.Reset | src/store/index.ts:24-32 | reads theme and sidebar, then sets the merged initial state: `Store.ResetState` |
| Store.AppStore.Hydrate | src/store/config.ts:15-23 | merges the stored preferences and runs the rehydrate callback in place: `StoreConfig.Hydrate` |
| Text.SomeIn | src/store/selectors.ts:17 | `some`/`includes`: true iff some listed role is in the pool; the selectors and the authentication guard both use it |
| Selectors.HasRole | src/store/selectors.ts:10-13 | true iff a user exists and the role is among its roles |
| Selectors.HasAnyRole | src/store/selectors.ts:15-18 | true iff some listed role is held by the user, so an empty list gives false |
| Selectors.CurrentTenantName | src/store/selectors.ts:35-37 | the tenant's name, or `'No Tenant'` when there is no tenant or the name is empty |
| Selectors.CurrentTenantPlan | src/store/selectors.ts:39-41 | the tenant's plan, or `'Unknown'` when there is no tenant or the plan is empty |
| Selectors.TenantStatusExclusive | src/store/selectors.ts:43-49 | a tenant is never both active and on trial, and without a tenant it is neither |
| Selectors.GetTenantById | src/store/selectors.ts:55-57 | an available tenant with the id, or nothing iff none carries it |
| Selectors.ThemeModesComplementary | src/store/selectors.ts:65-66 | exactly one of dark mode and light mode holds |
| Selectors.OfKind | src/store/selectors.ts:76-82 | every kept entry has that type, and the filter is never longer than the list |
| Selectors.OfKindKeepsThatKind | src/store/selectors.ts:76-82 | an entry is kept exactly when it is in the list and has that type |
| Selectors.OfKindConcat | src/store/selectors.ts:76-82 | the filter works piecewise, so it keeps the order |
| Selectors.ErrorNotifications | src/store/selectors.ts:76-78 | only errors, never more than `notificationCount` |
| Selectors.SuccessNotifications | src/store/selectors.ts:80-82 | only successes, never more than `notificationCount` |
| Selectors.ErrorsAndSuccessesWithinCount | src/store/selectors.ts:72-82 | errors and successes together never exceed the count |
| Selectors.AddedErrorIsListed | src/store/selectors.ts:76-78 | adding a notification extends the error list by it iff it is an error |
| Selectors.UserPrimaryTenant | src/store/selectors.ts:95-100 | the available tenant whose id is the user's `tenantId`, else `preferredTenant`; with neither, or an id not available, the current tenant |
| Selectors.NoUserPrimaryIsCurrent | src/store/selectors.ts:96-97 | without a user the primary tenant is the current tenant |
| Selectors.CanAccessResource | src/store/selectors.ts:102-107 | false when unauthenticated or without a user, otherwise any-role membership |
| Selectors.CanAccessIff | src/store/selectors.ts:102-107 | access holds iff authenticated, a user exists and some required role is held |
| Keycloak.ClientRoles | src/lib/auth/keycloak.service.ts:323-329 | a role is listed iff some client's role list contains it |
| Keycloak.Roles | src/lib/auth/keycloak.service.ts:314-332 | a role is listed iff it is a realm role or some client's role; missing lists contribute nothing |
| Keycloak.ExtractRoles | src/lib/auth/keycloak.service.ts:314-332 | the push loop yields the realm roles, then each client's roles in order, with duplicates kept |
| Keycloak.UsernameOf | src/lib/auth/keycloak.service.ts:284 | `preferred_username`, else the email, else empty |
| Keycloak.DisplayNameOf | src/lib/auth/keycloak.service.ts:306-307 | without both names, the username; with both, at most "first last" long |
| Keycloak.InitialsOf | src/lib/auth/keycloak.service.ts:308-310 | at most two characters, none lower-case; the two upper-cased first letters, else each of the first two characters of the username upper-cased |
| Keycloak.UserFromClaims | src/lib/auth/keycloak.service.ts:281-311 | every field of the user record in terms of the claims: ids and names defaulted to empty, roles, name, display name and initials; `lastLogin` is the claim when non-empty and absent otherwise |
| Keycloak.FullNameIsFirstSpaceLast | src/lib/auth/keycloak.service.ts:306 | names without surrounding white space give exactly "first last" |
| Keycloak.UsernameFallbacks | src/lib/auth/keycloak.service.ts:284 | the username falls back to the email and then to the empty string |
| Keycloak.IsAuthenticatedIn | src/lib/auth/keycloak.service.ts:255-257 | authenticated iff an instance exists and it says so |
| Keycloak.UserIn | src/lib/auth/keycloak.service.ts:259-262 | a user iff the instance exists, is authenticated and has parsed claims; it is the claims' user |
| Keycloak.HasRoleIn | src/lib/auth/keycloak.service.ts:334-340 | true iff an authenticated instance grants the role |
| Keycloak.HasAnyRoleIn | src/lib/auth/keycloak.service.ts:342-344 | true iff some listed role passes `hasRole` |
| Keycloak.AccessTokenIn | src/lib/auth/keycloak.service.ts:346-348 | null without an instance; present iff the instance holds a non-empty access token, and then it is that token |
| Keycloak.RefreshTokenIn | src/lib/auth/keycloak.service.ts:350-352 | null without an instance; present iff the instance holds a non-empty refresh token, and then it is that token |
| Keycloak.IdTokenIn | src/lib/auth/keycloak.service.ts:354-356 | null without an instance; present iff the instance holds a non-empty id token, and then it is that token |
| Keycloak.TokensIn | src/lib/auth/keycloak.service.ts:358-366 | present iff an access token is; then it carries the three tokens |
| Keycloak.InitializeStep | src/lib/auth/keycloak.service.ts:23-47 | returns the flag at once once initialised; shares a pending initialisation without touching `config`; otherwise stores the config and starts a new initialisation with a new instance; keeps the service invariant |
| Keycloak.SettleStep | src/lib/auth/keycloak.service.ts:70-91 | success marks the service initialised and reports the flag; failure clears `initialized`, the promise and the instance, keeps `config` and reports the prefixed error; keeps the service invariant |
| Keycloak.ResetStep | src/lib/auth/keycloak.service.ts:387-404 | all four fields cleared and the promise counter kept, after which the service is not authenticated, has no user and every token getter returns null |
| Keycloak.ConcurrentInitializeSharesPromise | src/lib/auth/keycloak.service.ts:29-35 | a second `initialize` during a pending one returns the same promise and keeps the first configuration |
| Keycloak.InitializedAnswersAtOnce | src/lib/auth/keycloak.service.ts:24-26 | after a successful initialisation, `initialize` answers with the flag and changes nothing |
| Keycloak.FailureAllowsRetry | src/lib/auth/keycloak.service.ts:85-90 | after a failed initialisation the next `initialize` starts afresh |
| Keycloak.KeycloakService.constructor | src/lib/auth/keycloak.service.ts:18-21 | the four fields start empty and the service invariant holds |
| Keycloak.KeycloakService.Initialize | src/lib/auth/keycloak.service.ts:23-47 | the fields change as `InitializeStep` says |
| Keycloak.KeycloakService.Settle | src/lib/auth/keycloak.service.ts:70-91 | the fields change as `SettleStep` says |
| Keycloak.KeycloakService.Reset | src/lib/auth/keycloak.service.ts:400-404 | the fields change as `ResetStep` says |
| Keycloak.KeycloakService.IsAuthenticated | src/lib/auth/keycloak.service.ts:255-257 | true only with an authenticated instance |
| Keycloak.KeycloakService.GetUser | src/lib/auth/keycloak.service.ts:259-312 | a user only when authenticated |
| Keycloak.KeycloakService.HasRole | src/lib/auth/keycloak.service.ts:334-340 | false unless authenticated |
| Keycloak.KeycloakService.HasAnyRole | src/lib/auth/keycloak.service.ts:342-344 | true iff some listed role passes `HasRole` |
| Keycloak.KeycloakService.GetAccessToken | src/lib/auth/keycloak.service.ts:346-348 | the access token of the current instance, or null |
| Keycloak.KeycloakService.GetTokens | src/lib/auth/keycloak.service.ts:358-366 | present iff an access token is, and then it carries that access token and the instance's refresh and id tokens |
| Keycloak.KeycloakService.RedirectTarget | src/lib/auth/keycloak.service.ts:192-223 | `login`/`logout` fail iff there is no instance; otherwise they redirect to the given URI, or to the origin when none is given |
| UseAuth.ConfigFrom | src/hooks/useAuth.ts:14-18 | each of url, realm and clientId is its environment value when truthy, else its default; never an empty field |
| UseAuth.InitSequence | src/hooks/useAuth.ts:70-97 | an authenticated answer with a user leaves that user and `isAuthenticated`; otherwise, including a thrown init, no user and not authenticated; `authInitialized` is true in every branch |
| UseAuth.ExposedAuthenticated | src/hooks/useAuth.ts:244 | the hook reports signed in iff both the store and the service say so |
| UseAuth.SignedInInitIsExposed | src/hooks/useAuth.ts:70-84 | a user from `getUser()` after initialisation is reported signed in by the hook |
| UseAuth.RetrySequence | src/hooks/useAuth.ts:198-203 | `authInitialized` false and `lastAuthCheck` null; user and flag kept |
| UseAuth.RetryRestartsInitialization | src/hooks/useAuth.ts:196-203 | after a retry auth is uninitialised and the hook reports nobody signed in |
| UseAuth.LogoutAsWritten | src/hooks/useAuth.ts:143-177 | logout as written: state reset with the UI preferences and `lastAuthCheck` kept, and on success the "Logged out" notice |
| UseAuth.LogoutFailureNoticeLost | src/hooks/useAuth.ts:165-175 | on a failed logout the "Logout Failed" notice is cleared by the second `reset()` |
| UseAuth.LogoutCorrected | src/hooks/useAuth.ts:143-177 | logout with the fallback reset before the failure notice: the state is signed out either way, keeping the UI preferences and `lastAuthCheck` |
| UseAuth.LogoutCorrectedReports | src/hooks/useAuth.ts:156-175 | the user is always told how logout went, and the failure notice is never auto-removed |
| UseAuth.AuthHook.constructor | src/hooks/useAuth.ts:24-25 | starts initialising with no error |
| UseAuth.AuthHook.IsAuthenticated | src/hooks/useAuth.ts:244 | the store flag and the service flag |
| UseAuth.AuthHook.InitializationEffect | src/hooks/useAuth.ts:47-62 | initialises only while auth is uninitialised; otherwise it just ends `isInitializing` and leaves the service alone |
| UseAuth.AuthHook.CompleteInitialization | src/hooks/useAuth.ts:64-101 | the store follows `InitSequence`; a thrown init sets `initError`; `isInitializing` ends; a signed-in answer is exposed as authenticated |
| UseAuth.AuthHook.SyncEffect | src/hooks/useAuth.ts:118-122 | initialisation finished elsewhere ends the local flag |
| UseAuth.AuthHook.RetryAuth | src/hooks/useAuth.ts:187-204 | resets the service, makes auth uninitialised, clears the error, starts initialising, and the hook reports nobody signed in |
| UseAuth.AuthHook.Login | src/hooks/useAuth.ts:125-140 | a redirect to the dashboard when the service can log in; otherwise the "Login Failed" notice |
| UseAuth.AuthHook.Logout | src/hooks/useAuth.ts:143-177 | the store follows `LogoutAsWritten` and the page goes to the login route |
| AuthGuard.Decide | src/guards/AuthGuard.tsx:16-127 | loading first, then the init error; permission denied, redirect (default `'/auth/login'`), inconsistent state and children each iff their conditions |
| AuthGuard.NoRolesNeverDenied | src/guards/AuthGuard.tsx:18 | with no required roles the role check never blocks |
| AuthGuard.ViewOf | src/guards/AuthGuard.tsx:21-29 | the guard sees the hook's conjunction, the store's user and flag, and the service's role check |
| AuthGuard.GrantedMatchesService | src/guards/AuthGuard.tsx:77 | the guard's role check is the service's `hasAnyRole` |
| AuthGuard.RenderOnlyWhenSignedIn | src/guards/AuthGuard.tsx:33-126 | children render only when initialisation finished without error, auth is initialised, store and service both say authenticated, and a required role (if any) is held by a user |
| AuthGuard.SignedInRenders | src/guards/AuthGuard.tsx:33-126 | the converse: in that situation the children render |
| UseTenant.InitialTenant | src/hooks/useTenant.ts:80 | the listed tenant with the saved id, else the first |
| UseTenant.InitialTenantFirstMatch | src/hooks/useTenant.ts:80 | of several tenants with the saved id, the first is chosen |
| UseTenant.TenantsLoaded | src/hooks/useTenant.ts:71-85 | the list is replaced only if it was empty; with no current tenant and a non-empty result the initial tenant is chosen and its id saved; an existing current tenant is kept |
| UseTenant.FirstLoadSelectsAvailable | src/hooks/useTenant.ts:64-83 | on a first load the chosen tenant is one of the available tenants |
| UseTenant.QueryEnabled | src/hooks/useTenant.ts:67 | the tenants query runs iff no tenants are known |
| UseTenant.SwitchSucceeded | src/hooks/useTenant.ts:95-111 | nothing happens for an empty tenant id; otherwise the store switch, then the "Workspace switched" notice only when the id names an available tenant; the auth and UI fields never change |
| UseTenant.TenantFor | src/hooks/useTenant.ts:124-126 | the tenant with the given id, or the current one when no id is given |
| UseTenant.IsTenantActive | src/hooks/useTenant.ts:123-128 | true iff the tenant looked up (by id, else the current one) exists and its status is active |
| UseTenant.IsTenantOnTrial | src/hooks/useTenant.ts:130-135 | true iff the tenant looked up (by id, else the current one) exists and its status is trial |
| UseTenant.GetTenantPlan | src/hooks/useTenant.ts:137-142 | the plan of the tenant looked up, or undefined iff none is found |
| UseTenant.TenantHook.OnTenantsLoaded | src/hooks/useTenant.ts:71-85 | the store and the saved id change as `TenantsLoaded` says |
| UseTenant.TenantHook.OnSwitchSucceeded | src/hooks/useTenant.ts:95-111 | the store changes as `SwitchSucceeded` says; for a non-empty id the saved id becomes the requested one even when the store ignores it, and for an empty id it is kept |
| UseTenant.TenantHook.OnSwitchFailed | src/hooks/useTenant.ts:113-119 | one "Switch failed" notice with the error's message, or the default message |
| TenantGuard.Decide | src/guards/TenantGuard.tsx:13-99 | loading when loading and uninitialised; then the error; no-workspace and children each iff their conditions |
| TenantGuard.ViewOf | src/guards/TenantGuard.tsx:14 | the guard's `isInitialized` is the hook's not-loading-and-no-error |
| TenantGuard.DecisionFromHook | src/guards/TenantGuard.tsx:26-98 | loading iff the query loads; children iff not loading, no error and a current tenant |
| ProtectedLayout.Decide | src/router/ProtectedLayout.tsx:9-15 | the authentication guard decides first and its screen carries its outcome; the tenant guard's screen carries the tenant outcome; the layout shows iff both render their children |
| ProtectedLayout.LayoutIff | src/router/ProtectedLayout.tsx:9-15 | the application layout shows iff auth finished and is confirmed by store and service, and a tenant is loaded without error and selected |
| AppLayout.Segments | src/layouts/AppLayout/AppLayout.tsx:26 | the segments are non-empty and hold no `'/'` |
| AppLayout.SegmentLabel | src/layouts/AppLayout/AppLayout.tsx:39-52 | a known segment takes its table label; others get the first character upper-cased and the rest unchanged |
| AppLayout.SegmentCrumbs | src/layouts/AppLayout/AppLayout.tsx:50-60 | one crumb per segment, in order |
| AppLayout.Breadcrumbs | src/layouts/AppLayout/AppLayout.tsx:25-63 | as many crumbs as segments, plus one for the leading Dashboard crumb |
| AppLayout.GenerateBreadcrumbs | src/layouts/AppLayout/AppLayout.tsx:25-63 | the push loop yields `Breadcrumbs` |
| AppLayout.OnlyFinalCrumbIsLast | src/layouts/AppLayout/AppLayout.tsx:51 | a crumb is last iff it is the final one and there are segments |
| AppLayout.LeadingCrumb | src/layouts/AppLayout/AppLayout.tsx:30-36 | the leading crumb is the Dashboard link whenever the first segment is not `dashboard`, the root path included |
| AppLayout.HrefExtends | src/layouts/AppLayout/AppLayout.tsx:53 | each segment's link extends the previous link by `'/'` and the segment |
| AppLayout.LeadingSlash | src/layouts/AppLayout/AppLayout.tsx:26 | a leading slash does not change the segments |
| AppLayout.DoubleSlash | src/layouts/AppLayout/AppLayout.tsx:26 | repeated slashes do not change the segments |
| AppLayout.TrailingSlash | src/layouts/AppLayout/AppLayout.tsx:26 | a trailing slash does not change the segments |
| AppLayout.HrefRoundTrip | src/layouts/AppLayout/AppLayout.tsx:53 | following the link of segment `i` leads to a path whose segments are the first `i + 1` segments |
| NavMain.BoundaryRequired | src/layouts/AppLayout/components/NavMain.tsx:43-44 | a prefix that does not end at a segment boundary is not current |
| NavMain.BeneathIsCurrent | src/layouts/AppLayout/components/NavMain.tsx:43-44 | any path beneath the item's URL is current |
| NavMain.CurrentExtendsSegments | src/layouts/AppLayout/components/NavMain.tsx:43-44 | when an item is current, the path's segments start with the item's |
| NavMain.DefaultOpen | src/layouts/AppLayout/components/NavMain.tsx:50 | open iff flagged active or current |
| NavMain.IsCurrentPath | src/layouts/AppLayout/components/NavMain.tsx:43-44 | current iff the path is the URL or continues it with `/` after the URL |
| NavMain.SubItemActive | src/layouts/AppLayout/components/NavMain.tsx:75 | an active sub-item's URL is also current for the path |
| NavMain.SubItemStricterThanCurrent | src/layouts/AppLayout/components/NavMain.tsx:75 | a sub-item is active on its exact URL but not beneath it |
| NavMain.IsLoadingTarget | src/layouts/AppLayout/components/NavMain.tsx:35-36 | the loader shows iff the navigation is loading and targets that URL |
| NavMain.LoaderOnOneItem | src/layouts/AppLayout/components/NavMain.tsx:76 | at most one of two distinct URLs shows the loader |
| NavUser.FirstChars | src/layouts/AppLayout/components/NavUser.tsx:39-41 | one character per non-empty word, its first, in order |
| NavUser.Initials | src/layouts/AppLayout/components/NavUser.tsx:37-44 | the upper-cased first characters of the first two non-empty space-separated words; as many as there are such words, at most two |
| NavUser.EmptyNameNoInitials | src/layouts/AppLayout/components/NavUser.tsx:38-43 | an empty name gives no initials |
| NavUser.InitialsAround | src/layouts/AppLayout/components/NavUser.tsx:39-41 | a space splits a name into parts whose first characters are taken independently |
| NavUser.SpacesIrrelevant | src/layouts/AppLayout/components/NavUser.tsx:39-41 | repeated and leading spaces contribute nothing |
| NavUser.TwoWords | src/layouts/AppLayout/components/NavUser.tsx:37-44 | two words give the upper-cased first letters of both, in order |
| I18n.LanguageArgument | src/lib/i18n/index.ts:153 | an absent or empty argument falls back to the current language |
| I18n.LanguageDirection | src/lib/i18n/index.ts:152-159 | right-to-left iff `isRTL`, i.e. iff the chosen language is `ar` |
| I18n.IsRtl | src/lib/i18n/index.ts:152-155 | right-to-left iff the chosen language (the argument if truthy, else the current one) is `ar` |
| I18n.SupportedDirectionsAgree | src/lib/i18n/index.ts:26-53 | each supported language is stored under its own code, and its `dir` equals `getLanguageDirection` of that code |
| I18n.UnsupportedIsLtr | src/lib/i18n/index.ts:152-158 | an unsupported code is left to right |
| I18n.FallbackToCurrent | src/lib/i18n/index.ts:152-158 | no argument and an empty argument mean the current language |
| LocalizedContent.TPlural | src/hooks/useLocalizedContent.ts:16-18 | the options carry `count`, and a `count` among the options wins |
| LocalizedContent.RelativeTime | src/hooks/useLocalizedContent.ts:63-78 | one of the four relative-time keys; "just now" has no options, every other key carries a count of at least 1 |
| LocalizedContent.ElapsedMinutes | src/hooks/useLocalizedContent.ts:66 | the floor of the elapsed milliseconds over 60000 |
| LocalizedContent.JustNowBelowAMinute | src/hooks/useLocalizedContent.ts:68-69 | "just now" iff under a minute, future dates included, and then with no count |
| LocalizedContent.RelativeTimeBuckets | src/hooks/useLocalizedContent.ts:66-78 | minutes for 1-59 with the count in minutes; hours for 60-1439 with the count `floor(m / 60)`, in 1..23; days from 1440 with the count `floor(m / 1440)`, at least 1 |
| LocalizedContent.OlderIsNeverFresher | src/hooks/useLocalizedContent.ts:66-78 | an older date never lands in an earlier bucket |
| Query.RetryQueryIff | src/lib/query.tsx:13-19 | a 4xx status is never retried; any other error, one without a response included, is retried iff fewer than three failures |
| Query.RetryQuery | src/lib/query.tsx:13-19 | a retry happens only below three failures and never for a 4xx status; `RetryQueryIff` gives the converse |
| Query.RetryMutation | src/lib/query.tsx:22 | `retry: false`: a mutation is never retried |
| Query.RefusalIsFinal | src/lib/query.tsx:13-19 | once refused, a retry stays refused for later failures |
| Query.MutationsNeverRetry | src/lib/query.tsx:22 | mutations are never retried |
| ValidateTranslations.FlattenIsFlat | scripts/validate-translations.cjs:9-21 | every flattened key extends the prefix and every value is a leaf |
| ValidateTranslations.MemberKeys | scripts/validate-translations.cjs:12-17 | the flattened keys are exactly those each member contributes |
| ValidateTranslations.LeafMember | scripts/validate-translations.cjs:15-16 | a non-object member is the key `prefix + key` |
| ValidateTranslations.NestedMember | scripts/validate-translations.cjs:13-14 | a nested member contributes its own keys under `prefix + key + '.'` |
| ValidateTranslations.EmptyObjectsContributeNothing | scripts/validate-translations.cjs:13-14 | empty objects and arrays contribute no keys |
| ValidateTranslations.FlattenObject | scripts/validate-translations.cjs:9-21 | the for-in loop with `Object.assign` yields `Flatten` |
| ValidateTranslations.Flatten | scripts/validate-translations.cjs:9-21 | a null, boolean or number has no keys and contributes nothing; `FlattenIsFlat` and `MemberKeys` state the rest |
| ValidateTranslations.LoadAll | scripts/validate-translations.cjs:30-51 | loads every parsed file, and the error flag is set iff some file is missing or invalid |
| ValidateTranslations.CheckNamespace | scripts/validate-translations.cjs:63-93 | the checks of one namespace, with the error flag iff one of them is an error |
| ValidateTranslations.Validate | scripts/validate-translations.cjs:23-101 | the checks made, and the failure flag as `ValidationFails` |
| ValidateTranslations.ComparedVerdict | scripts/validate-translations.cjs:76-92 | an error iff a base key is missing, so extra keys only warn; a perfect match iff the key sets are equal |
| ValidateTranslations.LangComparisonsError | scripts/validate-translations.cjs:63-93 | a namespace check errs iff some language lacks the namespace or some base key |
| ValidateTranslations.NamespaceComparisonsError | scripts/validate-translations.cjs:56-94 | the comparisons err iff some checked namespace has a deficient language |
| ValidateTranslations.ValidationFailsIff | scripts/validate-translations.cjs:98-101 | the run fails iff a file failed to load or a language is deficient in a namespace with base data |
| ValidateTranslations.ValidationFails | scripts/validate-translations.cjs:98-101 | a file that failed to load fails the run; `ValidationFailsIff` gives both directions |
| ValidateTranslations.ComparedOnlyWithBase | scripts/validate-translations.cjs:57-64 | a namespace without base data is skipped, and the base language is never checked against itself |
| RenameProject.SplitCamel | rename-project.js:51 | no lower-upper boundary is left, the first character is kept, and only hyphens are inserted |
| RenameProject.CollapseSeparators | rename-project.js:52 | no whitespace or underscore is left |
| RenameProject.CollapseRun | rename-project.js:52 | a run of separators between two separator-free stretches becomes one `'-'` |
| RenameProject.KebabCase | rename-project.js:49-54 | the result holds no upper-case letter, whitespace or underscore |
| RenameProject.Capitalize | rename-project.js:59 | the first character upper-cased, the rest unchanged |
| RenameProject.TitleCase | rename-project.js:56-61 | each hyphen becomes a space, so the title is as long as the name; `TitleCaseWords` gives the words |
| RenameProject.IsValidProjectName | rename-project.js:85 | an accepted name is already lower-case; `KebabUndoesTitle` relies on it |
| RenameProject.TitleCaseWords | rename-project.js:56-61 | for an accepted name the title holds no `'-'`, and splitting it on spaces gives one capitalised word per hyphen piece |
| RenameProject.KebabUndoesTitle | rename-project.js:49-61 | for an accepted name without `--`, `kebabCase(titleCase(name))` is the name |
| RenameProject.RenameOutcome | rename-project.js:76-116 | name required iff the trimmed answer is empty; invalid iff it is non-empty and does not match `^[a-z][a-z0-9-]*$`; cancelled iff it matches and the answer is not "y" in either case; renamed iff it matches and the answer is "y"; an empty title defaults to `titleCase(name)`; the description appends " - A modern SaaS application" |
| RenameProject.ConfirmationAnswers | rename-project.js:102 | the confirmation accepts exactly "y" and "Y" |

## Left out

- Timers are not modelled. This covers the 8-second initialisation timeout of the authentication hook, the token refresh interval, the token-expiry handlers and the 5-second notification timer. Auto-removal is an explicit step (`AutoRemove`), and which timer fires first is not modelled.
- The identity-provider SDK is not modelled: `init`, `updateToken`, the login and logout redirects and `hasRealmRole`/`hasResourceRole`. Their results are inputs, and the roles it grants are a set on the session.
- The service's `refreshToken`, `updateToken`, `getSessionInfo`, `setupEventHandlers`, `saveTokens` and `clearTokens` are not modelled. They use the SDK, session storage and the console. The same goes for the hook's `refreshToken` and `getSessionInfo` wrappers.
- Promise interleavings are not modelled. `KeycloakService.Settle` stands for the rest of an initialisation once `init` has ended. Numbering the initialisations keeps an old initialisation from overwriting a newer instance. Like the source, it still marks the service initialised.
- `lastLogin` is not parsed as a `Date`. The model keeps the claim string when it is non-empty.
- Notification timestamps are integers, not `Date` objects.
- `Intl` formatting (`formatDate`, `formatNumber`, `formatCurrency`) is not modelled, nor is the set-up of i18next and its detector.
- The DOM and `localStorage` writes of `changeLanguage` are not modelled. The translation function `t` is represented by the key and options it receives.
- Case mapping is ASCII only. JavaScript's full Unicode `toUpperCase`/`toLowerCase` (for example `ß` becoming `SS`) is not modelled. Strings are sequences of characters, not UTF-16 code units.
- Zustand's middleware (devtools, JSON storage) and the query client's cache are not modelled. `queryClient.clear` and `invalidateQueries` are left out as cache effects.
- The query client options other than `retry` are not modelled: `staleTime`, `refetchOnWindowFocus` and the mutation `onError` log.
- Query.RetryQuery: the status is a number or absent. A non-numeric status, which JavaScript would coerce in the comparison, is not modelled.
- ValidateTranslations.Flatten: its own contract covers only values without keys. `FlattenIsFlat`, `MemberKeys`, `LeafMember` and `NestedMember` state the keys and values of the rest, because a contract on the mutually recursive definition would repeat those proofs.
- ValidateTranslations.ValidationFails: its own contract gives one direction. `ValidationFailsIff` proves both.
- The segment label table is a fixed lookup. Keys inherited from JavaScript's object prototype (for example a segment named `constructor`) are not modelled.
- The hook's `canSwitchTenant` and `getTenantById` are the same computations as `Selectors.CanSwitchTenant` and `Selectors.GetTenantById`, so they are modelled once.
- Selectors.CanSwitchTenant: it is the definition "more than one tenant is available", so there is no separate contract.
- The isLoading/isPending flags of the hooks' queries and mutations come from the query library and are inputs.
- For objects, the translation script's for-in visits members in the order given. Integer-like keys, which JavaScript visits first, and duplicate keys in a JSON object are not modelled.
- The printed order of the missing and extra key lists is not modelled. The model compares key sets.
- File reading, console output and `process.exit` in the translation script are not modelled. A file is missing, unparsable or parsed.
- The file system work of the renaming script is not modelled: `replaceInFile`, `replaceInDirectory` and the writes to `package.json`, `index.html` and `.env`. Only the values it would write (name, title, description) are modelled.
- The prompts and `readline` of the renaming script are not modelled. The three answers are parameters.
- The markup of every component is not modelled. Guards and layouts are decisions or values.

## Findings

| source | as written | input that shows it | evidently intended | confidence | as-written member | corrected member |
|---|---|---|---|---|---|---|
| src/hooks/useAuth.ts:165-175 | the logout `onError` handler adds the "Logout Failed" notification and then calls `reset()`, which clears the notification list | a logout whose service call throws, for example because there is no SDK instance | reset the state first and then show the failure notice, so the user learns that logout failed | not executed | UseAuth.LogoutFailureNoticeLost | UseAuth.LogoutCorrectedReports |
