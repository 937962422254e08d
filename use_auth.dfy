/** The authentication hook (src/hooks/useAuth.ts): the initialisation
    effect's fixed sequences of store calls, `retryAuth`, login and logout,
    and the exposed `isAuthenticated`. Clock readings and SDK results are
    inputs. */
module UseAuth {
  import opened Wrappers
  import opened Text
  import opened StoreTypes
  import AuthSlice
  import NotificationsSlice
  import Store
  import Keycloak

  /** `getKeycloakConfig()` with the environment variables as inputs. */
  function ConfigFrom(url: Option<string>, realm: Option<string>, clientId: Option<string>): (c: Keycloak.KeycloakConfig)
    ensures c.url != "" && c.realm != "" && c.clientId != ""
    ensures Truthy(url) ==> c.url == url.value
    ensures !Truthy(url) ==> c.url == "http://localhost:8080"
    ensures Truthy(realm) ==> c.realm == realm.value
    ensures !Truthy(realm) ==> c.realm == "bayaan"
    ensures Truthy(clientId) ==> c.clientId == clientId.value
    ensures !Truthy(clientId) ==> c.clientId == "bayaan-frontend"
  {
    Keycloak.KeycloakConfig(
      if Truthy(url) then url.value else "http://localhost:8080",
      if Truthy(realm) then realm.value else "bayaan",
      if Truthy(clientId) then clientId.value else "bayaan-frontend")
  }

  /** The store calls `initializeAuth` makes once `initialize` has answered
      (`Success(authenticated)`) or thrown (`Failure`); `userInfo` is what
      `getUser()` returns at that point and `t1`..`t3` are the clock readings
      of the three store calls. */
  function InitSequence(s: GlobalState, result: Result<bool>, userInfo: Option<User>, t1: int, t2: int, t3: int): (r: GlobalState)
    ensures result == Success(true) && userInfo.Some? ==> r.user == userInfo && r.isAuthenticated
    ensures !(result == Success(true) && userInfo.Some?) ==> r.user.None? && !r.isAuthenticated
    ensures r.authInitialized && r.lastAuthCheck == Some(t3)
    ensures AuthSlice.OnlyAuthChanged(s, r)
  {
    if result == Success(true) && userInfo.Some? then
      AuthSlice.SetAuthInitialized(AuthSlice.SetAuthenticated(AuthSlice.SetUser(s, userInfo, t1), true, t2), true, t3)
    else
      AuthSlice.SetAuthInitialized(AuthSlice.SetUser(AuthSlice.SetAuthenticated(s, false, t1), None, t2), true, t3)
  }

  /** The hook's exposed `isAuthenticated`: the store flag and the service's. */
  function ExposedAuthenticated(s: GlobalState, kc: Option<Keycloak.Instance>): (r: bool)
    ensures r <==> s.isAuthenticated && kc.Some? && kc.value.session.authenticated
  {
    s.isAuthenticated && Keycloak.IsAuthenticatedIn(kc)
  }

  /** A signed-in initialisation is reported as signed in by the hook: a user
      from `getUser()` implies the service is authenticated too. */
  lemma SignedInInitIsExposed(s: GlobalState, kc: Option<Keycloak.Instance>, t1: int, t2: int, t3: int)
    requires Keycloak.UserIn(kc).Some?
    ensures var r := InitSequence(s, Success(true), Keycloak.UserIn(kc), t1, t2, t3);
      ExposedAuthenticated(r, kc) && r.user == Keycloak.UserIn(kc)
  {
  }

  /** The store part of `retryAuth`: `setAuthInitialized(false)` then
      `forceAuthRecheck()`. */
  function RetrySequence(s: GlobalState, now: int): (r: GlobalState)
    ensures !r.authInitialized && r.lastAuthCheck.None?
    ensures r.user == s.user && r.isAuthenticated == s.isAuthenticated
    ensures AuthSlice.OnlyAuthChanged(s, r)
  {
    AuthSlice.ForceAuthRecheck(AuthSlice.SetAuthInitialized(s, false, now))
  }

  /** After a retry the initialisation effect will run again, and until it
      completes the hook reports nobody signed in, whatever the store says. */
  lemma RetryRestartsInitialization(s: GlobalState, st: Keycloak.ServiceState, now: int)
    ensures var r := RetrySequence(s, now);
      !r.authInitialized && !ExposedAuthenticated(r, Keycloak.ResetStep(st).keycloak)
  {
  }

  const LoggedOut := NotificationsSlice.NotificationInput(SuccessNote, "Logged out", "You have been successfully logged out.")
  const LogoutFailed := NotificationsSlice.NotificationInput(ErrorNote, "Logout Failed", "There was an issue logging out. Please try again.")
  const LoginFailed := NotificationsSlice.NotificationInput(ErrorNote, "Login Failed", "Unable to start login process. Please try again.")

  /** Logout as the hook performs it: `reset()`, the service logout, then on
      success the "Logged out" notice, on failure the "Logout Failed" notice
      followed by a second `reset()`. */
  function LogoutAsWritten(s: GlobalState, succeeded: bool, id: string, now: int): (r: GlobalState)
    ensures r.user.None? && !r.isAuthenticated && !r.authInitialized
    ensures r.currentTenant.None? && r.availableTenants == [] && UiOf(r) == UiOf(s)
    ensures r.lastAuthCheck == s.lastAuthCheck
    ensures succeeded ==> r.notifications == [NotificationsSlice.NewNotification(LoggedOut, id, now)]
  {
    var cleared := Store.ResetState(s);
    if succeeded then NotificationsSlice.AddNotification(cleared, LoggedOut, id, now)
    else Store.ResetState(NotificationsSlice.AddNotification(cleared, LogoutFailed, id, now))
  }

  /** The failure notice never survives: the second `reset()` clears it. */
  lemma LogoutFailureNoticeLost(s: GlobalState, id: string, now: int)
    ensures LogoutAsWritten(s, false, id, now).notifications == []
  {
  }

  /** Logout with the fallback reset performed before the failure notice. */
  function LogoutCorrected(s: GlobalState, succeeded: bool, id: string, now: int): (r: GlobalState)
    ensures r.user.None? && !r.isAuthenticated && !r.authInitialized
    ensures r.currentTenant.None? && r.availableTenants == [] && UiOf(r) == UiOf(s)
    ensures r.lastAuthCheck == s.lastAuthCheck
  {
    var cleared := Store.ResetState(s);
    if succeeded then NotificationsSlice.AddNotification(cleared, LoggedOut, id, now)
    else NotificationsSlice.AddNotification(Store.ResetState(cleared), LogoutFailed, id, now)
  }

  /** With the corrected order the user is always told how logout went, and
      the failure notice, being an error, is never auto-removed. */
  lemma LogoutCorrectedReports(s: GlobalState, succeeded: bool, id: string, now: int)
    ensures var n := NotificationsSlice.NewNotification(if succeeded then LoggedOut else LogoutFailed, id, now);
      LogoutCorrected(s, succeeded, id, now).notifications == [n]
    ensures !succeeded ==> NotificationsSlice.ScheduledRemoval(LogoutFailed, id).None?
  {
  }

  /** The hook's local state with the store and the service it uses. */
  class AuthHook {
    const store: Store.AppStore
    const service: Keycloak.KeycloakService
    var isInitializing: bool
    var initError: Option<string>

    constructor (store: Store.AppStore, service: Keycloak.KeycloakService)
      ensures this.store == store && this.service == service
      ensures isInitializing && initError.None?
    {
      this.store := store;
      this.service := service;
      isInitializing := true;
      initError := None;
    }

    /** `isAuthenticated` as the hook returns it. */
    function IsAuthenticated(): (r: bool)
      reads this, store, service
      ensures r == ExposedAuthenticated(store.State(), service.keycloak)
    {
      store.isAuthenticated && service.IsAuthenticated()
    }

    /** The initialisation effect up to the `await`: it runs only while auth
        is not initialised, and then asks the service to initialise. */
    method InitializationEffect(cfg: Keycloak.KeycloakConfig) returns (call: Option<Keycloak.InitCall>)
      modifies this, service
      ensures old(store.authInitialized) ==> call.None? && !isInitializing && initError == old(initError)
      ensures old(store.authInitialized) ==> service.State() == old(service.State())
      ensures !old(store.authInitialized) ==> (isInitializing && initError.None? && call.Some? &&
        (service.State(), call.value) == Keycloak.InitializeStep(old(service.State()), cfg))
    {
      if !store.authInitialized {
        isInitializing := true;
        initError := None;
        var c := service.Initialize(cfg);
        call := Some(c);
      } else {
        isInitializing := false;
        call := None;
      }
    }

    /** The rest of `initializeAuth` once `initialize` has answered or thrown. */
    method CompleteInitialization(result: Result<bool>, t1: int, t2: int, t3: int)
      modifies this, store
      ensures store.State() == InitSequence(old(store.State()), result, old(service.GetUser()), t1, t2, t3)
      ensures !isInitializing
      ensures initError == (if result.Failure? then Some(result.error) else old(initError))
      ensures result == Success(true) && service.GetUser().Some? ==> IsAuthenticated()
    {
      if result.Failure? {
        initError := Some(result.error);
        store.SetAuthenticated(false, t1);
        store.SetUser(None, t2);
      } else if result.value {
        var userInfo := service.GetUser();
        if userInfo.Some? {
          store.SetUser(userInfo, t1);
          store.SetAuthenticated(true, t2);
        } else {
          store.SetAuthenticated(false, t1);
          store.SetUser(None, t2);
        }
      } else {
        store.SetAuthenticated(false, t1);
        store.SetUser(None, t2);
      }
      store.SetAuthInitialized(true, t3);
      isInitializing := false;
    }

    /** The second effect: initialisation finished elsewhere ends the local flag. */
    method SyncEffect()
      modifies this
      ensures isInitializing == (old(isInitializing) && !store.authInitialized)
      ensures initError == old(initError)
    {
      if store.authInitialized {
        isInitializing := false;
      }
    }

    method RetryAuth(now: int)
      modifies this, store, service
      ensures service.State() == Keycloak.ResetStep(old(service.State()))
      ensures store.State() == RetrySequence(old(store.State()), now)
      ensures initError.None? && isInitializing
      ensures !IsAuthenticated()
    {
      service.Reset();
      store.SetAuthInitialized(false, now);
      initError := None;
      isInitializing := true;
      store.ForceAuthRecheck();
    }

    /** `login`: the redirect target, or the "Login Failed" notice when the
        service has no instance or the SDK refuses. */
    method Login(origin: string, sdkOk: bool, id: string, now: int) returns (redirect: Option<string>)
      modifies store
      ensures var target := service.RedirectTarget(Some(origin + "/dashboard"), origin);
        if target.Success? && sdkOk then
          redirect == Some(target.value) && store.State() == old(store.State())
        else
          redirect.None? && store.State() == NotificationsSlice.AddNotification(old(store.State()), LoginFailed, id, now)
    {
      var target := service.RedirectTarget(Some(origin + "/dashboard"), origin);
      if target.Success? && sdkOk {
        redirect := Some(target.value);
      } else {
        var _ := store.AddNotification(LoginFailed, id, now);
        redirect := None;
      }
    }

    /** `logout`, ending with the navigation to the login page. */
    method Logout(origin: string, sdkOk: bool, id: string, now: int) returns (navigateTo: string)
      modifies store
      ensures var succeeded := service.RedirectTarget(Some(origin + "/auth/login"), origin).Success? && sdkOk;
        store.State() == LogoutAsWritten(old(store.State()), succeeded, id, now)
      ensures navigateTo == "/auth/login"
      ensures !IsAuthenticated()
    {
      store.Reset();
      var target := service.RedirectTarget(Some(origin + "/auth/login"), origin);
      if target.Success? && sdkOk {
        var _ := store.AddNotification(LoggedOut, id, now);
      } else {
        var _ := store.AddNotification(LogoutFailed, id, now);
        store.Reset();
      }
      navigateTo := "/auth/login";
    }
  }
}
