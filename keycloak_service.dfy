/** The authentication service (src/lib/auth/keycloak.service.ts). The SDK
    instance is a value carrying what the SDK reports after `init`; the
    outcome of `await keycloak.init(...)` is an input of `Settle`. A promise is
    identified by the number of the initialisation that created it. */
module Keycloak {
  import opened Wrappers
  import opened Text
  import opened StoreTypes

  datatype KeycloakConfig = KeycloakConfig(url: string, realm: string, clientId: string)

  /** One entry of the `resource_access` claim, in property order. */
  datatype ClientAccess = ClientAccess(client: string, roles: Option<seq<string>>)

  /** The parsed access token; each claim may be missing. */
  datatype Claims = Claims(
    sub: Option<string>,
    email: Option<string>,
    emailVerified: Option<bool>,
    givenName: Option<string>,
    familyName: Option<string>,
    preferredUsername: Option<string>,
    locale: Option<string>,
    picture: Option<string>,
    realmRoles: Option<seq<string>>,
    resourceAccess: Option<seq<ClientAccess>>,
    tenantId: Option<string>,
    preferredTenant: Option<string>,
    lastLogin: Option<string>)

  /** What an SDK instance exposes. `grantedRoles` are the roles its
      `hasRealmRole` or `hasResourceRole` accept. */
  datatype SdkSession = SdkSession(
    authenticated: bool,
    token: Option<string>,
    refreshToken: Option<string>,
    idToken: Option<string>,
    tokenParsed: Option<Claims>,
    grantedRoles: set<string>)

  /** A freshly constructed instance, before `init` has completed. */
  const BlankSession := SdkSession(false, None, None, None, None, {})

  /** An SDK instance, numbered by the initialisation that created it. */
  datatype Instance = Instance(generation: nat, config: KeycloakConfig, session: SdkSession)

  /** The returned tokens of `getTokens`. */
  datatype AuthTokens = AuthTokens(accessToken: string, refreshToken: Option<string>, idToken: Option<string>)

  // ----- roles and the user record -----

  function RolesOrNone(roles: Option<seq<string>>): seq<string> {
    if roles.Some? then roles.value else []
  }

  /** The client roles, client after client, duplicates kept. */
  function ClientRoles(clients: seq<ClientAccess>): (r: seq<string>)
    ensures forall x :: x in r <==> exists i :: 0 <= i < |clients| && x in RolesOrNone(clients[i].roles)
  {
    if |clients| == 0 then []
    else
      var rest := ClientRoles(clients[1..]);
      assert forall x :: x in rest <==> exists i :: 1 <= i < |clients| && x in RolesOrNone(clients[i].roles) by {
        forall x | x in rest ensures exists i :: 1 <= i < |clients| && x in RolesOrNone(clients[i].roles) {
          var j :| 0 <= j < |clients[1..]| && x in RolesOrNone(clients[1..][j].roles);
          assert clients[1..][j] == clients[j + 1];
        }
        forall x, i | 1 <= i < |clients| && x in RolesOrNone(clients[i].roles) ensures x in rest {
          assert clients[1..][i - 1] == clients[i];
        }
      }
      RolesOrNone(clients[0].roles) + rest
  }

  /** The specification of `extractRoles`: realm roles, then client roles. */
  function Roles(c: Claims): (r: seq<string>)
    ensures forall x :: x in r <==>
      x in RolesOrNone(c.realmRoles) ||
      (c.resourceAccess.Some? && exists i :: 0 <= i < |c.resourceAccess.value| && x in RolesOrNone(c.resourceAccess.value[i].roles))
  {
    RolesOrNone(c.realmRoles) + (if c.resourceAccess.Some? then ClientRoles(c.resourceAccess.value) else [])
  }

  /** `extractRoles`: pushes the realm roles, then each client's roles. */
  method ExtractRoles(c: Claims) returns (roles: seq<string>)
    ensures roles == Roles(c)
  {
    roles := [];
    if c.realmRoles.Some? {
      roles := roles + c.realmRoles.value;
    }
    if c.resourceAccess.Some? {
      var clients := c.resourceAccess.value;
      var i := 0;
      while i < |clients|
        invariant 0 <= i <= |clients|
        invariant roles + ClientRoles(clients[i..]) == Roles(c)
      {
        assert clients[i..][1..] == clients[i + 1..];
        if clients[i].roles.Some? {
          roles := roles + clients[i].roles.value;
        }
        i := i + 1;
      }
      assert clients[i..] == [];
    }
  }

  /** `firstName && lastName`, with both defaulted to `''`. */
  predicate HasFullName(c: Claims) {
    Truthy(c.givenName) && Truthy(c.familyName)
  }

  function UsernameOf(c: Claims): (r: string)
    ensures Truthy(c.preferredUsername) ==> r == c.preferredUsername.value
    ensures !Truthy(c.preferredUsername) ==> r == OrEmpty(c.email)
  {
    if Truthy(c.preferredUsername) then c.preferredUsername.value else OrEmpty(c.email)
  }

  /** `name` and `displayName`: "first last" trimmed, else the username. */
  function DisplayNameOf(c: Claims): (r: string)
    ensures !HasFullName(c) ==> r == UsernameOf(c)
    ensures HasFullName(c) ==> |r| <= |c.givenName.value| + 1 + |c.familyName.value|
  {
    if HasFullName(c) then Trim(c.givenName.value + " " + c.familyName.value) else UsernameOf(c)
  }

  /** `initials`: the two first letters, else the first two characters of the
      username, upper-cased. */
  function InitialsOf(c: Claims): (r: string)
    ensures |r| <= 2
    ensures forall i :: 0 <= i < |r| ==> !IsLowerAscii(r[i])
    ensures HasFullName(c) ==> r == [UpperChar(c.givenName.value[0]), UpperChar(c.familyName.value[0])]
    ensures !HasFullName(c) ==> |r| == if |UsernameOf(c)| < 2 then |UsernameOf(c)| else 2
    ensures !HasFullName(c) ==> forall i :: 0 <= i < |r| ==> r[i] == UpperChar(UsernameOf(c)[i])
  {
    if HasFullName(c) then Upper([c.givenName.value[0], c.familyName.value[0]])
    else Upper(Take(UsernameOf(c), 2))
  }

  /** The user record `getUser` builds from the token claims. */
  function UserFromClaims(c: Claims): (u: User)
    ensures u.id == OrEmpty(c.sub) && u.email == OrEmpty(c.email)
    ensures u.username == UsernameOf(c)
    ensures u.firstName == Some(OrEmpty(c.givenName)) && u.lastName == Some(OrEmpty(c.familyName))
    ensures u.roles == Roles(c)
    ensures u.name == u.displayName == Some(DisplayNameOf(c))
    ensures u.initials == Some(InitialsOf(c))
    ensures u.emailVerified == c.emailVerified && u.locale == c.locale && u.picture == c.picture
    ensures u.tenantId == c.tenantId && u.preferredTenant == c.preferredTenant
    ensures u.lastLogin == if Truthy(c.lastLogin) then c.lastLogin else None
  {
    var username := UsernameOf(c);
    var display := DisplayNameOf(c);
    User(OrEmpty(c.sub), username, OrEmpty(c.email), Some(OrEmpty(c.givenName)), Some(OrEmpty(c.familyName)),
      Some(display), Roles(c), c.emailVerified, c.locale, c.picture, c.tenantId, c.preferredTenant,
      if Truthy(c.lastLogin) then c.lastLogin else None,
      Some(display), Some(InitialsOf(c)))
  }

  /** Names without surrounding white space give exactly "first last". */
  lemma FullNameIsFirstSpaceLast(c: Claims)
    requires HasFullName(c)
    requires !IsJsSpace(c.givenName.value[0]) && !IsJsSpace(c.familyName.value[|c.familyName.value| - 1])
    ensures DisplayNameOf(c) == c.givenName.value + " " + c.familyName.value
  {
    var s := c.givenName.value + " " + c.familyName.value;
    assert s[0] == c.givenName.value[0];
    assert s[|s| - 1] == c.familyName.value[|c.familyName.value| - 1];
  }

  /** The username falls back to the email, then to the empty string. */
  lemma UsernameFallbacks(c: Claims)
    ensures !Truthy(c.preferredUsername) && !Truthy(c.email) ==> UsernameOf(c) == ""
    ensures Truthy(c.preferredUsername) ==> UsernameOf(c) != ""
    ensures !Truthy(c.preferredUsername) && Truthy(c.email) ==> UsernameOf(c) == c.email.value
  {
  }

  // ----- reads of the current instance -----

  /** `isAuthenticated()`: `keycloak?.authenticated || false`. */
  function IsAuthenticatedIn(kc: Option<Instance>): (r: bool)
    ensures r <==> kc.Some? && kc.value.session.authenticated
  {
    kc.Some? && kc.value.session.authenticated
  }

  /** `getUser()`: a user only for an authenticated instance with parsed claims. */
  function UserIn(kc: Option<Instance>): (r: Option<User>)
    ensures r.Some? <==> IsAuthenticatedIn(kc) && kc.value.session.tokenParsed.Some?
    ensures r.Some? ==> r.value == UserFromClaims(kc.value.session.tokenParsed.value)
  {
    if kc.None? || !kc.value.session.authenticated || kc.value.session.tokenParsed.None? then None
    else Some(UserFromClaims(kc.value.session.tokenParsed.value))
  }

  /** `hasRole(role)`: false unless an authenticated instance grants it. */
  function HasRoleIn(kc: Option<Instance>, role: string): (r: bool)
    ensures r <==> IsAuthenticatedIn(kc) && role in kc.value.session.grantedRoles
  {
    if kc.None? || !kc.value.session.authenticated then false
    else role in kc.value.session.grantedRoles
  }

  /** `hasAnyRole(roles)`: `roles.some(hasRole)`. */
  function HasAnyRoleIn(kc: Option<Instance>, roles: seq<string>): (r: bool)
    ensures r <==> exists i :: 0 <= i < |roles| && HasRoleIn(kc, roles[i])
  {
    if |roles| == 0 then false
    else HasRoleIn(kc, roles[0]) || HasAnyRoleIn(kc, roles[1..])
  }

  /** `x || null` for a token of the instance. */
  function TokenOrNull(kc: Option<Instance>, t: Option<string>): (r: Option<string>)
    ensures r.Some? <==> kc.Some? && Truthy(t)
    ensures r.Some? ==> r == t
  {
    if kc.Some? && Truthy(t) then t else None
  }

  function AccessTokenIn(kc: Option<Instance>): (r: Option<string>)
    ensures kc.None? ==> r.None?
    ensures r.Some? <==> kc.Some? && Truthy(kc.value.session.token)
    ensures r.Some? ==> r == kc.value.session.token && r.value != ""
  {
    TokenOrNull(kc, if kc.Some? then kc.value.session.token else None)
  }

  function RefreshTokenIn(kc: Option<Instance>): (r: Option<string>)
    ensures kc.None? ==> r.None?
    ensures r.Some? <==> kc.Some? && Truthy(kc.value.session.refreshToken)
    ensures r.Some? ==> r == kc.value.session.refreshToken && r.value != ""
  {
    TokenOrNull(kc, if kc.Some? then kc.value.session.refreshToken else None)
  }

  function IdTokenIn(kc: Option<Instance>): (r: Option<string>)
    ensures kc.None? ==> r.None?
    ensures r.Some? <==> kc.Some? && Truthy(kc.value.session.idToken)
    ensures r.Some? ==> r == kc.value.session.idToken && r.value != ""
  {
    TokenOrNull(kc, if kc.Some? then kc.value.session.idToken else None)
  }

  /** `getTokens()`: present exactly when an access token is. */
  function TokensIn(kc: Option<Instance>): (r: Option<AuthTokens>)
    ensures r.Some? <==> AccessTokenIn(kc).Some?
    ensures r.Some? ==> (r.value.accessToken == AccessTokenIn(kc).value &&
      r.value.refreshToken == kc.value.session.refreshToken && r.value.idToken == kc.value.session.idToken)
  {
    if kc.None? || !Truthy(kc.value.session.token) then None
    else Some(AuthTokens(kc.value.session.token.value, kc.value.session.refreshToken, kc.value.session.idToken))
  }

  // ----- the service's own state -----

  datatype ServiceState = ServiceState(
    keycloak: Option<Instance>,
    initialized: bool,
    config: Option<KeycloakConfig>,
    initializationPromise: Option<nat>,
    promisesCreated: nat)

  const InitialService := ServiceState(None, false, None, None, 0)

  /** The service's own consistency: an instance exists exactly while a
      promise is held, both come from the same initialisation, and the
      instance was built from the stored configuration. */
  predicate ServiceValid(st: ServiceState) {
    (st.keycloak.Some? <==> st.initializationPromise.Some?) &&
    (st.keycloak.Some? ==>
      st.keycloak.value.generation == st.initializationPromise.value &&
      st.initializationPromise.value < st.promisesCreated &&
      st.config == Some(st.keycloak.value.config))
  }

  /** What `initialize` gives its caller: a value at once, or the promise of
      the given initialisation. */
  datatype InitCall = Settled(authenticated: bool) | Awaiting(promise: nat)

  /** How `await keycloak.init(...)` ended. */
  datatype InitOutcome = InitResolved(session: SdkSession) | InitRejected(reason: string)

  const InitFailurePrefix := "Authentication service initialization failed: "

  /** `initialize(config)`. */
  function InitializeStep(st: ServiceState, cfg: KeycloakConfig): (res: (ServiceState, InitCall))
    ensures ServiceValid(st) ==> ServiceValid(res.0)
    ensures st.initialized && st.keycloak.Some? ==>
      res == (st, Settled(st.keycloak.value.session.authenticated))
    ensures !(st.initialized && st.keycloak.Some?) && st.initializationPromise.Some? ==>
      res == (st, Awaiting(st.initializationPromise.value))
    ensures !(st.initialized && st.keycloak.Some?) && st.initializationPromise.None? ==>
      res.1 == Awaiting(st.promisesCreated) &&
      res.0 == st.(config := Some(cfg), keycloak := Some(Instance(st.promisesCreated, cfg, BlankSession)),
        initializationPromise := Some(st.promisesCreated), promisesCreated := st.promisesCreated + 1)
  {
    if st.initialized && st.keycloak.Some? then (st, Settled(st.keycloak.value.session.authenticated))
    else if st.initializationPromise.Some? then (st, Awaiting(st.initializationPromise.value))
    else
      var p := st.promisesCreated;
      (st.(config := Some(cfg), keycloak := Some(Instance(p, cfg, BlankSession)),
        initializationPromise := Some(p), promisesCreated := p + 1), Awaiting(p))
  }

  /** The rest of `performInitialization` for promise `p`, once `init` has
      ended. The SDK's results reach the service only if it still holds the
      instance that initialisation created. */
  function SettleStep(st: ServiceState, p: nat, outcome: InitOutcome): (res: (ServiceState, Result<bool>))
    ensures ServiceValid(st) ==> ServiceValid(res.0)
    ensures res.0.promisesCreated == st.promisesCreated
    ensures outcome.InitResolved? ==>
      res.1 == Success(outcome.session.authenticated) && res.0.initialized &&
      res.0.config == st.config && res.0.initializationPromise == st.initializationPromise
    ensures outcome.InitResolved? && st.keycloak.Some? && st.keycloak.value.generation == p ==>
      res.0.keycloak == Some(st.keycloak.value.(session := outcome.session))
    ensures outcome.InitResolved? && !(st.keycloak.Some? && st.keycloak.value.generation == p) ==>
      res.0.keycloak == st.keycloak
    ensures outcome.InitRejected? ==>
      res.1 == Failure(InitFailurePrefix + outcome.reason) &&
      !res.0.initialized && res.0.initializationPromise.None? && res.0.keycloak.None? && res.0.config == st.config
  {
    match outcome
    case InitResolved(session) =>
      var kc := if st.keycloak.Some? && st.keycloak.value.generation == p
        then Some(st.keycloak.value.(session := session)) else st.keycloak;
      (st.(keycloak := kc, initialized := true), Success(session.authenticated))
    case InitRejected(reason) =>
      (st.(initialized := false, initializationPromise := None, keycloak := None),
        Failure(InitFailurePrefix + reason))
  }

  /** `reset()`. */
  function ResetStep(st: ServiceState): (r: ServiceState)
    ensures r.keycloak.None? && !r.initialized && r.config.None? && r.initializationPromise.None?
    ensures r.promisesCreated == st.promisesCreated
    ensures ServiceValid(r)
    ensures !IsAuthenticatedIn(r.keycloak) && UserIn(r.keycloak).None?
    ensures AccessTokenIn(r.keycloak).None? && RefreshTokenIn(r.keycloak).None? && IdTokenIn(r.keycloak).None?
    ensures TokensIn(r.keycloak).None?
  {
    st.(keycloak := None, initialized := false, config := None, initializationPromise := None)
  }

  /** While one initialisation is pending, a second `initialize` with another
      configuration shares its promise and leaves the first configuration. */
  lemma ConcurrentInitializeSharesPromise(st: ServiceState, c1: KeycloakConfig, c2: KeycloakConfig)
    requires ServiceValid(st) && st.initializationPromise.None? && !st.initialized
    ensures var (st1, call1) := InitializeStep(st, c1);
      var (st2, call2) := InitializeStep(st1, c2);
      call1 == call2 && st2 == st1 && st2.config == Some(c1)
  {
  }

  /** After a successful initialisation, `initialize` answers at once with the
      authentication flag and changes nothing. */
  lemma InitializedAnswersAtOnce(st: ServiceState, cfg: KeycloakConfig, session: SdkSession, other: KeycloakConfig)
    requires ServiceValid(st) && st.initializationPromise.None? && !st.initialized
    ensures var (st1, call) := InitializeStep(st, cfg);
      var (st2, r) := SettleStep(st1, call.promise, InitResolved(session));
      r == Success(session.authenticated) &&
      InitializeStep(st2, other) == (st2, Settled(session.authenticated)) &&
      st2.keycloak == Some(Instance(call.promise, cfg, session))
  {
  }

  /** A failed initialisation allows a retry: the next `initialize` starts a
      new initialisation with a new instance. */
  lemma FailureAllowsRetry(st: ServiceState, p: nat, reason: string, cfg: KeycloakConfig)
    requires ServiceValid(st)
    ensures var (st1, r) := SettleStep(st, p, InitRejected(reason));
      var (st2, call) := InitializeStep(st1, cfg);
      r.Failure? && call == Awaiting(st.promisesCreated) && st2.keycloak == Some(Instance(st.promisesCreated, cfg, BlankSession))
  {
  }

  /** The service object: the four fields of the source plus the counter that
      numbers initialisations. */
  class KeycloakService {
    var keycloak: Option<Instance>
    var initialized: bool
    var config: Option<KeycloakConfig>
    var initializationPromise: Option<nat>
    var promisesCreated: nat

    function State(): ServiceState
      reads this
    {
      ServiceState(keycloak, initialized, config, initializationPromise, promisesCreated)
    }

    constructor ()
      ensures State() == InitialService && ServiceValid(State())
    {
      keycloak, initialized, config, initializationPromise, promisesCreated := None, false, None, None, 0;
    }

    method Initialize(cfg: KeycloakConfig) returns (call: InitCall)
      modifies this
      ensures (State(), call) == InitializeStep(old(State()), cfg)
    {
      if initialized && keycloak.Some? {
        return Settled(keycloak.value.session.authenticated);
      }
      if initializationPromise.Some? {
        return Awaiting(initializationPromise.value);
      }
      config := Some(cfg);
      var p := promisesCreated;
      promisesCreated := promisesCreated + 1;
      keycloak := Some(Instance(p, cfg, BlankSession));
      initializationPromise := Some(p);
      call := Awaiting(p);
    }

    method Settle(p: nat, outcome: InitOutcome) returns (r: Result<bool>)
      modifies this
      ensures (State(), r) == SettleStep(old(State()), p, outcome)
    {
      match outcome
      case InitResolved(session) =>
        if keycloak.Some? && keycloak.value.generation == p {
          keycloak := Some(keycloak.value.(session := session));
        }
        initialized := true;
        r := Success(session.authenticated);
      case InitRejected(reason) =>
        initialized := false;
        initializationPromise := None;
        keycloak := None;
        r := Failure(InitFailurePrefix + reason);
    }

    method Reset()
      modifies this
      ensures State() == ResetStep(old(State()))
    {
      initialized := false;
      initializationPromise := None;
      keycloak := None;
      config := None;
    }

    function IsAuthenticated(): (r: bool)
      reads this
      ensures r ==> keycloak.Some? && keycloak.value.session.authenticated
      ensures r == IsAuthenticatedIn(keycloak)
    {
      keycloak.Some? && keycloak.value.session.authenticated
    }

    function GetUser(): (r: Option<User>)
      reads this
      ensures r.Some? ==> IsAuthenticated()
      ensures r == UserIn(keycloak)
    {
      UserIn(keycloak)
    }

    function HasRole(role: string): (r: bool)
      reads this
      ensures r ==> IsAuthenticated()
      ensures r == HasRoleIn(keycloak, role)
    {
      HasRoleIn(keycloak, role)
    }

    function HasAnyRole(roles: seq<string>): (r: bool)
      reads this
      ensures r <==> exists i :: 0 <= i < |roles| && HasRole(roles[i])
    {
      HasAnyRoleIn(keycloak, roles)
    }

    function GetAccessToken(): (r: Option<string>)
      reads this
      ensures r == AccessTokenIn(keycloak)
    {
      TokenOrNull(keycloak, if keycloak.Some? then keycloak.value.session.token else None)
    }

    function GetTokens(): (r: Option<AuthTokens>)
      reads this
      ensures r.Some? <==> GetAccessToken().Some?
      ensures r.Some? ==> (r.value.accessToken == GetAccessToken().value &&
        r.value.refreshToken == keycloak.value.session.refreshToken && r.value.idToken == keycloak.value.session.idToken)
    {
      TokensIn(keycloak)
    }

    /** `login`/`logout`: refused without an instance; otherwise the redirect
        goes to the given URI, else to the page origin. */
    function RedirectTarget(redirectUri: Option<string>, origin: string): (r: Result<string>)
      reads this
      ensures r.Failure? <==> keycloak.None?
      ensures r.Success? && Truthy(redirectUri) ==> r.value == redirectUri.value
      ensures r.Success? && !Truthy(redirectUri) ==> r.value == origin
    {
      if keycloak.None? then Failure("Keycloak not initialized")
      else Success(if Truthy(redirectUri) then redirectUri.value else origin)
    }
  }
}
