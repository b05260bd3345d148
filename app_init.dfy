/**
 * The browser's application-initialisation slice (slices/app/init.ts): its status reducers,
 * and `initializeAppAction`, the script that marks the app loading, records whether Keycloak
 * is enabled, restores a signed-in user from a stored access token that has not expired (and
 * clears the stored tokens otherwise), and ends in success or failure.
 */
module AppInit {
  import opened Wrappers
  import opened JsonValues
  import opened Runtime
  import opened TokenClaims
  import opened KeycloakAuthSlice
  import KAS = KeycloakAuthService

  /** The four values of `appStatus`. */
  datatype Status = Initial | Loading | Success | Fail

  /** The slice's state; `error` is absent until a failure sets it. */
  datatype InitState = InitState(status: Status, error: Option<string>)

  /** `initialState`: status `'initial'`, no error. */
  const InitialInitState: InitState := InitState(Initial, None)

  datatype InitAction =
    | InitializeAppState
    | InitializeAppStateSuccess
    | InitializeAppStateFail(failure: string)

  /** The slice's reducer. */
  function ReduceInit(s: InitState, a: InitAction): InitState
  {
    match a
    case InitializeAppState => s.(status := Loading)
    case InitializeAppStateSuccess => s.(status := Success)
    case InitializeAppStateFail(failure) => InitState(Fail, Some(failure))
  }

  function ReduceInitAll(s: InitState, actions: seq<InitAction>): InitState
    decreases |actions|
  {
    if actions == [] then s else ReduceInitAll(ReduceInit(s, actions[0]), actions[1..])
  }

  /**
   * The status reducers: loading, then success keeping whatever error was recorded, or failure
   * recording the new one. After a failure the state always carries its message.
   */
  lemma StatusReducers(s: InitState, failure: string)
    ensures ReduceInit(s, InitializeAppState) == InitState(Loading, s.error)
    ensures ReduceInit(s, InitializeAppStateSuccess) == InitState(Success, s.error)
    ensures ReduceInit(s, InitializeAppStateFail(failure)) == InitState(Fail, Some(failure))
  {
  }

  /** An action of either slice, in the order `initializeAppAction` dispatches them. */
  datatype AppAction = Init(initAction: InitAction) | Auth(authAction: AuthAction)

  /** The actions of the log that reach the init slice. */
  function InitOf(log: seq<AppAction>): (r: seq<InitAction>)
    ensures |r| <= |log|
    decreases |log|
  {
    if log == [] then []
    else (if log[0].Init? then [log[0].initAction] else []) + InitOf(log[1..])
  }

  /** The actions of the log that reach the Keycloak authentication slice. */
  function AuthOf(log: seq<AppAction>): (r: seq<AuthAction>)
    ensures |r| <= |log|
    decreases |log|
  {
    if log == [] then []
    else (if log[0].Auth? then [log[0].authAction] else []) + AuthOf(log[1..])
  }

  lemma {:induction false} InitOfAppend(a: seq<AppAction>, b: seq<AppAction>)
    ensures InitOf(a + b) == InitOf(a) + InitOf(b)
    decreases |a|
  {
    if a == [] {
      assert a + b == b;
    } else {
      var head := if a[0].Init? then [a[0].initAction] else [];
      assert (a + b)[0] == a[0];
      assert (a + b)[1..] == a[1..] + b;
      assert InitOf(a + b) == head + InitOf(a[1..] + b);
      InitOfAppend(a[1..], b);
      assert head + (InitOf(a[1..]) + InitOf(b)) == (head + InitOf(a[1..])) + InitOf(b);
    }
  }

  lemma {:induction false} AuthOfAppend(a: seq<AppAction>, b: seq<AppAction>)
    ensures AuthOf(a + b) == AuthOf(a) + AuthOf(b)
    decreases |a|
  {
    if a == [] {
      assert a + b == b;
    } else {
      var head := if a[0].Auth? then [a[0].authAction] else [];
      assert (a + b)[0] == a[0];
      assert (a + b)[1..] == a[1..] + b;
      assert AuthOf(a + b) == head + AuthOf(a[1..] + b);
      AuthOfAppend(a[1..], b);
      assert head + (AuthOf(a[1..]) + AuthOf(b)) == (head + AuthOf(a[1..])) + AuthOf(b);
    }
  }

  /**
   * `Number(v)` as `exp * 1000` applies it; `None` is `NaN`. Strings and arrays go through
   * JavaScript's string-to-number conversion.
   */
  function ExpNumber(v: Json, p: Platform): Option<real>
  {
    match v
    case JNum(n) => Some(n)
    case JBool(b) => Some(if b then 1.0 else 0.0)
    case JNull => Some(0.0)
    case JObj(_) => None
    case _ => p.numberOf(v)
  }

  /** `exp && exp * 1000 > Date.now()`, with an absent `exp` being `undefined`. */
  predicate Live(exp: Option<Json>, now: int, p: Platform)
  {
    && exp.Some?
    && Truthy(exp.value)
    && ExpNumber(exp.value, p).Some?
    && ExpNumber(exp.value, p).value * 1000.0 > now as real
  }

  /** What the restore step decides for the stored access token. */
  datatype RestoreDecision =
    | NothingStored
    | Authenticate(user: Identity)
    | ClearTokens

  /**
   * The restore branch of `initializeAppAction`. It runs only when Keycloak is enabled and a
   * non-empty token is stored. A payload that cannot be parsed throws inside the inner `try`
   * and so does a `null` payload (reading `exp` of `null`); both end in clearing the tokens.
   * Any other payload restores the user when its `exp` is live and clears the tokens otherwise.
   */
  function Restore(enabled: bool, stored: Option<string>, now: int, p: Platform): RestoreDecision
  {
    if !enabled || stored.None? || stored.value == "" then NothingStored
    else
      match KAS.ParseJwtPayload(stored.value, p)
      case None => ClearTokens
      case Some(payload) =>
        if Live(Field(payload, "exp"), now, p) then Authenticate(ClaimsOf(payload.fields))
        else ClearTokens
  }

  /** A present `exp` is read only from an object payload. */
  lemma LiveOnlyOnObjects(payload: Json, now: int, p: Platform)
    requires Live(Field(payload, "exp"), now, p)
    ensures payload.JObj? && "exp" in payload.fields
  {
  }

  /** Restoration is attempted exactly when Keycloak is enabled and a non-empty token is stored. */
  lemma RestoreOnlyWhenEnabledAndStored(enabled: bool, stored: Option<string>, now: int, p: Platform)
    ensures Restore(enabled, stored, now, p) != NothingStored <==> enabled && stored.Some? && stored.value != ""
  {
  }

  /**
   * With a token to restore, the user is signed in exactly when the payload parses and its
   * `exp` is live, and then with the payload's normalised claims; in every other case the
   * stored tokens are cleared.
   */
  lemma AuthenticatedIffLive(token: string, now: int, p: Platform)
    requires token != ""
    ensures var d := Restore(true, Some(token), now, p);
      var payload := KAS.ParseJwtPayload(token, p);
      && (d.Authenticate? <==> payload.Some? && Live(Field(payload.value, "exp"), now, p))
      && (d.Authenticate? ==> payload.value.JObj? && d.user == ClaimsOf(payload.value.fields))
      && (!d.Authenticate? ==> d == ClearTokens)
  {
  }

  /**
   * For a numeric `exp` (and a clock past the epoch), the token is live exactly when `exp`
   * seconds lie after `now` milliseconds; a payload without `exp` is never live.
   */
  lemma NumericExpiry(e: real, now: int, p: Platform)
    requires now >= 0
    ensures Live(Some(JNum(e)), now, p) <==> e * 1000.0 > now as real
    ensures !Live(None, now, p)
  {
  }

  /** A payload that does not parse clears the tokens and restores nobody. */
  lemma ParseFailureClears(token: string, now: int, p: Platform)
    requires token != "" && KAS.ParseJwtPayload(token, p) == None
    ensures Restore(true, Some(token), now, p) == ClearTokens
  {
  }

  /** How the CSRF, feature-flag and profile requests that follow the restore step end. */
  datatype LaterOutcome =
    | Completed
    | CsrfFailed
    | FlagsFailed
    | ProfileFailed
    /** Any other exception, with its `message` if it has one. */
    | Threw(message: Option<string>)

  const FailedToFetchCsrfTokenError: string := "Failed to fetch CSRF token"
  const FailedToFetchFeatureFlagsError: string := "Failed to fetch feature flags"
  const FailedToFetchUserProfileError: string := "Failed to fetch user profile"

  /** `error?.message || ''` for the exception that ended the script. */
  function FailMessage(later: LaterOutcome): string
  {
    match later
    case Completed => ""
    case CsrfFailed => FailedToFetchCsrfTokenError
    case FlagsFailed => FailedToFetchFeatureFlagsError
    case ProfileFailed => FailedToFetchUserProfileError
    case Threw(message) => message.GetOr("")
  }

  /** Which of the optional callbacks the script calls last. */
  datatype Callback = OnSuccess | OnFail

  /** The actions `initializeAppAction` dispatches, in order. */
  function InitActions(enabled: bool, d: RestoreDecision, later: LaterOutcome): seq<AppAction>
  {
    [Init(InitializeAppState), Auth(SetKeycloakEnabled(enabled))]
    + (if d.Authenticate? then [Auth(SetKeycloakAuthenticated(d.user))] else [])
    + [if later.Completed? then Init(InitializeAppStateSuccess) else Init(InitializeAppStateFail(FailMessage(later)))]
  }

  /**
   * The script always starts by marking the app loading and then recording whether Keycloak is
   * enabled, and always ends with exactly one success or failure action; only a restored user
   * adds an action in between.
   */
  lemma InitActionsShape(enabled: bool, d: RestoreDecision, later: LaterOutcome)
    ensures var log := InitActions(enabled, d, later);
      && |log| == (if d.Authenticate? then 4 else 3)
      && log[0] == Init(InitializeAppState)
      && log[1] == Auth(SetKeycloakEnabled(enabled))
      && (d.Authenticate? ==> log[2] == Auth(SetKeycloakAuthenticated(d.user)))
      && (log[|log| - 1] == Init(InitializeAppStateSuccess) <==> later.Completed?)
      && (!later.Completed? ==> log[|log| - 1] == Init(InitializeAppStateFail(FailMessage(later))))
  {
  }

  /** The actions that reach each slice. */
  lemma SliceActions(enabled: bool, d: RestoreDecision, later: LaterOutcome)
    ensures var log := InitActions(enabled, d, later);
      && InitOf(log) == [InitializeAppState,
                         if later.Completed? then InitializeAppStateSuccess else InitializeAppStateFail(FailMessage(later))]
      && AuthOf(log) == [SetKeycloakEnabled(enabled)] + (if d.Authenticate? then [SetKeycloakAuthenticated(d.user)] else [])
  {
    var head: seq<AppAction> := [Init(InitializeAppState), Auth(SetKeycloakEnabled(enabled))];
    var mid: seq<AppAction> := if d.Authenticate? then [Auth(SetKeycloakAuthenticated(d.user))] else [];
    var last: seq<AppAction> := [if later.Completed? then Init(InitializeAppStateSuccess) else Init(InitializeAppStateFail(FailMessage(later)))];
    InitOfAppend(head + mid, last);
    InitOfAppend(head, mid);
    AuthOfAppend(head + mid, last);
    AuthOfAppend(head, mid);
    assert head[1..][1..] == [];
    assert last[1..] == [];
    if d.Authenticate? {
      assert mid[1..] == [];
    }
  }

  /**
   * Starting from both initial states, the script leaves the authentication slice enabled as
   * configured and signed in exactly when the restore step authenticated, and the init slice
   * in success exactly when the later requests completed, or in failure with their message.
   */
  lemma FinalStates(enabled: bool, stored: Option<string>, now: int, p: Platform, later: LaterOutcome)
    ensures var d := Restore(enabled, stored, now, p);
      var log := InitActions(enabled, d, later);
      var auth := ReduceAll(KeycloakAuthSlice.InitialState, AuthOf(log));
      var init := ReduceInitAll(InitialInitState, InitOf(log));
      && auth.isEnabled == enabled
      && (auth.isAuthenticated <==> d.Authenticate?)
      && (d.Authenticate? ==> auth.user == Some(d.user))
      && Consistent(auth)
      && (init.status == Success <==> later.Completed?)
      && (later.Completed? ==> init.error == None)
      && (!later.Completed? ==> init == InitState(Fail, Some(FailMessage(later))))
  {
    var d := Restore(enabled, stored, now, p);
    SliceActions(enabled, d, later);
    ReplayInit(InitialInitState, later);
    ReplayAuth(KeycloakAuthSlice.InitialState, enabled, d);
  }

  /**
   * A token whose payload cannot be parsed does not abort initialisation: the tokens are
   * cleared and the script still ends in success when the later requests complete.
   */
  lemma ParseFailureDoesNotAbort(token: string, now: int, p: Platform)
    requires token != "" && KAS.ParseJwtPayload(token, p) == None
    ensures var log := InitActions(true, Restore(true, Some(token), now, p), Completed);
      && Restore(true, Some(token), now, p) == ClearTokens
      && log[|log| - 1] == Init(InitializeAppStateSuccess)
      && !ReduceAll(KeycloakAuthSlice.InitialState, AuthOf(log)).isAuthenticated
  {
    FinalStates(true, Some(token), now, p, Completed);
  }

  /** The init slice held in fields. */
  class AppInitStore {
    var status: Status
    var error: Option<string>

    function Snapshot(): InitState
      reads this
    {
      InitState(status, error)
    }

    constructor ()
      ensures Snapshot() == InitialInitState
    {
      status := Initial;
      error := None;
    }

    method InitializeAppState()
      modifies this
      ensures Snapshot() == ReduceInit(old(Snapshot()), InitAction.InitializeAppState)
    {
      status := Loading;
    }

    method InitializeAppStateSuccess()
      modifies this
      ensures Snapshot() == ReduceInit(old(Snapshot()), InitAction.InitializeAppStateSuccess)
    {
      status := Success;
    }

    method InitializeAppStateFail(failure: string)
      modifies this
      ensures Snapshot() == ReduceInit(old(Snapshot()), InitAction.InitializeAppStateFail(failure))
    {
      status := Fail;
      error := Some(failure);
    }
  }

  /**
   * `initializeAppAction()`: the dispatches in order, the restore step against the session's
   * storage, and the ending the later requests choose. `now` is `Date.now()`; `log` is the
   * sequence of dispatched actions and `callback` the optional callback called at the end.
   */
  method InitializeAppAction(init: AppInitStore, auth: AuthStore, session: KAS.BrowserSession,
                             now: int, p: Platform, later: LaterOutcome)
    returns (log: seq<AppAction>, callback: Callback)
    modifies init, auth, session
    ensures var enabled := KAS.IsKeycloakEnabled(session.win, session.env);
      var d := Restore(enabled, old(session.GetStoredAccessToken()), now, p);
      && log == InitActions(enabled, d, later)
      && init.Snapshot() == ReduceInitAll(old(init.Snapshot()), InitOf(log))
      && auth.Snapshot() == ReduceAll(old(auth.Snapshot()), AuthOf(log))
      && session.storage == (if d.ClearTokens? then KAS.Cleared(old(session.storage)) else old(session.storage))
      && session.href == old(session.href)
      && callback == (if later.Completed? then OnSuccess else OnFail)
  {
    ghost var init0 := init.Snapshot();
    ghost var auth0 := auth.Snapshot();
    ghost var stored0 := session.GetStoredAccessToken();
    init.InitializeAppState();
    var enabled := KAS.IsKeycloakEnabled(session.win, session.env);
    auth.SetKeycloakEnabled(enabled);
    log := [Init(InitAction.InitializeAppState), Auth(AuthAction.SetKeycloakEnabled(enabled))];
    ghost var d := Restore(enabled, stored0, now, p);
    if enabled {
      var stored := session.GetStoredAccessToken();
      if stored.Some? && stored.value != "" {
        var payload := KAS.ParseJwtPayload(stored.value, p);
        if payload.None? {
          session.ClearStoredTokens();
        } else {
          var exp := Field(payload.value, "exp");
          if Live(exp, now, p) {
            LiveOnlyOnObjects(payload.value, now, p);
            var user := ClaimsOf(payload.value.fields);
            auth.SetKeycloakAuthenticated(user);
            log := log + [Auth(AuthAction.SetKeycloakAuthenticated(user))];
          } else {
            session.ClearStoredTokens();
          }
        }
      }
    }
    ghost var authAfterRestore := auth.Snapshot();
    if later.Completed? {
      init.InitializeAppStateSuccess();
      log := log + [Init(InitAction.InitializeAppStateSuccess)];
      callback := OnSuccess;
    } else {
      init.InitializeAppStateFail(FailMessage(later));
      log := log + [Init(InitAction.InitializeAppStateFail(FailMessage(later)))];
      callback := OnFail;
    }
    assert log == InitActions(enabled, d, later);
    SliceActions(enabled, d, later);
    ReplayInit(init0, later);
    ReplayAuth(auth0, enabled, d);
  }

  /** Replaying the init slice's two actions from any state. */
  lemma ReplayInit(s: InitState, later: LaterOutcome)
    ensures var last := if later.Completed? then InitializeAppStateSuccess else InitializeAppStateFail(FailMessage(later));
      ReduceInitAll(s, [InitializeAppState, last]) == ReduceInit(ReduceInit(s, InitializeAppState), last)
  {
    var last := if later.Completed? then InitializeAppStateSuccess else InitializeAppStateFail(FailMessage(later));
    var l := [InitializeAppState, last];
    var s1 := ReduceInit(s, InitializeAppState);
    assert ReduceInitAll(s, l) == ReduceInitAll(s1, l[1..]);
    assert l[1..] == [last];
    assert ReduceInitAll(s1, [last]) == ReduceInitAll(ReduceInit(s1, last), [last][1..]);
    assert [last][1..] == [];
  }

  /** Replaying the authentication slice's one or two actions from any state. */
  lemma ReplayAuth(s: AuthState, enabled: bool, d: RestoreDecision)
    ensures var s1 := Reduce(s, SetKeycloakEnabled(enabled));
      ReduceAll(s, [SetKeycloakEnabled(enabled)] + (if d.Authenticate? then [SetKeycloakAuthenticated(d.user)] else []))
        == (if d.Authenticate? then Reduce(s1, SetKeycloakAuthenticated(d.user)) else s1)
  {
    var s1 := Reduce(s, SetKeycloakEnabled(enabled));
    if d.Authenticate? {
      var acts := [SetKeycloakEnabled(enabled)] + [SetKeycloakAuthenticated(d.user)];
      assert ReduceAll(s, acts) == ReduceAll(s1, acts[1..]);
      assert acts[1..] == [SetKeycloakAuthenticated(d.user)];
      var last := [SetKeycloakAuthenticated(d.user)];
      assert ReduceAll(s1, last) == ReduceAll(Reduce(s1, last[0]), last[1..]);
      assert last[1..] == [];
    } else {
      var acts := [SetKeycloakEnabled(enabled)] + [];
      assert acts == [SetKeycloakEnabled(enabled)];
      assert ReduceAll(s, acts) == ReduceAll(s1, acts[1..]);
      assert acts[1..] == [];
    }
  }
}
