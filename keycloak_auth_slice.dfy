/**
 * The browser's Keycloak authentication slice (slices/auth/keycloak.ts): five flags and
 * fields, the five reducers that update them, and the selector that falls back to the
 * initial state. `Reduce` is the reducer as a function on state values; `AuthStore` keeps
 * the same state in fields and updates them the way the reducers assign to the draft.
 */
module KeycloakAuthSlice {
  import opened Wrappers
  import opened TokenClaims

  /** `StateKeycloakAuth`; `user` is `null` when `None`. */
  datatype AuthState = AuthState(
    isEnabled: bool,
    isAuthenticated: bool,
    isLoading: bool,
    user: Option<Identity>,
    error: string)

  /** `initialState`: disabled, signed out, idle, no user, no error. */
  const InitialState: AuthState := AuthState(false, false, false, None, "")

  /** The slice's actions with their payloads. */
  datatype AuthAction =
    | SetKeycloakEnabled(enabled: bool)
    | SetKeycloakLoading(loading: bool)
    | SetKeycloakAuthenticated(user: Identity)
    | SetKeycloakUnauthenticated
    | SetKeycloakError(message: string)

  /** A signed-in state has a user and a signed-out one has none. */
  predicate Consistent(s: AuthState)
  {
    s.isAuthenticated <==> s.user.Some?
  }

  /** The slice's reducer. Every action keeps a consistent state consistent. */
  function Reduce(s: AuthState, a: AuthAction): (r: AuthState)
    ensures Consistent(s) ==> Consistent(r)
  {
    match a
    case SetKeycloakEnabled(enabled) => s.(isEnabled := enabled)
    case SetKeycloakLoading(loading) => s.(isLoading := loading)
    case SetKeycloakAuthenticated(user) =>
      s.(isAuthenticated := true, isLoading := false, error := "", user := Some(user))
    case SetKeycloakUnauthenticated =>
      s.(isAuthenticated := false, isLoading := false, user := None)
    case SetKeycloakError(message) => s.(error := message, isLoading := false)
  }

  /** The state after the actions are dispatched in order. */
  function ReduceAll(s: AuthState, actions: seq<AuthAction>): AuthState
    decreases |actions|
  {
    if actions == [] then s else ReduceAll(Reduce(s, actions[0]), actions[1..])
  }

  /** Dispatching one more action is one more reducer step. */
  lemma {:induction false} ReduceAllSnoc(s: AuthState, actions: seq<AuthAction>, a: AuthAction)
    ensures ReduceAll(s, actions + [a]) == Reduce(ReduceAll(s, actions), a)
    decreases |actions|
  {
    if actions == [] {
      assert actions + [a] == [a];
    } else {
      assert (actions + [a])[1..] == actions[1..] + [a];
      ReduceAllSnoc(Reduce(s, actions[0]), actions[1..], a);
    }
  }

  /** The initial state is consistent, and every sequence of actions keeps it so. */
  lemma {:induction false} ConsistentAfterAnyActions(s: AuthState, actions: seq<AuthAction>)
    requires Consistent(s)
    ensures Consistent(ReduceAll(s, actions))
    decreases |actions|
  {
    if actions != [] {
      ConsistentAfterAnyActions(Reduce(s, actions[0]), actions[1..]);
    }
  }

  /** From the initial state the slice is authenticated exactly when it holds a user. */
  lemma AuthenticatedIffUser(actions: seq<AuthAction>)
    ensures ReduceAll(InitialState, actions).isAuthenticated <==> ReduceAll(InitialState, actions).user.Some?
  {
    ConsistentAfterAnyActions(InitialState, actions);
  }

  /**
   * What each reducer may touch: only `setKeycloakEnabled` changes `isEnabled`; only the
   * authenticated and unauthenticated reducers change `isAuthenticated` and `user`; only the
   * authenticated and error reducers change `error`. Every reducer but the first two leaves
   * the slice idle.
   */
  lemma ReducerFrames(s: AuthState, a: AuthAction)
    ensures var r := Reduce(s, a);
      && (r.isEnabled != s.isEnabled ==> a.SetKeycloakEnabled?)
      && (r.isAuthenticated != s.isAuthenticated || r.user != s.user ==>
            a.SetKeycloakAuthenticated? || a.SetKeycloakUnauthenticated?)
      && (r.error != s.error ==> a.SetKeycloakAuthenticated? || a.SetKeycloakError?)
      && (r.isLoading != s.isLoading ==> !a.SetKeycloakEnabled?)
      && (a.SetKeycloakAuthenticated? || a.SetKeycloakUnauthenticated? || a.SetKeycloakError? ==> !r.isLoading)
  {
  }

  /** Signing in clears any earlier error; signing out and reporting an error keep `isEnabled`. */
  lemma AuthenticatedClearsError(s: AuthState, user: Identity)
    ensures var r := Reduce(s, SetKeycloakAuthenticated(user));
      r.error == "" && r.user == Some(user) && r.isAuthenticated && r.isEnabled == s.isEnabled
  {
  }

  /** The last payload of `setKeycloakEnabled` among the actions, if any. */
  function LastEnabled(actions: seq<AuthAction>): Option<bool>
    decreases |actions|
  {
    if actions == [] then None
    else if actions[|actions| - 1].SetKeycloakEnabled? then Some(actions[|actions| - 1].enabled)
    else LastEnabled(actions[..|actions| - 1])
  }

  /** The user the last sign-in or sign-out among the actions left, if there was one. */
  function LastSession(actions: seq<AuthAction>): Option<Option<Identity>>
    decreases |actions|
  {
    if actions == [] then None
    else
      var a := actions[|actions| - 1];
      if a.SetKeycloakAuthenticated? then Some(Some(a.user))
      else if a.SetKeycloakUnauthenticated? then Some(None)
      else LastSession(actions[..|actions| - 1])
  }

  /**
   * `isEnabled` is the payload of the most recent `setKeycloakEnabled`, and `user` is the one
   * the most recent sign-in or sign-out left; without one, the field keeps its old value.
   */
  lemma {:induction false} FieldsFollowLastAction(s: AuthState, actions: seq<AuthAction>)
    ensures ReduceAll(s, actions).isEnabled == LastEnabled(actions).GetOr(s.isEnabled)
    ensures ReduceAll(s, actions).user == LastSession(actions).GetOr(s.user)
    decreases |actions|
  {
    if actions != [] {
      var init := actions[..|actions| - 1];
      var a := actions[|actions| - 1];
      assert actions == init + [a];
      ReduceAllSnoc(s, init, a);
      FieldsFollowLastAction(s, init);
    }
  }

  /** `keycloakAuthSelector`: the slice, or the initial state when the store has none. */
  function Select(slice: Option<AuthState>): AuthState
  {
    slice.GetOr(InitialState)
  }

  /** The selector always yields a consistent state when the stored slice is consistent. */
  lemma SelectConsistent(slice: Option<AuthState>)
    requires slice.Some? ==> Consistent(slice.value)
    ensures Consistent(Select(slice))
  {
  }

  /** The slice held in fields, each reducer assigning to them as the draft is assigned. */
  class AuthStore {
    var isEnabled: bool
    var isAuthenticated: bool
    var isLoading: bool
    var user: Option<Identity>
    var error: string

    function Snapshot(): AuthState
      reads this
    {
      AuthState(isEnabled, isAuthenticated, isLoading, user, error)
    }

    /** The store starts in `initialState`. */
    constructor ()
      ensures Snapshot() == InitialState
    {
      isEnabled := false;
      isAuthenticated := false;
      isLoading := false;
      user := None;
      error := "";
    }

    method SetKeycloakEnabled(payload: bool)
      modifies this
      ensures Snapshot() == Reduce(old(Snapshot()), AuthAction.SetKeycloakEnabled(payload))
    {
      isEnabled := payload;
    }

    method SetKeycloakLoading(payload: bool)
      modifies this
      ensures Snapshot() == Reduce(old(Snapshot()), AuthAction.SetKeycloakLoading(payload))
    {
      isLoading := payload;
    }

    method SetKeycloakAuthenticated(payload: Identity)
      modifies this
      ensures Snapshot() == Reduce(old(Snapshot()), AuthAction.SetKeycloakAuthenticated(payload))
    {
      isAuthenticated := true;
      isLoading := false;
      error := "";
      user := Some(payload);
    }

    method SetKeycloakUnauthenticated()
      modifies this
      ensures Snapshot() == Reduce(old(Snapshot()), AuthAction.SetKeycloakUnauthenticated)
    {
      isAuthenticated := false;
      isLoading := false;
      user := None;
    }

    method SetKeycloakError(payload: string)
      modifies this
      ensures Snapshot() == Reduce(old(Snapshot()), AuthAction.SetKeycloakError(payload))
    {
      error := payload;
      isLoading := false;
    }

    /** The default export: the reducer the store applies to a dispatched action. */
    method Dispatch(a: AuthAction)
      modifies this
      ensures Snapshot() == Reduce(old(Snapshot()), a)
    {
      match a
      case SetKeycloakEnabled(enabled) => SetKeycloakEnabled(enabled);
      case SetKeycloakLoading(loading) => SetKeycloakLoading(loading);
      case SetKeycloakAuthenticated(u) => SetKeycloakAuthenticated(u);
      case SetKeycloakUnauthenticated => SetKeycloakUnauthenticated();
      case SetKeycloakError(message) => SetKeycloakError(message);
    }
  }
}
