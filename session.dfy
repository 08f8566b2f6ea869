/** The client's session state (`authReducer` of the authentication
    context): a pure reducer over `{ user, token, isAuthenticated, loading }`,
    generic in the shape of the user record. */
module Session {
  import opened Common

  datatype State<U> = State(user: Option<U>, token: Option<string>, isAuthenticated: bool, loading: bool)

  /** The dispatched actions; `Unknown` stands for any other action type. */
  datatype Action<U> =
    | AuthStart
    | AuthSuccess(user: Option<U>, token: Option<string>)
    | AuthFail
    | Logout
    | UpdateUser(payload: Option<U>)
    | Unknown(kind: string)

  /** The state before anything is dispatched: the token saved in the
      browser, if any, and loading. */
  function Initial<U>(saved: Option<string>): (s: State<U>)
    ensures !s.isAuthenticated && s.loading && s.user.None? && s.token == saved
  {
    State(None, saved, false, true)
  }

  /** `authReducer`: only a successful sign-in signs the client in, only a
      sign-in or sign-out touches the token, and only AUTH_START starts
      loading. */
  function Reduce<U>(s: State<U>, a: Action<U>): (r: State<U>)
    ensures r.isAuthenticated && !s.isAuthenticated ==> a.AuthSuccess?
    ensures r.token != s.token ==> a.AuthSuccess? || a.AuthFail? || a.Logout?
    ensures r.loading && !s.loading ==> a.AuthStart?
    ensures r.user != s.user ==> !a.AuthStart? && !a.Unknown?
  {
    match a
    case AuthStart => s.(loading := true)
    case AuthSuccess(u, t) => s.(user := u, token := t, isAuthenticated := true, loading := false)
    case AuthFail => s.(user := None, token := None, isAuthenticated := false, loading := false)
    case Logout => s.(user := None, token := None, isAuthenticated := false, loading := false)
    case UpdateUser(u) => s.(user := u)
    case Unknown(_) => s
  }

  /** One step at a time: AUTH_START only raises `loading`; AUTH_SUCCESS
      installs the payload and signs in; AUTH_FAIL and LOGOUT both sign out,
      identically; UPDATE_USER replaces only the user; anything else is
      ignored. */
  lemma StepEffects<U>(s: State<U>, u: Option<U>, t: Option<string>, kind: string)
    ensures Reduce(s, AuthStart) == s.(loading := true)
    ensures var r := Reduce(s, AuthSuccess(u, t)); r.user == u && r.token == t && r.isAuthenticated && !r.loading
    ensures Reduce(s, AuthFail) == Reduce(s, Logout) == State(None, None, false, false)
    ensures Reduce(Reduce(s, Logout), Logout) == Reduce(s, Logout)
    ensures Reduce(s, UpdateUser(u)) == s.(user := u)
    ensures Reduce(s, Unknown(kind)) == s
  {
  }

  /** `useReducer` over a sequence of dispatches, in order. */
  function Run<U>(s: State<U>, acts: seq<Action<U>>): State<U>
    decreases |acts|
  {
    if acts == [] then s else Reduce(Run(s, acts[..|acts| - 1]), acts[|acts| - 1])
  }

  /** The last sign-in or sign-out among the actions. */
  function LastSignal<U>(acts: seq<Action<U>>): Option<Action<U>>
    decreases |acts|
  {
    if acts == [] then None
    else
      var a := acts[|acts| - 1];
      if a.AuthSuccess? || a.AuthFail? || a.Logout? then Some(a) else LastSignal(acts[..|acts| - 1])
  }

  /** After any sequence of dispatches, the client is signed in exactly when
      the last sign-in or sign-out was a successful sign-in, and its token is
      that sign-in's token, or none after a sign-out or failure; with no such
      action, both are as they started. */
  lemma {:induction false} SignedInIffLastSuccess<U>(s: State<U>, acts: seq<Action<U>>)
    ensures var r := Run(s, acts);
      match LastSignal(acts)
      case None => r.isAuthenticated == s.isAuthenticated && r.token == s.token
      case Some(a) => r.isAuthenticated == a.AuthSuccess? && r.token == (if a.AuthSuccess? then a.token else None)
    decreases |acts|
  {
    if acts != [] {
      SignedInIffLastSuccess(s, acts[..|acts| - 1]);
    }
  }

  /** A token saved in the browser does not by itself sign the client in:
      from the initial state, the client is signed in only after a
      successful sign-in that no sign-out or failure followed. */
  lemma SavedTokenAloneDoesNotSignIn<U>(saved: Option<string>, acts: seq<Action<U>>)
    ensures Run(Initial(saved), acts).isAuthenticated <==> LastSignal(acts).Some? && LastSignal(acts).value.AuthSuccess?
  {
    SignedInIffLastSuccess(Initial(saved), acts);
  }

  /** The last action that moves `loading`. */
  function LastLoadingChange<U>(acts: seq<Action<U>>): Option<Action<U>>
    decreases |acts|
  {
    if acts == [] then None
    else
      var a := acts[|acts| - 1];
      if a.AuthStart? || a.AuthSuccess? || a.AuthFail? || a.Logout? then Some(a)
      else LastLoadingChange(acts[..|acts| - 1])
  }

  /** The client shows as loading exactly when the last action that moves
      `loading` was AUTH_START. */
  lemma {:induction false} LoadingIffLastStart<U>(s: State<U>, acts: seq<Action<U>>)
    ensures Run(s, acts).loading == match LastLoadingChange(acts)
                                    case None => s.loading
                                    case Some(a) => a.AuthStart?
    decreases |acts|
  {
    if acts != [] {
      LoadingIffLastStart(s, acts[..|acts| - 1]);
    }
  }
}
