/** `authReducer` and `initialState` of client/src/contexts/AuthContext.js:
    the signed-in user (a plain object), a loading flag and an error. */
module AuthContext {
  import opened Common

  datatype AuthState = AuthState(user: Option<JsObject>, loading: bool, error: Option<string>)

  datatype AuthAction =
    | SetLoading(on: bool)
    | LoginSuccess(user: JsObject)
    | Logout
    | UpdateUser(changes: JsObject)
    | SetError(message: Option<string>)
    | ClearError
    | Unknown(name: string)

  /** Nobody signed in, loading until the stored token has been checked. */
  function InitialState(): (s: AuthState)
    ensures s.user.None? && s.loading && s.error.None?
  {
    AuthState(None, true, None)
  }

  /** `authReducer`. */
  function Reduce(s: AuthState, a: AuthAction): (r: AuthState)
    ensures a.LoginSuccess? ==> r == AuthState(Some(a.user), false, None)
    ensures a.Logout? ==> r == AuthState(None, false, None)
    ensures a.SetError? ==> r == s.(error := a.message, loading := false)
    ensures a.ClearError? ==> r == s.(error := None)
    ensures a.Unknown? ==> r == s
    ensures a.SetLoading? ==> r == s.(loading := a.on)
  {
    match a
    case SetLoading(on) => s.(loading := on)
    case LoginSuccess(user) => s.(user := Some(user), loading := false, error := None)
    case Logout => s.(user := None, loading := false, error := None)
    case UpdateUser(changes) =>
      var current := if s.user.Some? then s.user.value else map[];
      s.(user := Some(Spread(current, changes)), error := None)
    case SetError(message) => s.(error := message, loading := false)
    case ClearError => s.(error := None)
    case Unknown(_) => s
  }

  /** UPDATE_USER merges the changes into the user (into an empty one when
      nobody is signed in), clears the error and keeps the loading flag. */
  lemma UpdateUserMerges(s: AuthState, changes: JsObject)
    ensures var r := Reduce(s, UpdateUser(changes));
      r.user.Some? && r.error.None? && r.loading == s.loading
      && (forall k :: k in changes ==> k in r.user.value && r.user.value[k] == changes[k])
      && (s.user.Some? ==> forall k :: k in s.user.value && k !in changes ==> r.user.value[k] == s.user.value[k])
      && (s.user.None? ==> r.user.value == changes)
  {
  }

  /** Logging out forgets whoever logged in. */
  lemma LoginThenLogout(s: AuthState, user: JsObject)
    ensures Reduce(Reduce(s, LoginSuccess(user)), Logout) == Reduce(s, Logout)
  {
  }
}
