/**
 * The dashboard's auth store: who is signed in, with which access token, and
 * the reducer over the `Auth` actions.
 */
module AuthStore {
  import opened Common
  import opened Auth

  datatype AuthState = AuthState(
    user: Option<ProfileView>,
    accessToken: Option<Token>,
    isAuthenticated: bool,
    loading: bool,
    error: Option<string>)

  const InitialAuthState := AuthState(None, None, false, false, None)

  datatype AuthAction =
    | Login(email: string, password: string)
    | LoginSuccess(response: LoginResponse)
    | LoginFailure(error: string)
    | Register(email: string, password: string)
    | RegisterSuccess(message: string)
    | RegisterFailure(error: string)
    | Logout
    | LogoutComplete
    | LoadUserFromStorage
    | UserLoaded(profile: ProfileView, token: Token)
    | NoUserFound
    | ClearError

  /**
   * The reducer. 'Load User From Storage' has no handler and returns the
   * state unchanged.
   */
  function Reduce(s: AuthState, a: AuthAction): (r: AuthState)
    ensures r.isAuthenticated && !s.isAuthenticated ==> a.LoginSuccess? || a.UserLoaded?
    ensures r.user != s.user ==> a.LoginSuccess? || a.UserLoaded? || a.LogoutComplete?
    ensures r.error.Some? && r.error != s.error ==> a.LoginFailure? || a.RegisterFailure?
  {
    match a
    case Login(_, _) => s.(loading := true, error := None)
    case LoginSuccess(response) =>
      s.(user := Some(response.user), accessToken := Some(response.accessToken),
         isAuthenticated := true, loading := false, error := None)
    case LoginFailure(error) => s.(loading := false, error := Some(error))
    case Register(_, _) => s.(loading := true, error := None)
    case RegisterSuccess(_) => s.(loading := false, error := None)
    case RegisterFailure(error) => s.(loading := false, error := Some(error))
    case Logout => s.(loading := true)
    case LogoutComplete => InitialAuthState
    case LoadUserFromStorage => s
    case UserLoaded(profile, token) =>
      s.(user := Some(profile), accessToken := Some(token), isAuthenticated := true)
    case NoUserFound => s.(isAuthenticated := false)
    case ClearError => s.(error := None)
  }

  /** The state after a sequence of actions, dispatched in order. */
  function ReduceAll(s: AuthState, actions: seq<AuthAction>): AuthState
    decreases |actions|
  {
    if actions == [] then s else ReduceAll(Reduce(s, actions[0]), actions[1..])
  }

  /** loginSuccess takes user and token from the response and ends loading without error. */
  lemma LoginSuccessEffect(s: AuthState, response: LoginResponse)
    ensures Reduce(s, LoginSuccess(response))
            == AuthState(Some(response.user), Some(response.accessToken), true, false, None)
  {
  }

  /** logoutComplete returns the initial state whatever came before. */
  lemma LogoutCompleteResets(s: AuthState)
    ensures Reduce(s, LogoutComplete) == InitialAuthState
    ensures !Reduce(s, LogoutComplete).isAuthenticated && Reduce(s, LogoutComplete).user == None
  {
  }

  /** A failed login or registration records the error and keeps the session as it was. */
  lemma FailureKeepsSession(s: AuthState, error: string)
    ensures Reduce(s, LoginFailure(error)) == s.(loading := false, error := Some(error))
    ensures Reduce(s, RegisterFailure(error)) == s.(loading := false, error := Some(error))
  {
  }

  /** A successful registration never signs anybody in. */
  lemma RegisterSuccessNeverAuthenticates(s: AuthState, message: string)
    ensures var r := Reduce(s, RegisterSuccess(message));
      r.user == s.user && r.accessToken == s.accessToken && r.isAuthenticated == s.isAuthenticated
      && !r.loading && r.error == None
  {
  }

  /** userLoaded signs in the stored user; noUserFound changes only isAuthenticated, to false. */
  lemma StorageEffects(s: AuthState, profile: ProfileView, token: Token)
    ensures Reduce(s, UserLoaded(profile, token)) == s.(user := Some(profile), accessToken := Some(token), isAuthenticated := true)
    ensures Reduce(s, NoUserFound) == s.(isAuthenticated := false)
    ensures Reduce(s, LoadUserFromStorage) == s
  {
  }

  /** clearError changes only error, to null. */
  lemma ClearErrorOnly(s: AuthState)
    ensures Reduce(s, ClearError) == s.(error := None)
  {
  }

  /** logout only starts loading: the user stays signed in until logoutComplete. */
  lemma LogoutKeepsSession(s: AuthState)
    ensures Reduce(s, Logout) == s.(loading := true)
  {
  }

  /** Actions that can sign a user in. */
  predicate SignsIn(a: AuthAction) {
    a.LoginSuccess? || a.UserLoaded?
  }

  /** From a signed-out state, no sequence without loginSuccess or userLoaded signs anybody in. */
  lemma {:induction false} OnlySignInActionsAuthenticate(s: AuthState, actions: seq<AuthAction>)
    requires !s.isAuthenticated
    requires forall i :: 0 <= i < |actions| ==> !SignsIn(actions[i])
    ensures !ReduceAll(s, actions).isAuthenticated
    decreases |actions|
  {
    if actions != [] {
      OnlySignInActionsAuthenticate(Reduce(s, actions[0]), actions[1..]);
    }
  }
}
