/**
 The client's session store (frontend/src/stores/auth.js). The token is
 mirrored in the browser's local storage, which is modelled as a field of
 the state; a navigation the store starts is returned with each step. The
 user is held as the server shows it, without a password.
 */
module AuthStore {
  import opened Common
  import opened ClientApi
  import AS = AdminService

  datatype State = State(
    user: Option<AS.PublicUser>,
    token: Option<string>,
    loading: bool,
    error: Option<string>,
    /** The `token` entry of local storage. */
    stored: Option<string>)

  /** The body of a register or login response. */
  datatype Session = Session(token: string, user: AS.PublicUser)

  /** The state after an action, the named route it pushed (if any), and what it returned. */
  datatype Step<+T> = Step(state: State, push: Option<string>, result: T)

  const ArticlesRoute: string := "articles"
  const LoginRoute: string := "login"
  const RegisterFailed: string := "Registration failed"
  const LoginFailed: string := "Login failed"

  /** `localStorage.getItem('token') || null`: an empty stored token counts as none. */
  function Initial(stored: Option<string>): (s: State)
    ensures s.user.None? && !s.loading && s.error.None? && s.stored == stored
    ensures s.token.Some? <==> stored.Some? && stored.value != ""
    ensures s.token.Some? ==> s.token == stored
  {
    State(None, if stored.Some? && stored.value != "" then stored else None, false, None, stored)
  }

  /**
   `!!token && !!user`: a non-empty token and a user object. The token of an
   authenticated session is one that a reload would read back as a token.
   */
  function IsAuthenticated(s: State): (b: bool)
    ensures b <==> s.user.Some? && s.token.Some? && Initial(s.token).token == s.token
  {
    s.token.Some? && s.token.value != "" && s.user.Some?
  }

  /** Register and login share their shape: on success the session is kept and stored, and the articles page opened. */
  function SignIn(s: State, res: ApiResult<Session>, fallback: string): (t: Step<bool>)
    ensures !t.state.loading && t.state.stored == (if res.Ok? then Some(res.data.token) else s.stored)
    ensures t.result <==> res.Ok?
    ensures res.Ok? ==> t == Step(State(Some(res.data.user), Some(res.data.token), false, None, Some(res.data.token)), Some(ArticlesRoute), true)
    ensures !res.Ok? ==> t == Step(s.(loading := false, error := Some(ErrorText(res, fallback))), None, false)
  {
    match res
    case Ok(session) =>
      Step(State(Some(session.user), Some(session.token), false, None, Some(session.token)), Some(ArticlesRoute), true)
    case _ => Step(s.(loading := false, error := Some(ErrorText(res, fallback))), None, false)
  }

  /** `register`. */
  function Register(s: State, res: ApiResult<Session>): (t: Step<bool>)
    ensures t.result <==> res.Ok?
    ensures res.Ok? ==> t.state.user == Some(res.data.user) && t.push == Some(ArticlesRoute)
    ensures !res.Ok? ==> t.state.error == Some(ErrorText(res, RegisterFailed)) && t.state.user == s.user && t.state.token == s.token
  {
    SignIn(s, res, RegisterFailed)
  }

  /** `login`. */
  function Login(s: State, res: ApiResult<Session>): (t: Step<bool>)
    ensures t.result <==> res.Ok?
    ensures res.Ok? ==> t.state.user == Some(res.data.user) && t.push == Some(ArticlesRoute)
    ensures !res.Ok? ==> t.state.error == Some(ErrorText(res, LoginFailed)) && t.state.user == s.user && t.state.token == s.token
  {
    SignIn(s, res, LoginFailed)
  }

  /** `logout`: the session is dropped everywhere and the login page opened. */
  function Logout(s: State): (t: Step<()>)
    ensures t.state.user.None? && t.state.token.None? && t.state.stored.None?
    ensures t.state.loading == s.loading && t.state.error == s.error
    ensures t.push == Some(LoginRoute)
  {
    Step(s.(user := None, token := None, stored := None), Some(LoginRoute), ())
  }

  /**
   `fetchCurrentUser`: without a token nothing happens and nothing is
   returned; otherwise the user is refreshed, or, if the request fails, the
   session is logged out. No error message is recorded either way.
   */
  function FetchCurrentUser(s: State, res: ApiResult<AS.PublicUser>): (t: Step<Option<bool>>)
    ensures (s.token.None? || s.token.value == "") ==> t == Step(s, None, None)
    ensures (s.token.Some? && s.token.value != "") ==> !t.state.loading && t.result == Some(res.Ok?)
    ensures (s.token.Some? && s.token.value != "" && res.Ok?) ==> t == Step(s.(user := Some(res.data), loading := false), None, Some(true))
    ensures (s.token.Some? && s.token.value != "" && !res.Ok?) ==> t.state == Logout(s).state.(loading := false) && t.push == Some(LoginRoute)
    ensures t.state.error == s.error
  {
    if s.token.None? || s.token.value == "" then Step(s, None, None)
    else
      match res
      case Ok(u) => Step(s.(user := Some(u), loading := false), None, Some(true))
      case _ =>
        var out := Logout(s);
        Step(out.state.(loading := false), out.push, Some(false))
  }

  // ---------------------------------------------------------------------
  // Properties
  // ---------------------------------------------------------------------

  /** A successful sign-in with a non-empty token authenticates, and the token survives a reload. */
  lemma SignInAuthenticates(s: State, session: Session, fallback: string)
    requires session.token != ""
    ensures var t := SignIn(s, ApiResult.Ok(session), fallback).state;
            IsAuthenticated(t) && Initial(t.stored).token == Some(session.token)
  {
  }

  /** A failed sign-in leaves the session exactly as it was. */
  lemma FailedSignInKeepsSession(s: State, res: ApiResult<Session>, fallback: string)
    requires !res.Ok?
    ensures var t := SignIn(s, res, fallback).state;
            IsAuthenticated(t) == IsAuthenticated(s) && t.stored == s.stored
  {
  }

  /** After a logout nobody is signed in, now or after a reload. */
  lemma LogoutIsFinal(s: State)
    ensures !IsAuthenticated(Logout(s).state)
    ensures Initial(Logout(s).state.stored).token.None?
  {
  }

  /**
   A reloaded page is not authenticated until the user is fetched; the
   fetch authenticates exactly when a non-empty token was stored and the
   request succeeds.
   */
  lemma ReloadThenFetch(stored: Option<string>, res: ApiResult<AS.PublicUser>)
    ensures !IsAuthenticated(Initial(stored))
    ensures (IsAuthenticated(FetchCurrentUser(Initial(stored), res).state))
              <==> stored.Some? && stored.value != "" && res.Ok?
  {
  }
}
