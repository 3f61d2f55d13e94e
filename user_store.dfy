/** The session store: the bearer token, the user profile, and the persisted
    `token` slot of local storage, with login, registration, profile refresh,
    recovery from a persisted token, and logout. The transport client's one
    effect on this state is included: any response with status 401 removes the
    persisted token (but not the in-memory one). */
module UserStore {
  import opened Api

  datatype Profile = Profile(id: string, username: string, email: string)

  /** The `{ token, user }` data of a successful login or registration. */
  datatype AuthPayload = AuthPayload(token: string, user: Profile)

  /** The store's state together with the persisted slot. */
  datatype SessionState = SessionState(token: Option<string>, user: Option<Profile>, persisted: Option<string>)

  const LoginFailed: string := "登录失败，请检查用户名和密码"
  const RegisterFailed: string := "注册失败，请稍后重试"

  /** Getter `isAuthenticated`: `!!token`, whatever `user` is. */
  predicate Authenticated(s: SessionState) {
    Truthy(s.token)
  }

  /** A user profile is only held together with a token. */
  predicate UserNeedsToken(s: SessionState) {
    s.user.Some? ==> s.token.Some?
  }

  /** The initial state: no user, and the persisted token if it is truthy. */
  function Initial(stored: Option<string>): SessionState {
    SessionState(if Truthy(stored) then stored else None, None, stored)
  }

  /** The transport client's reaction to a failed request. */
  function AfterTransportError(s: SessionState, f: Failure): SessionState {
    if Unauthorized(f) then s.(persisted := None) else s
  }

  function AfterLogout(s: SessionState): SessionState {
    SessionState(None, None, None)
  }

  /** `login` and `register`: adopt the response's token and user and persist
      the token. */
  function AfterAuth(s: SessionState, resp: Outcome<AuthPayload>): SessionState {
    match resp
    case Ok(p) => SessionState(Some(p.token), Some(p.user), Some(p.token))
    case Err(f) => AfterTransportError(s, f)
  }

  /** What `login` and `register` return: success, or the server's message and
      otherwise the fallback. */
  function AuthResult(resp: Outcome<AuthPayload>, fallback: string): ActionResult<()> {
    match resp
    case Ok(_) => Success(())
    case Err(f) => Failed(MessageOr(f, fallback))
  }

  /** `fetchUser`: adopt the profile; log out on a 401. */
  function AfterFetchUser(s: SessionState, resp: Outcome<Profile>): SessionState {
    match resp
    case Ok(u) => s.(user := Some(u))
    case Err(f) => if Unauthorized(f) then AfterLogout(AfterTransportError(s, f)) else AfterTransportError(s, f)
  }

  /** `initializeFromToken(t)`: set the token first, then adopt the profile; log
      out on a 401. */
  function AfterInit(s: SessionState, t: string, resp: Outcome<Profile>): SessionState {
    var s1 := s.(token := Some(t));
    match resp
    case Ok(u) => s1.(user := Some(u))
    case Err(f) => if Unauthorized(f) then AfterLogout(AfterTransportError(s1, f)) else AfterTransportError(s1, f)
  }

  /** The store starts without a user, authenticated exactly when a truthy token
      was persisted. */
  lemma InitialState(stored: Option<string>)
    ensures Initial(stored).user.None? && Initial(stored).persisted == stored
    ensures Authenticated(Initial(stored)) <==> Truthy(stored)
    ensures UserNeedsToken(Initial(stored))
  {
  }

  /** Logging out clears everything, cannot fail, and a second logout changes
      nothing. */
  lemma LogoutIdempotent(s: SessionState)
    ensures !Authenticated(AfterLogout(s)) && AfterLogout(s).user.None? && AfterLogout(s).persisted.None?
    ensures AfterLogout(AfterLogout(s)) == AfterLogout(s)
  {
  }

  /** A successful login or registration adopts exactly the response's token and
      user, persists the token, and authenticates when that token is truthy. */
  lemma AuthSuccess(s: SessionState, p: AuthPayload, fallback: string)
    ensures AfterAuth(s, Ok(p)) == SessionState(Some(p.token), Some(p.user), Some(p.token))
    ensures Authenticated(AfterAuth(s, Ok(p))) <==> p.token != ""
    ensures AuthResult(Ok(p), fallback) == Success(())
  {
  }

  /** A failed login or registration keeps the in-memory session; only a 401
      removes the persisted token. The message is the server's when it gives a
      non-empty one, and the fallback otherwise. */
  lemma AuthFailure(s: SessionState, f: Failure, fallback: string)
    ensures AfterAuth(s, Err(f)).token == s.token && AfterAuth(s, Err(f)).user == s.user
    ensures AfterAuth(s, Err(f)).persisted == if Unauthorized(f) then None else s.persisted
    ensures AuthResult(Err(f), fallback) == Failed(if Truthy(f.message) then f.message.value else fallback)
  {
  }

  /** `fetchUser` changes only the user on success, logs out on a 401, and
      leaves the store alone on any other failure. */
  lemma FetchUserOutcomes(s: SessionState, resp: Outcome<Profile>)
    ensures resp.Ok? ==> AfterFetchUser(s, resp) == s.(user := Some(resp.value))
    ensures resp.Err? && Unauthorized(resp.failure) ==> AfterFetchUser(s, resp) == AfterLogout(s)
    ensures resp.Err? && !Unauthorized(resp.failure) ==> AfterFetchUser(s, resp) == s
  {
  }

  /** `initializeFromToken(t)`: success holds `t` and the profile; a 401 leaves
      no token and no user; any other failure keeps `t` and the old user. */
  lemma InitOutcomes(s: SessionState, t: string, resp: Outcome<Profile>)
    ensures resp.Ok? ==> AfterInit(s, t, resp) == s.(token := Some(t), user := Some(resp.value))
    ensures resp.Err? && Unauthorized(resp.failure) ==>
      AfterInit(s, t, resp).token.None? && AfterInit(s, t, resp).user.None?
    ensures resp.Err? && !Unauthorized(resp.failure) ==> AfterInit(s, t, resp) == s.(token := Some(t))
  {
  }

  /** Every action but `fetchUser` keeps a user only alongside a token;
      `fetchUser` does too when a token is already held. */
  lemma UserNeedsTokenPreserved(s: SessionState, auth: Outcome<AuthPayload>, t: string, profile: Outcome<Profile>)
    requires UserNeedsToken(s)
    ensures UserNeedsToken(AfterAuth(s, auth))
    ensures UserNeedsToken(AfterInit(s, t, profile))
    ensures UserNeedsToken(AfterLogout(s))
    ensures s.token.Some? ==> UserNeedsToken(AfterFetchUser(s, profile))
  {
  }

  class Store {
    var token: Option<string>
    var user: Option<Profile>
    /** The `token` slot of local storage. */
    var persisted: Option<string>
    /** The requests this store has sent, oldest first. */
    ghost var requests: seq<Request>

    function State(): SessionState
      reads this
    {
      SessionState(token, user, persisted)
    }

    /** The initial `state()`, read from the persisted slot. */
    constructor (stored: Option<string>)
      ensures State() == Initial(stored) && requests == []
    {
      token := Initial(stored).token;
      user := None;
      persisted := stored;
      requests := [];
    }

    /** Getter `isAuthenticated`. */
    function IsAuthenticated(): (b: bool)
      reads this
      ensures b <==> Authenticated(State())
      ensures b ==> token.Some?
    {
      Truthy(token)
    }

    /** `login(credentials)` */
    method Login(resp: Outcome<AuthPayload>) returns (r: ActionResult<()>)
      modifies this
      ensures State() == AfterAuth(old(State()), resp)
      ensures r == AuthResult(resp, LoginFailed)
      ensures requests == old(requests) + [PostLogin]
    {
      requests := requests + [PostLogin];
      match resp {
        case Ok(p) =>
          token := Some(p.token);
          user := Some(p.user);
          persisted := Some(p.token);
          r := Success(());
        case Err(f) =>
          if Unauthorized(f) {
            persisted := None;
          }
          r := Failed(MessageOr(f, LoginFailed));
      }
    }

    /** `register(userData)` */
    method Register(resp: Outcome<AuthPayload>) returns (r: ActionResult<()>)
      modifies this
      ensures State() == AfterAuth(old(State()), resp)
      ensures r == AuthResult(resp, RegisterFailed)
      ensures requests == old(requests) + [PostRegister]
    {
      requests := requests + [PostRegister];
      match resp {
        case Ok(p) =>
          token := Some(p.token);
          user := Some(p.user);
          persisted := Some(p.token);
          r := Success(());
        case Err(f) =>
          if Unauthorized(f) {
            persisted := None;
          }
          r := Failed(MessageOr(f, RegisterFailed));
      }
    }

    /** `fetchUser()`: never throws; returns whether it succeeded. */
    method FetchUser(resp: Outcome<Profile>) returns (success: bool)
      modifies this
      ensures State() == AfterFetchUser(old(State()), resp)
      ensures success <==> resp.Ok?
      ensures requests == old(requests) + [GetProfile]
    {
      requests := requests + [GetProfile];
      match resp {
        case Ok(u) =>
          user := Some(u);
          success := true;
        case Err(f) =>
          if Unauthorized(f) {
            persisted := None;
            Logout();
          }
          success := false;
      }
    }

    /** `initializeFromToken(t)`: returns the error it re-throws, if any. */
    method InitializeFromToken(t: string, resp: Outcome<Profile>) returns (err: Option<Failure>)
      modifies this
      ensures State() == AfterInit(old(State()), t, resp)
      ensures err == resp.Thrown()
      ensures requests == old(requests) + [GetProfile]
    {
      token := Some(t);
      requests := requests + [GetProfile];
      match resp {
        case Ok(u) =>
          user := Some(u);
          err := None;
        case Err(f) =>
          if Unauthorized(f) {
            persisted := None;
            Logout();
          }
          err := Some(f);
      }
    }

    /** `logout()` */
    method Logout()
      modifies this`token, this`user, this`persisted
      ensures State() == AfterLogout(old(State()))
    {
      user := None;
      token := None;
      persisted := None;
    }
  }
}
