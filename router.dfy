/** The route table's authentication flags and the global `beforeEach` guard,
    which reads the session store and the persisted token and, when needed,
    recovers the session from that token before deciding. */
module Router {
  import opened Api
  import opened UserStore

  /** The named routes, and a path no route matches (its `meta` is empty). The
      `home` route only redirects to `folders`, which the router does before any
      guard runs. */
  datatype Route = Login | Register | ForgotPassword | ResetPassword | Folders | FolderDetail | Unmatched

  /** `to.meta.requiresAuth`, read as a truth value. */
  function RequiresAuth(r: Route): bool {
    match r
    case Login => false
    case Register => false
    case ForgotPassword => false
    case ResetPassword => false
    case Folders => true
    case FolderDetail => true
    case Unmatched => false
  }

  /** `next()`, `next({ name: 'folders' })` or `next({ name: 'login' })`. */
  datatype Decision = Allow | RedirectFolders | RedirectLogin

  /** Where a redirect leads. */
  function Target(d: Decision): Route
    requires d != Allow
  {
    if d == RedirectFolders then Folders else Login
  }

  /** Exactly the two folder views need authentication. */
  lemma RouteTable(r: Route)
    ensures RequiresAuth(r) <==> r == Folders || r == FolderDetail
    ensures !RequiresAuth(Target(RedirectLogin)) && RequiresAuth(Target(RedirectFolders))
  {
  }

  /** Whether the guard calls `initializeFromToken`: a protected route, no
      authentication, a truthy persisted token, and no user. */
  predicate CallsInit(to: Route, s: SessionState) {
    RequiresAuth(to) && !Authenticated(s) && Truthy(s.persisted) && s.user.None?
  }

  datatype GuardResult = GuardResult(decision: Decision, state: SessionState)

  /** The decision of `beforeEach` and the session it leaves behind; `init` is
      the outcome of the profile request `initializeFromToken` would send.
      On a route that does not need authentication the guard sends an
      authenticated session to `folders`, lets anyone else through, and changes
      nothing. On a protected route an authenticated session passes untouched;
      a recovery from the persisted token passes exactly when the profile
      request succeeds, and otherwise leads to `login`, logged out after a 401
      and with the token kept after any other failure; with no persisted token,
      or with a user already held, the guard leads to `login` unchanged. */
  function Guard(to: Route, s: SessionState, init: Outcome<Profile>): (g: GuardResult)
    ensures !RequiresAuth(to) ==>
      && !CallsInit(to, s)
      && g == GuardResult(if Authenticated(s) then RedirectFolders else Allow, s)
    ensures RequiresAuth(to) && Authenticated(s) ==> g == GuardResult(Allow, s)
    ensures CallsInit(to, s) ==>
      && (g.decision == Allow <==> init.Ok?)
      && (g.decision != Allow ==> g.decision == RedirectLogin)
      && (init.Ok? ==> Authenticated(g.state) && g.state.user == Some(init.value))
      && (init.Err? && Unauthorized(init.failure) ==> g.state == SessionState(None, None, None))
      && (init.Err? && !Unauthorized(init.failure) ==> g.state == s.(token := s.persisted))
    ensures RequiresAuth(to) && !Authenticated(s) && !CallsInit(to, s) ==> g == GuardResult(RedirectLogin, s)
  {
    if !RequiresAuth(to) then
      GuardResult(if Authenticated(s) then RedirectFolders else Allow, s)
    else if Authenticated(s) then
      GuardResult(Allow, s)
    else if Truthy(s.persisted) && s.user.None? then
      var s1 := AfterInit(s, s.persisted.value, init);
      match init
      case Ok(_) => GuardResult(Allow, s1)
      case Err(f) => GuardResult(RedirectLogin, if Unauthorized(f) then AfterLogout(s1) else s1)
    else
      GuardResult(RedirectLogin, s)
  }

  /** Redirects settle: following the guard's redirects reaches `Allow` within
      two further runs, and those runs send no request, whatever outcome a
      request would have had. */
  lemma GuardSettles(to: Route, s: SessionState, init1: Outcome<Profile>,
                     init2: Outcome<Profile>, init3: Outcome<Profile>)
    ensures var g1 := Guard(to, s, init1);
            g1.decision == Allow ||
            (var g2 := Guard(Target(g1.decision), g1.state, init2);
             && !CallsInit(Target(g1.decision), g1.state)
             && (g2.decision == Allow ||
                 (var g3 := Guard(Target(g2.decision), g2.state, init3);
                  && !CallsInit(Target(g2.decision), g2.state)
                  && g3.decision == Allow)))
  {
    // The longest chain: a recovery that fails for a reason other than 401
    // keeps the token, so `login` redirects once more, to `folders`.
  }

  /** `router.beforeEach`: the persisted token is read first; recovery and
      logout act on the session store. */
  method BeforeEach(session: UserStore.Store, to: Route, init: Outcome<Profile>) returns (d: Decision)
    modifies session
    ensures GuardResult(d, session.State()) == Guard(to, old(session.State()), init)
    ensures session.requests == old(session.requests) + (if CallsInit(to, old(session.State())) then [GetProfile] else [])
  {
    var stored := session.persisted;
    if !RequiresAuth(to) {
      d := if session.IsAuthenticated() then RedirectFolders else Allow;
      return;
    }
    if session.IsAuthenticated() {
      return Allow;
    }
    if Truthy(stored) && session.user.None? {
      var err := session.InitializeFromToken(stored.value, init);
      if err.None? {
        return Allow;
      }
      if Unauthorized(err.value) {
        session.Logout();
      }
    }
    d := RedirectLogin;
  }
}
