/** The auth router (server/routes/authRoutes.js): which JSON endpoints pass
    through the session gate, and the Google callback that turns a resolved
    identity into a token pair and a browser redirect. Paths are relative to
    `/api`, where the router is mounted at `/auth` (server/index.js). */
module AuthRoutes {
  import opened Common
  import opened Text
  import opened Users
  import opened Tokens
  import opened Http
  import opened Server
  import AuthController
  import AuthMiddleware
  import Passport

  datatype Endpoint = RegisterEp | LoginEp | LogoutEp | LogoutAllEp | RefreshTokenEp | MeEp

  datatype Route = Route(verb: Verb, path: string, endpoint: Endpoint, guarded: bool)

  /** Lines 21-26: `guarded` marks the routes registered with `protect`. */
  const ROUTES: seq<Route> := [
    Route(Post, "/auth/register", RegisterEp, false),
    Route(Post, "/auth/login", LoginEp, false),
    Route(Post, "/auth/logout", LogoutEp, false),
    Route(Post, "/auth/logout-all", LogoutAllEp, true),
    Route(Post, "/auth/refresh-token", RefreshTokenEp, false),
    Route(Get, "/auth/me", MeEp, true)
  ]

  /** Express's default matching of a request path against a route path:
      letters compared without regard to case, and one trailing `/`
      allowed (the router is neither case-sensitive nor strict). */
  predicate PathMatches(path: string, pattern: string) {
    && (|path| == |pattern| || (|path| == |pattern| + 1 && path[|pattern|] == '/'))
    && forall i :: 0 <= i < |pattern| ==> AsciiUpper(path[i]) == AsciiUpper(pattern[i])
  }

  /** The first registered JSON route that the verb and path reach. */
  function Lookup(verb: Verb, path: string): (r: Option<Route>)
    ensures r.Some? ==> r.value in ROUTES && r.value.verb == verb && PathMatches(path, r.value.path)
    ensures r.None? <==> forall x :: x in ROUTES ==> !(x.verb == verb && PathMatches(path, x.path))
  {
    match Find(ROUTES, (x: Route) => x.verb == verb && PathMatches(path, x.path))
    case None => None
    case Some(i) => Some(ROUTES[i])
  }

  /** No path reaches two routes of one verb. */
  lemma MatchesDetermineRoute(path: string, x: Route, y: Route)
    requires x in ROUTES && y in ROUTES && x.verb == y.verb
    requires PathMatches(path, x.path) && PathMatches(path, y.path)
    ensures x == y
  {
  }

  /** A request reaches the route its path matches, whatever the order of
      the table. */
  lemma LookupFindsMatch(x: Route, path: string)
    requires x in ROUTES && PathMatches(path, x.path)
    ensures Lookup(x.verb, path) == Some(x)
  {
    var r := Lookup(x.verb, path);
    MatchesDetermineRoute(path, x, r.value);
  }

  /** A route is reached by its own path in any letter case, and with a
      trailing slash. */
  lemma LookupIgnoresCaseAndSlash(x: Route, path: string)
    requires x in ROUTES
    requires |path| == |x.path| && forall i :: 0 <= i < |path| ==> AsciiUpper(path[i]) == AsciiUpper(x.path[i])
    ensures Lookup(x.verb, path) == Some(x)
    ensures Lookup(x.verb, path + "/") == Some(x)
  {
    LookupFindsMatch(x, path);
    assert PathMatches(path + "/", x.path) by {
      forall i | 0 <= i < |x.path| ensures AsciiUpper((path + "/")[i]) == AsciiUpper(x.path[i]) {
        assert (path + "/")[i] == path[i];
      }
    }
    LookupFindsMatch(x, path + "/");
  }

  /** `GET /google` and `GET /google/callback` (lines 29-61): browser
      redirects served by `GoogleSignIn`, not JSON requests. */
  const FEDERATED_PATHS: seq<string> := ["/auth/google", "/auth/google/callback"]

  predicate Federated(verb: Verb, path: string) {
    verb == Get && exists p :: p in FEDERATED_PATHS && PathMatches(path, p)
  }

  /** The user value the handlers of unguarded routes are called with; they
      never read it. */
  const NO_USER := SafeUser(0, "", "", None, Local, 0)

  /** Exactly `/logout-all` and `/me` are guarded. */
  lemma GuardedRoutes()
    ensures forall x :: x in ROUTES ==> (x.guarded <==> x.endpoint in {LogoutAllEp, MeEp})
    ensures forall x, y :: x in ROUTES && y in ROUTES && x.verb == y.verb && x.path == y.path ==> x == y
  {
  }

  const MSG_ROUTE_NOT_FOUND := "Route not found"

  /** The handler behind an endpoint; `user` is the one the gate attached
      (only guarded endpoints read it). */
  function Handle(db: Db, env: Env, nowMs: nat, salt: string, endpoint: Endpoint, payload: Payload,
                  user: SafeUser, storeDown: bool): Step {
    match endpoint
    case RegisterEp => AuthController.Register(db, env, nowMs, salt, payload, storeDown)
    case LoginEp => AuthController.Login(db, env, nowMs, payload, storeDown)
    case LogoutEp => AuthController.Logout(db, payload.refreshToken, storeDown)
    case LogoutAllEp => AuthController.LogoutAll(db, user, storeDown)
    case RefreshTokenEp => AuthController.RefreshAccessToken(db, env, nowMs, payload.refreshToken, storeDown)
    case MeEp => Step(db, AuthController.GetMe(user))
  }

  /** A JSON request to the auth router: route lookup, the gate on guarded
      routes, then the handler; unknown routes reach the 404 handler of
      server/index.js. The two federated paths are browser navigations
      whose answer depends on the identity provider; they are served by
      `GoogleSignIn`, and this function states nothing about them. */
  function Dispatch(db: Db, env: Env, nowMs: nat, salt: string, req: Request, storeDown: bool): (r: Step)
    ensures Lookup(req.verb, req.path).None? && !Federated(req.verb, req.path) ==>
              r == Step(db, Fail(404, MSG_ROUTE_NOT_FOUND))
    ensures Lookup(req.verb, req.path).Some? && !Lookup(req.verb, req.path).value.guarded ==>
              r == Handle(db, env, nowMs, salt, Lookup(req.verb, req.path).value.endpoint,
                          req.payload, NO_USER, storeDown)
    ensures Lookup(req.verb, req.path).Some? && Lookup(req.verb, req.path).value.guarded ==>
              match AuthMiddleware.Protect(db, env.jwt, nowMs, req.authorization, storeDown)
              case Halt(resp) => r == Step(db, resp)
              case Next(u) => r == Handle(db, env, nowMs, salt, Lookup(req.verb, req.path).value.endpoint,
                                          req.payload, u, storeDown)
  {
    match Lookup(req.verb, req.path)
    case None => Step(db, Fail(404, MSG_ROUTE_NOT_FOUND))
    case Some(route) =>
      if route.guarded then
        match AuthMiddleware.Protect(db, env.jwt, nowMs, req.authorization, storeDown)
        case Halt(resp) => Step(db, resp)
        case Next(u) => Handle(db, env, nowMs, salt, route.endpoint, req.payload, u, storeDown)
      else
        Handle(db, env, nowMs, salt, route.endpoint, req.payload, NO_USER, storeDown)
  }

  /** Unguarded endpoints ignore the `Authorization` header entirely. */
  lemma UnguardedIgnoresHeader(db: Db, env: Env, nowMs: nat, salt: string, req: Request,
                               header: Option<string>, storeDown: bool)
    requires Lookup(req.verb, req.path).Some? && !Lookup(req.verb, req.path).value.guarded
    ensures Dispatch(db, env, nowMs, salt, req, storeDown)
         == Dispatch(db, env, nowMs, salt, req.(authorization := header), storeDown)
  {
  }

  /** A browser redirect target: a path and its query parameters, in order. */
  datatype Location = Location(path: string, query: seq<(string, string)>)

  /** The outcome of `GET /auth/google/callback`: a redirect, or the JSON
      answer of the application's error handler when the strategy failed
      with an error (server/index.js). */
  datatype CallbackReply = Redirect(location: Location) | ErrorReply(status: nat)

  /** What `passport.authenticate` produced: the provider refused, the
      verify callback failed with an error, or it yielded a user. */
  datatype Attempt = Denied | Failed | SignedIn(user: User)

  function LoginPage(env: Env, error: string): Location {
    Location(env.clientUrl + "/login", [("error", error)])
  }

  /** Lines 37-60. `storeDown` makes storing the refresh row throw. */
  function GoogleCallback(db: Db, env: Env, nowMs: nat, attempt: Attempt, storeDown: bool): (r: (Db, CallbackReply))
    ensures attempt.Denied? ==> r == (db, Redirect(LoginPage(env, "auth_failed")))
    ensures attempt.Failed? ==> r == (db, ErrorReply(500))
    ensures attempt.SignedIn? && storeDown ==> r == (db, Redirect(LoginPage(env, "server_error")))
    ensures attempt.SignedIn? && !storeDown ==>
              var id := attempt.user.id;
              var access := GenerateAccessToken(env.jwt, id, nowMs);
              var refresh := GenerateRefreshToken(env.jwt, env.cfg, id, nowMs);
              && r.0 == db.(tokens := StoreRefreshToken(db.tokens, id, refresh, nowMs))
              && r.1 == Redirect(Location(env.clientUrl + "/auth/callback",
                                          [("accessToken", access), ("refreshToken", refresh)]))
  {
    match attempt
    case Denied => (db, Redirect(LoginPage(env, "auth_failed")))
    case Failed => (db, ErrorReply(500))
    case SignedIn(u) =>
      var access := GenerateAccessToken(env.jwt, u.id, nowMs);
      var refresh := GenerateRefreshToken(env.jwt, env.cfg, u.id, nowMs);
      if storeDown then (db, Redirect(LoginPage(env, "server_error")))
      else
        (db.(tokens := StoreRefreshToken(db.tokens, u.id, refresh, nowMs)),
         Redirect(Location(env.clientUrl + "/auth/callback", [("accessToken", access), ("refreshToken", refresh)])))
  }

  /** The whole federated sign-in: the provider answers with a profile or a
      refusal, the verify callback resolves it, the callback issues tokens.
      `resolveDown` and `issueDown` say whether the store fails during the
      resolution and during the token issuance. */
  function GoogleSignIn(db: Db, env: Env, nowMs: nat, profile: Option<Passport.Profile>,
                        resolveDown: bool, issueDown: bool): (r: (Db, CallbackReply))
  {
    match profile
    case None => GoogleCallback(db, env, nowMs, Denied, issueDown)
    case Some(p) =>
      var res := Passport.ResolveGoogleUser(db, nowMs, p, resolveDown);
      match res.done
      case StrategyError => GoogleCallback(res.db, env, nowMs, Failed, issueDown)
      case Authenticated(u) => GoogleCallback(res.db, env, nowMs, SignedIn(u), issueDown)
  }
}
