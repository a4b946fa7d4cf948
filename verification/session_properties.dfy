/** The browser and the server together: the browser's view of the server
    is the auth router at a fixed instant, and the lemmas follow a token
    from the server that minted it, through the browser's store, back to
    the session gate. */
module SessionProperties {
  import opened Common
  import opened Users
  import opened Tokens
  import opened Http
  import opened Server
  import AuthController
  import AuthMiddleware
  import AuthRoutes
  import opened TokenManager
  import opened ApiClient
  import opened AuthStore
  import ServerProperties

  /** The server as the browser sees it: every request reaches the auth
      router, which answers without a store failure. Requests within one
      exchange see the same tables. */
  function ServerView(db: Db, env: Env, nowMs: nat, salt: string): (server: ApiClient.Server)
    ensures forall req :: server(req) == Some(AuthRoutes.Dispatch(db, env, nowMs, salt, req, false).response)
  {
    req => Some(AuthRoutes.Dispatch(db, env, nowMs, salt, req, false).response)
  }

  /** The request interceptor hands a signed access token to the gate
      unchanged: what the gate extracts is what the store holds. */
  lemma StoredTokenReachesGate(jwt: Jwt, tokens: TokenStore, req: Request, c: Claims)
    requires Tokens.Sound(jwt)
    requires GetAccessToken(tokens) == Some(jwt.encode(c))
    ensures AuthMiddleware.BearerToken(AttachBearer(tokens, req).authorization) == GetAccessToken(tokens)
  {
    AuthMiddleware.BearerRoundTrip(jwt.encode(c));
  }

  /** `POST /auth/login` is the unguarded login handler. */
  lemma LoginRoute(db: Db, env: Env, nowMs: nat, salt: string, authorization: Option<string>, credentials: Payload)
    ensures AuthRoutes.Dispatch(db, env, nowMs, salt, Request(Post, "/auth/login", authorization, credentials), false)
         == AuthController.Login(db, env, nowMs, credentials, false)
  {
    assert AuthRoutes.Lookup(Post, "/auth/login") == Some(AuthRoutes.ROUTES[1]);
  }

  /** `POST /auth/refresh-token` is the unguarded renewal handler. */
  lemma RefreshRoute(db: Db, env: Env, nowMs: nat, salt: string, refreshToken: string)
    ensures AuthRoutes.Dispatch(db, env, nowMs, salt, RefreshRequest(refreshToken), false)
         == AuthController.RefreshAccessToken(db, env, nowMs, Some(refreshToken), false)
  {
    assert AuthRoutes.Lookup(Post, REFRESH_PATH) == Some(AuthRoutes.ROUTES[4]);
  }

  /** What the login handler refuses with 401: unknown email, wrong
      password, or a Google-only account. */
  predicate Refused(db: Db, env: Env, nowMs: nat, credentials: Payload) {
    AuthController.Login(db, env, nowMs, credentials, false).response.status == 401
  }

  /** The renewal the browser would attempt with what it holds fails. */
  predicate RenewalFails(db: Db, env: Env, nowMs: nat, tokens: TokenStore) {
    !Truthy(GetRefreshToken(tokens))
    || AuthController.RefreshAccessToken(db, env, nowMs, GetRefreshToken(tokens), false).response.status != 200
  }

  /** The refresh handler's refusals, none of which is a login message. */
  lemma RenewalRefusalMessage(db: Db, env: Env, nowMs: nat, refreshToken: string)
    requires refreshToken != ""
    requires AuthController.RefreshAccessToken(db, env, nowMs, Some(refreshToken), false).response.status != 200
    ensures var resp := AuthController.RefreshAccessToken(db, env, nowMs, Some(refreshToken), false).response;
            && resp.status == 401 && resp.body == NoData && resp.message.Some?
            && resp.message.value in {AuthController.MSG_TOKEN_INVALID, AuthController.MSG_TOKEN_NOT_FOUND,
                                      AuthController.MSG_TOKEN_EXPIRED}
  {
  }

  /** The client-side half of a refused login under `AsWritten`: the
      exchange ends in an expired session. */
  lemma RefusedLoginExpires(db: Db, env: Env, nowMs: nat, salt: string, tokens: TokenStore, credentials: Payload)
    requires Refused(db, env, nowMs, credentials)
    requires RenewalFails(db, env, nowMs, tokens)
    ensures var x := Perform(tokens, LoginRequest(credentials), ServerView(db, env, nowMs, salt), AsWritten);
            && x.tokens == ClearTokens(tokens) && x.events == EXPIRED_EVENTS && x.outcome.Rejected?
            && ErrorMessage(x.outcome.error, MSG_LOGIN_FAILED)
               in {MSG_LOGIN_FAILED, AuthController.MSG_TOKEN_INVALID,
                   AuthController.MSG_TOKEN_NOT_FOUND, AuthController.MSG_TOKEN_EXPIRED}
  {
    var server := ServerView(db, env, nowMs, salt);
    var sent := AttachBearer(tokens, LoginRequest(credentials));
    LoginRoute(db, env, nowMs, salt, sent.authorization, credentials);
    assert StartsRenewal(AsWritten, sent, server(sent));
    var refresh := GetRefreshToken(tokens);
    if Truthy(refresh) {
      RefreshRoute(db, env, nowMs, salt, refresh.value);
      RenewalRefusalMessage(db, env, nowMs, refresh.value);
      var answer := server(RefreshRequest(refresh.value));
      assert !AcceptsRenewal(answer) && !IsOk(answer.value.status);
    }
  }

  /** The login handler refuses only with its two credential messages. */
  lemma RefusalMessage(db: Db, env: Env, nowMs: nat, credentials: Payload)
    requires Refused(db, env, nowMs, credentials)
    ensures var refusal := AuthController.Login(db, env, nowMs, credentials, false).response;
            && refusal.message.Some? && refusal.body == NoData
            && refusal.message.value in {AuthController.MSG_INVALID_CREDENTIALS, AuthController.MSG_USE_GOOGLE}
  {
  }

  /** As written, a refused login is treated as an expired session when the
      browser cannot renew: the stored tokens are wiped, the user is told the
      session expired and sent to the login page, and the server's reason
      ("Invalid credentials", "Please login with Google") never reaches the
      form; the form shows "Login failed" or the refresh endpoint's
      message instead. */
  lemma LoginMasksRefusal(db: Db, env: Env, nowMs: nat, salt: string, b: Browser, credentials: Payload)
    requires Refused(db, env, nowMs, credentials)
    requires RenewalFails(db, env, nowMs, b.tokens)
    ensures var e := AuthStore.Login(b, credentials, ServerView(db, env, nowMs, salt), AsWritten);
            var refusal := AuthController.Login(db, env, nowMs, credentials, false).response;
            && e.reply.FailedWith?
            && refusal.message.Some? && e.reply.message != refusal.message.value
            && GetAccessToken(e.browser.tokens).None? && GetRefreshToken(e.browser.tokens).None?
            && e.events == EXPIRED_EVENTS + [Toast(true, e.reply.message)]
  {
    RefusedLoginExpires(db, env, nowMs, salt, b.tokens, credentials);
    RefusalMessage(db, env, nowMs, credentials);
  }

  /** The client-side half of a refused login under `Corrected`: one call,
      rejected with the server's answer. */
  lemma RefusedLoginRejects(db: Db, env: Env, nowMs: nat, salt: string, tokens: TokenStore, credentials: Payload)
    requires Refused(db, env, nowMs, credentials)
    ensures var x := Perform(tokens, LoginRequest(credentials), ServerView(db, env, nowMs, salt), Corrected);
            x == Exchange(tokens, Rejected(WithResponse(AuthController.Login(db, env, nowMs, credentials, false).response)),
                          [Call(Original, AttachBearer(tokens, LoginRequest(credentials)))], [])
  {
    var sent := AttachBearer(tokens, LoginRequest(credentials));
    LoginRoute(db, env, nowMs, salt, sent.authorization, credentials);
    assert !StartsRenewal(Corrected, sent, ServerView(db, env, nowMs, salt)(sent));
  }

  /** Corrected, the credential endpoints are exempt from renewal: a refused
      login leaves the tokens alone, makes one call, and the form shows the
      server's own reason. */
  lemma LoginReportsRefusal(db: Db, env: Env, nowMs: nat, salt: string, b: Browser, credentials: Payload)
    requires Refused(db, env, nowMs, credentials)
    ensures var e := AuthStore.Login(b, credentials, ServerView(db, env, nowMs, salt), Corrected);
            var refusal := AuthController.Login(db, env, nowMs, credentials, false).response;
            && refusal.message.Some?
            && e.reply == FailedWith(refusal.message.value)
            && e.browser.tokens == b.tokens
            && e.calls == [Call(Original, AttachBearer(b.tokens, LoginRequest(credentials)))]
            && e.events == [Toast(true, refusal.message.value)]
  {
    RefusedLoginRejects(db, env, nowMs, salt, b.tokens, credentials);
    RefusalMessage(db, env, nowMs, credentials);
  }

  /** The correction changes nothing for any other endpoint. */
  lemma PoliciesAgreeElsewhere(tokens: TokenStore, req: Request, server: ApiClient.Server)
    requires !IsCredentialEndpoint(req.path)
    ensures Perform(tokens, req, server, AsWritten) == Perform(tokens, req, server, Corrected)
  {
    var sent := AttachBearer(tokens, req);
    assert StartsRenewal(AsWritten, sent, server(sent)) == StartsRenewal(Corrected, sent, server(sent));
  }

  /** A successful login (under either policy) stores the pair the server
      minted, and the stored access token opens the gate as the logged-in
      account. */
  lemma LoginThenGate(db: Db, env: Env, nowMs: nat, salt: string, b: Browser, credentials: Payload,
                      policy: Policy, later: nat)
    requires Valid(db) && Tokens.Sound(env.jwt)
    requires AuthController.Login(db, env, nowMs, credentials, false).response.status == 200
    requires nowMs <= later <= nowMs + (ACCESS_LIFETIME_SECS - 1) * 1000
    ensures var e := AuthStore.Login(b, credentials, ServerView(db, env, nowMs, salt), policy);
            var step := AuthController.Login(db, env, nowMs, credentials, false);
            var u := FindByEmail(db.users, credentials.email.value).value;
            && e.reply == Succeeded
            && GetAccessToken(e.browser.tokens) == Some(step.response.body.accessToken)
            && GetRefreshToken(e.browser.tokens) == Some(step.response.body.refreshToken)
            && e.browser.state == AuthState(Some(Viewed(View(u))), true, false)
            && AuthMiddleware.Protect(step.db, env.jwt, later,
                                      AttachBearer(e.browser.tokens, ME_REQUEST).authorization, false)
               == AuthMiddleware.Next(Safe(u))
  {
    var server := ServerView(db, env, nowMs, salt);
    var sent := AttachBearer(b.tokens, LoginRequest(credentials));
    LoginRoute(db, env, nowMs, salt, sent.authorization, credentials);
    var step := AuthController.Login(db, env, nowMs, credentials, false);
    var u := FindByEmail(db.users, credentials.email.value).value;
    assert server(sent) == Some(step.response);
    assert step.response.body.accessToken == GenerateAccessToken(env.jwt, u.id, nowMs);
    assert GenerateAccessToken(env.jwt, u.id, nowMs)
        == env.jwt.encode(Claims(u.id, Seconds(nowMs), Seconds(nowMs) + ACCESS_LIFETIME_SECS));
    assert Valid(step.db);
    ServerProperties.GateOpensForOwnAccessToken(step.db, env, u, nowMs, later);
  }

  /** The redirect after a Google sign-in carries the pair the callback
      minted, under the names the callback page reads. */
  lemma CallbackCarriesPair(db: Db, env: Env, nowMs: nat, u: User)
    ensures var reply := AuthRoutes.GoogleCallback(db, env, nowMs, AuthRoutes.SignedIn(u), false).1;
            && reply.Redirect?
            && QueryParam(reply.location.query, "accessToken") == Some(GenerateAccessToken(env.jwt, u.id, nowMs))
            && QueryParam(reply.location.query, "refreshToken")
               == Some(GenerateRefreshToken(env.jwt, env.cfg, u.id, nowMs))
  {
    var query := AuthRoutes.GoogleCallback(db, env, nowMs, AuthRoutes.SignedIn(u), false).1.location.query;
    assert query[0].0 == "accessToken";
    assert query[0].0 != "refreshToken" && query[1].0 == "refreshToken";
  }

  /** With a live access token of a stored account, loading the user asks
      the server once and ends authenticated as that account, tokens
      untouched. */
  lemma LoadUserWithLiveToken(db: Db, env: Env, salt: string, b: Browser, u: User, issuedMs: nat,
                              nowMs: nat, policy: Policy)
    requires Valid(db) && u in db.users && Tokens.Sound(env.jwt)
    requires GetAccessToken(b.tokens) == Some(GenerateAccessToken(env.jwt, u.id, issuedMs))
    requires issuedMs <= nowMs <= issuedMs + (ACCESS_LIFETIME_SECS - 1) * 1000
    ensures var e := LoadUser(b, env.jwt, nowMs, ServerView(db, env, nowMs, salt), policy);
            && e.browser.tokens == b.tokens
            && e.browser.state == b.state.(user := Some(Full(Safe(u))), isAuthenticated := true)
            && e.calls == [Call(Original, AttachBearer(b.tokens, ME_REQUEST))]
            && e.events == []
  {
    var access := GenerateAccessToken(env.jwt, u.id, issuedMs);
    var c := Claims(u.id, Seconds(issuedMs), Seconds(issuedMs) + ACCESS_LIFETIME_SECS);
    assert access == env.jwt.encode(c);
    assert env.jwt.decode(access) == Some(c);
    assert !IsTokenExpired(env.jwt, GetAccessToken(b.tokens), nowMs);
    var server := ServerView(db, env, nowMs, salt);
    var sent := AttachBearer(b.tokens, ME_REQUEST);
    ServerProperties.GateOpensForOwnAccessToken(db, env, u, issuedMs, nowMs);
    ServerProperties.MeAnswersGatedUser(db, env, nowMs, salt, sent.authorization, Safe(u));
    assert server(sent) == Some(AuthController.GetMe(Safe(u)));
  }

  /** The Google sign-in lands in the browser intact: the redirect the
      callback sends carries the pair it stored, the callback page stores
      exactly that pair, and while the access token is live the profile
      request returns the signed-in account, so the store ends
      authenticated as that account. */
  lemma GoogleSignInReachesStore(db: Db, env: Env, nowMs: nat, u: User, b: Browser, salt: string,
                                 policy: Policy, later: nat)
    requires Valid(db) && u in db.users && Tokens.Sound(env.jwt)
    requires nowMs <= later <= nowMs + (ACCESS_LIFETIME_SECS - 1) * 1000
    ensures var (db1, reply) := AuthRoutes.GoogleCallback(db, env, nowMs, AuthRoutes.SignedIn(u), false);
            && reply.Redirect?
            && var e := CallbackPage(b, reply.location.query, env.jwt, later, ServerView(db1, env, later, salt), policy);
               && GetAccessToken(e.browser.tokens) == Some(GenerateAccessToken(env.jwt, u.id, nowMs))
               && GetRefreshToken(e.browser.tokens) == Some(GenerateRefreshToken(env.jwt, env.cfg, u.id, nowMs))
               && e.browser.state == b.state.(user := Some(Full(Safe(u))), isAuthenticated := true)
               && e.events == [Toast(false, MSG_LOGGED_IN), Navigate("/ai")]
  {
    var (db1, reply) := AuthRoutes.GoogleCallback(db, env, nowMs, AuthRoutes.SignedIn(u), false);
    var access := GenerateAccessToken(env.jwt, u.id, nowMs);
    var refresh := GenerateRefreshToken(env.jwt, env.cfg, u.id, nowMs);
    assert access == env.jwt.encode(Claims(u.id, Seconds(nowMs), Seconds(nowMs) + ACCESS_LIFETIME_SECS));
    assert refresh == env.jwt.encode(Claims(u.id, Seconds(nowMs), Seconds(nowMs) + RefreshLifetime(env.cfg)));
    CallbackCarriesPair(db, env, nowMs, u);
    assert Valid(db1) && u in db1.users by {
      assert db1.users == db.users && db1.nextId == db.nextId;
    }
    var stored := b.(tokens := SetTokens(b.tokens, access, refresh));
    LoadUserWithLiveToken(db1, env, salt, stored, u, nowMs, later, policy);
  }
}
