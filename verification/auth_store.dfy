/** The browser's session store (client/src/store/authStore.js): the
    `{user, isAuthenticated, isLoading}` state, its persisted slice, and the
    actions that drive the client and the token storage. Each action is a
    transition of the whole browser state, with the requests it sent and the
    side effects it produced. */
module AuthStore {
  import opened Common
  import opened Tokens
  import opened Http
  import opened TokenManager
  import opened ApiClient

  const MSG_REGISTERED := "Registration successful!"
  const MSG_REGISTER_FAILED := "Registration failed"
  const MSG_LOGGED_IN := "Login successful!"
  const MSG_LOGIN_FAILED := "Login failed"
  const MSG_LOGGED_OUT := "Logged out successfully"
  const MSG_LOGGED_OUT_ALL := "Logged out from all devices"

  /** The cached user: the view returned by register/login, or the row
      returned by `/auth/me`. */
  datatype Account = Viewed(view: UserView) | Full(safe: SafeUser)

  datatype AuthState = AuthState(user: Option<Account>, isAuthenticated: bool, isLoading: bool)

  const INITIAL := AuthState(None, false, false)

  /** The `auth-storage` entry: by construction it has no room for a token. */
  datatype Persisted = Persisted(user: Option<Account>, isAuthenticated: bool)

  /** Lines 107-110. */
  function Partialize(s: AuthState): (p: Persisted)
    ensures p.user == s.user && p.isAuthenticated == s.isAuthenticated
  {
    Persisted(s.user, s.isAuthenticated)
  }

  /** Start-up: the persisted slice is merged over the initial state. */
  function Rehydrate(p: Option<Persisted>): (s: AuthState)
    ensures p.None? ==> s == INITIAL
    ensures p.Some? ==> Partialize(s) == p.value && !s.isLoading
  {
    match p
    case None => INITIAL
    case Some(q) => AuthState(q.user, q.isAuthenticated, false)
  }

  /** What survives a reload is exactly the persisted slice: tokens live in
      their own storage and `isLoading` restarts as false. */
  lemma ReloadRestoresSlice(s: AuthState, t: AuthState)
    ensures Rehydrate(Some(Partialize(s))) == Rehydrate(Some(Partialize(t)))
        <==> s.user == t.user && s.isAuthenticated == t.isAuthenticated
  {
    if Rehydrate(Some(Partialize(s))) == Rehydrate(Some(Partialize(t))) {
      assert Partialize(s) == Partialize(Rehydrate(Some(Partialize(s))));
      assert Partialize(t) == Partialize(Rehydrate(Some(Partialize(t))));
    }
  }

  datatype Browser = Browser(tokens: TokenStore, state: AuthState, persisted: Option<Persisted>)

  /** The persistence middleware's invariant: whatever is stored is the
      slice of the current state. */
  predicate Synced(b: Browser) {
    b.persisted.Some? ==> b.persisted.value == Partialize(b.state)
  }

  /** `set(...)`: the new state, written through to storage. */
  function Commit(b: Browser, s: AuthState): (c: Browser)
    ensures Synced(c) && c.state == s && c.tokens == b.tokens
  {
    Browser(b.tokens, s, Some(Partialize(s)))
  }

  /** What an action returns to its caller. */
  datatype Reply = Settled | Succeeded | FailedWith(message: string)

  datatype Effect = Effect(browser: Browser, reply: Reply, calls: seq<Call>, events: seq<Event>)

  /** `body.data.user` of a body that has `data` (`None` for `undefined`). */
  function UserField(b: Body): (u: Option<Account>)
    ensures b.Session? ==> u == Some(Viewed(b.user))
    ensures b.Me? ==> u == Some(Full(b.me))
  {
    match b
    case Session(v, _, _) => Some(Viewed(v))
    case Me(m) => Some(Full(m))
    case _ => None
  }

  /** `body.data.refreshToken` of a body that has `data`. */
  function RefreshTokenField(b: Body): (t: Option<string>)
    ensures b.Session? ==> t == Some(b.refreshToken)
  {
    match b
    case Session(_, _, r) => Some(r)
    case _ => None
  }

  /** `error.response?.data?.message || fallback`. */
  function ErrorMessage(error: ClientError, fallback: string): (m: string)
    ensures error.WithResponse? && Truthy(error.response.message) ==> m == error.response.message.value
    ensures !(error.WithResponse? && Truthy(error.response.message)) ==> m == fallback
  {
    if error.WithResponse? && Truthy(error.response.message) then error.response.message.value else fallback
  }

  /** Register and login share one shape (lines 14-51): on a fulfilled
      request with `data`, store both tokens and the user; otherwise (a
      rejection, or a reply without `data`, whose destructuring throws)
      clear the loading flag and report a message. */
  function SignIn(b: Browser, req: Request, server: Server, policy: Policy,
                  welcome: string, fallback: string): (e: Effect)
    ensures Synced(e.browser)
    ensures var x := Perform(b.tokens, req, server, policy);
            && e.calls == x.calls
            && (x.outcome.Fulfilled? && !x.outcome.response.body.NoData? ==>
                  var body := x.outcome.response.body;
                  && e.reply == Succeeded
                  && GetAccessToken(e.browser.tokens) == Some(JsString(AccessTokenField(body)))
                  && GetRefreshToken(e.browser.tokens) == Some(JsString(RefreshTokenField(body)))
                  && e.browser.state == AuthState(UserField(body), true, false)
                  && e.events == x.events + [Toast(false, welcome)])
            && (x.outcome.Rejected? ==>
                  var message := ErrorMessage(x.outcome.error, fallback);
                  && e.reply == FailedWith(message)
                  && e.browser.tokens == x.tokens
                  && e.browser.state == b.state.(isLoading := false)
                  && e.events == x.events + [Toast(true, message)])
            && (x.outcome.Fulfilled? && x.outcome.response.body.NoData? ==>
                  && e.reply == FailedWith(fallback)
                  && e.browser.tokens == x.tokens
                  && e.browser.state == b.state.(isLoading := false))
  {
    var x := Perform(b.tokens, req, server, policy);
    var after := b.(tokens := x.tokens);
    match x.outcome
    case Fulfilled(resp) =>
      if resp.body.NoData? then
        Effect(Commit(after, b.state.(isLoading := false)), FailedWith(fallback), x.calls,
               x.events + [Toast(true, fallback)])
      else
        var tokens := SetTokens(x.tokens, JsString(AccessTokenField(resp.body)), JsString(RefreshTokenField(resp.body)));
        Effect(Commit(after.(tokens := tokens), AuthState(UserField(resp.body), true, false)), Succeeded,
               x.calls, x.events + [Toast(false, welcome)])
    case Rejected(error) =>
      var message := ErrorMessage(error, fallback);
      Effect(Commit(after, b.state.(isLoading := false)), FailedWith(message), x.calls,
             x.events + [Toast(true, message)])
  }

  function RegisterRequest(data: Payload): Request {
    Request(Post, "/auth/register", None, data)
  }

  function LoginRequest(credentials: Payload): Request {
    Request(Post, "/auth/login", None, credentials)
  }

  /** Lines 14-32. */
  function Register(b: Browser, data: Payload, server: Server, policy: Policy): (e: Effect)
    ensures Synced(e.browser)
    ensures e.reply.Succeeded? ==> e.browser.state.isAuthenticated && !e.browser.state.isLoading
    ensures e.reply.FailedWith? ==> e.browser.state == b.state.(isLoading := false)
    ensures !e.reply.Settled?
  {
    SignIn(b, RegisterRequest(data), server, policy, MSG_REGISTERED, MSG_REGISTER_FAILED)
  }

  /** Lines 34-51. */
  function Login(b: Browser, credentials: Payload, server: Server, policy: Policy): (e: Effect)
    ensures Synced(e.browser)
    ensures e.reply.Succeeded? ==> e.browser.state.isAuthenticated && !e.browser.state.isLoading
    ensures e.reply.FailedWith? ==> e.browser.state == b.state.(isLoading := false)
    ensures !e.reply.Settled?
  {
    SignIn(b, LoginRequest(credentials), server, policy, MSG_LOGGED_IN, MSG_LOGIN_FAILED)
  }

  const SIGNED_OUT := AuthState(None, false, false)

  /** Lines 53-68: the server is told only when a refresh token is stored;
      whatever it answers, the browser ends signed out. */
  function Logout(b: Browser, server: Server, policy: Policy): (e: Effect)
    ensures Synced(e.browser)
    ensures GetAccessToken(e.browser.tokens).None? && GetRefreshToken(e.browser.tokens).None?
    ensures e.browser.state == b.state.(user := None, isAuthenticated := false)
    ensures e.calls == [] <==> !Truthy(GetRefreshToken(b.tokens))
    ensures Truthy(GetRefreshToken(b.tokens)) ==>
              e.calls[0] == Call(Original, AttachBearer(b.tokens, Request(Post, "/auth/logout", None,
                                  EMPTY_PAYLOAD.(refreshToken := GetRefreshToken(b.tokens)))))
  {
    var refresh := GetRefreshToken(b.tokens);
    var signedOut := b.state.(user := None, isAuthenticated := false);
    if Truthy(refresh) then
      var x := Perform(b.tokens, Request(Post, "/auth/logout", None, EMPTY_PAYLOAD.(refreshToken := refresh)),
                       server, policy);
      Effect(Commit(b.(tokens := ClearTokens(x.tokens)), signedOut), Settled, x.calls,
             x.events + if x.outcome.Fulfilled? then [Toast(false, MSG_LOGGED_OUT)] else [])
    else
      Effect(Commit(b.(tokens := ClearTokens(b.tokens)), signedOut), Settled, [], [Toast(false, MSG_LOGGED_OUT)])
  }

  /** Lines 70-79: the browser signs out only when the server confirms. On
      failure the store writes nothing, and the tokens change only through
      the client's renewal protocol: a renewed access token, or an expired
      session. */
  function LogoutAll(b: Browser, server: Server, policy: Policy): (e: Effect)
    requires Synced(b)
    ensures Synced(e.browser)
    ensures var x := Perform(b.tokens, Request(Post, "/auth/logout-all", None, EMPTY_PAYLOAD), server, policy);
            var sent := AttachBearer(b.tokens, Request(Post, "/auth/logout-all", None, EMPTY_PAYLOAD));
            && e.calls == x.calls
            && (x.outcome.Fulfilled? ==>
                  && GetAccessToken(e.browser.tokens).None? && GetRefreshToken(e.browser.tokens).None?
                  && e.browser.state == b.state.(user := None, isAuthenticated := false)
                  && e.events == x.events + [Toast(false, MSG_LOGGED_OUT_ALL)])
            && (x.outcome.Rejected? ==>
                  && e.browser.state == b.state && e.browser.persisted == b.persisted
                  && e.events == x.events
                  && (e.events == [] ==> GetRefreshToken(e.browser.tokens) == GetRefreshToken(b.tokens))
                  && (e.events != [] ==> e.events == EXPIRED_EVENTS && e.browser.tokens == ClearTokens(b.tokens))
                  && (!StartsRenewal(policy, sent, server(sent)) ==> e.browser.tokens == b.tokens))
  {
    var x := Perform(b.tokens, Request(Post, "/auth/logout-all", None, EMPTY_PAYLOAD), server, policy);
    if x.outcome.Fulfilled? then
      Effect(Commit(b.(tokens := ClearTokens(x.tokens)), b.state.(user := None, isAuthenticated := false)),
             Settled, x.calls, x.events + [Toast(false, MSG_LOGGED_OUT_ALL)])
    else
      Effect(b.(tokens := x.tokens), Settled, x.calls, x.events)
  }

  const ME_REQUEST := Request(Get, "/auth/me", None, EMPTY_PAYLOAD)

  /** Lines 81-97: without a usable access token the store signs out
      locally and sends nothing; otherwise it asks `/auth/me`, and any
      failure clears the tokens. */
  function LoadUser(b: Browser, jwt: Jwt, nowMs: nat, server: Server, policy: Policy): (e: Effect)
    ensures Synced(e.browser) && e.reply == Settled
    ensures IsTokenExpired(jwt, GetAccessToken(b.tokens), nowMs) ==>
              && e.calls == [] && e.events == [] && e.browser.tokens == b.tokens
              && e.browser.state == b.state.(user := None, isAuthenticated := false)
    ensures !IsTokenExpired(jwt, GetAccessToken(b.tokens), nowMs) ==>
              var x := Perform(b.tokens, ME_REQUEST, server, policy);
              && e.calls == x.calls && e.events == x.events
              && (x.outcome.Fulfilled? && !x.outcome.response.body.NoData? ==>
                    && e.browser.tokens == x.tokens
                    && e.browser.state == b.state.(user := UserField(x.outcome.response.body), isAuthenticated := true))
              && (x.outcome.Rejected? || x.outcome.response.body.NoData? ==>
                    && GetAccessToken(e.browser.tokens).None? && GetRefreshToken(e.browser.tokens).None?
                    && e.browser.state == b.state.(user := None, isAuthenticated := false))
  {
    var access := GetAccessToken(b.tokens);
    if !Truthy(access) || IsTokenExpired(jwt, access, nowMs) then
      Effect(Commit(b, b.state.(user := None, isAuthenticated := false)), Settled, [], [])
    else
      var x := Perform(b.tokens, ME_REQUEST, server, policy);
      match x.outcome
      case Fulfilled(resp) =>
        if resp.body.NoData? then
          Effect(Commit(b.(tokens := ClearTokens(x.tokens)), b.state.(user := None, isAuthenticated := false)),
                 Settled, x.calls, x.events)
        else
          Effect(Commit(b.(tokens := x.tokens), b.state.(user := UserField(resp.body), isAuthenticated := true)),
                 Settled, x.calls, x.events)
      case Rejected(_) =>
        Effect(Commit(b.(tokens := ClearTokens(x.tokens)), b.state.(user := None, isAuthenticated := false)),
               Settled, x.calls, x.events)
  }

  /** Lines 99-103: store the pair, start `loadUser` (not awaited) and
      greet at once. */
  function HandleOAuthCallback(b: Browser, access: string, refresh: string, jwt: Jwt, nowMs: nat,
                               server: Server, policy: Policy): (e: Effect)
    ensures var loaded := LoadUser(b.(tokens := SetTokens(b.tokens, access, refresh)), jwt, nowMs, server, policy);
            && e.browser == loaded.browser && e.calls == loaded.calls
            && e.events == [Toast(false, MSG_LOGGED_IN)] + loaded.events
  {
    var loaded := LoadUser(b.(tokens := SetTokens(b.tokens, access, refresh)), jwt, nowMs, server, policy);
    Effect(loaded.browser, Settled, loaded.calls, [Toast(false, MSG_LOGGED_IN)] + loaded.events)
  }

  /** `URLSearchParams.get`: the first value of `key`, `None` for `null`. */
  function QueryParam(query: seq<(string, string)>, key: string): (v: Option<string>)
    ensures v.Some? ==> exists i :: 0 <= i < |query| && query[i] == (key, v.value)
                                    && forall j :: 0 <= j < i ==> query[j].0 != key
    ensures v.None? <==> forall kv :: kv in query ==> kv.0 != key
  {
    match Find(query, (kv: (string, string)) => kv.0 == key)
    case None => None
    case Some(i) =>
      assert query[i] == (key, query[i].1);
      Some(query[i].1)
  }

  /** The `/auth/callback` page (client/src/pages/AuthCallback.jsx): with
      both tokens present it hands them to the store and goes to `/ai`,
      otherwise back to the login page. */
  function CallbackPage(b: Browser, query: seq<(string, string)>, jwt: Jwt, nowMs: nat,
                        server: Server, policy: Policy): (e: Effect)
    ensures var a := QueryParam(query, "accessToken");
            var r := QueryParam(query, "refreshToken");
            && (!(Truthy(a) && Truthy(r)) ==> e == Effect(b, Settled, [], [Navigate("/login?error=auth_failed")]))
            && (Truthy(a) && Truthy(r) ==>
                  var handled := HandleOAuthCallback(b, a.value, r.value, jwt, nowMs, server, policy);
                  && e.browser == handled.browser && e.calls == handled.calls
                  && e.events == [handled.events[0], Navigate("/ai")] + handled.events[1..])
  {
    var a := QueryParam(query, "accessToken");
    var r := QueryParam(query, "refreshToken");
    if Truthy(a) && Truthy(r) then
      var handled := HandleOAuthCallback(b, a.value, r.value, jwt, nowMs, server, policy);
      Effect(handled.browser, Settled, handled.calls, [handled.events[0], Navigate("/ai")] + handled.events[1..])
    else
      Effect(b, Settled, [], [Navigate("/login?error=auth_failed")])
  }
}
