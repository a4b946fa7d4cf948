/** The browser's HTTP client (client/src/api/axios.js): a request
    interceptor that attaches the stored access token, and a response
    interceptor that answers a 401 by renewing the access token once and
    replaying the request.

    The server, as the browser sees it, is a function from a request to a
    response, or `None` when no response arrives (network failure). */
module ApiClient {
  import opened Common
  import opened Http
  import opened TokenManager

  const REFRESH_PATH := "/auth/refresh-token"
  const MSG_SESSION_EXPIRED := "Session expired. Please log in again."
  const LOGIN_PATH := "/login"

  /** Visible side effects: a toast, or a full-page navigation. */
  datatype Event = Toast(isError: bool, text: string) | Navigate(path: string)

  /** What the browser does when a session cannot be renewed. */
  const EXPIRED_EVENTS: seq<Event> := [Toast(true, MSG_SESSION_EXPIRED), Navigate(LOGIN_PATH)]

  /** A request config; `retry` is the `_retry` mark. */
  datatype Config = Config(request: Request, retry: bool)

  /** Which leg of the protocol a request on the wire belongs to. */
  datatype CallKind = Original | RefreshCall | Replay
  datatype Call = Call(kind: CallKind, request: Request)

  /** A rejection: an HTTP error carries the response, other errors none. */
  datatype ClientError = WithResponse(response: Response) | WithoutResponse
  datatype Outcome = Fulfilled(response: Response) | Rejected(error: ClientError)

  /** The result of one client request: the token storage afterwards, how
      the promise settled, the requests sent in order, the side effects. */
  datatype Exchange = Exchange(tokens: TokenStore, outcome: Outcome, calls: seq<Call>, events: seq<Event>)

  type Server = Request -> Option<Response>

  /** `AsWritten` runs the refresh protocol on every 401; `Corrected`
      exempts the credential endpoints, whose 401 means wrong credentials
      rather than a stale session. */
  datatype Policy = AsWritten | Corrected

  predicate IsCredentialEndpoint(path: string) {
    path == "/auth/login" || path == "/auth/register"
  }

  predicate Refreshable(policy: Policy, req: Request) {
    policy.AsWritten? || !IsCredentialEndpoint(req.path)
  }

  /** Request interceptor (lines 14-21): the stored access token, when
      truthy, becomes the bearer; otherwise the headers are left alone. */
  function AttachBearer(tokens: TokenStore, req: Request): (r: Request)
    ensures r.verb == req.verb && r.path == req.path && r.payload == req.payload
    ensures Truthy(GetAccessToken(tokens)) ==> r.authorization == Some("Bearer " + GetAccessToken(tokens).value)
    ensures !Truthy(GetAccessToken(tokens)) ==> r.authorization == req.authorization
  {
    var t := GetAccessToken(tokens);
    if Truthy(t) then req.(authorization := Some("Bearer " + t.value)) else req
  }

  /** The renewal request, sent with the bare library (no interceptors, no
      `Authorization` header). */
  function RefreshRequest(refreshToken: string): (r: Request)
    ensures r.path == REFRESH_PATH && r.authorization.None?
    ensures r.payload.refreshToken == Some(refreshToken)
  {
    Request(Post, REFRESH_PATH, None, EMPTY_PAYLOAD.(refreshToken := Some(refreshToken)))
  }

  /** `response.data.data.accessToken` for a body that has `data`;
      `None` stands for `undefined`, which `localStorage.setItem` stores as
      the string "undefined" (`JsString`). */
  function AccessTokenField(b: Body): Option<string> {
    match b
    case NoData => None
    case Session(_, a, _) => Some(a)
    case Renewed(a) => Some(a)
    case Me(_) => None
  }

  /** Renewal failed: tokens cleared, toast, navigation to the login page,
      and the promise rejects with `error`. */
  function Expire(tokens: TokenStore, error: ClientError, calls: seq<Call>): (x: Exchange)
    ensures x.tokens == ClearTokens(tokens) && x.outcome == Rejected(error)
    ensures x.calls == calls && x.events == EXPIRED_EVENTS
  {
    Exchange(ClearTokens(tokens), Rejected(error), calls, EXPIRED_EVENTS)
  }

  function Prepend(c: Call, x: Exchange): (y: Exchange)
    ensures y.tokens == x.tokens && y.outcome == x.outcome && y.events == x.events
    ensures y.calls == [c] + x.calls
  {
    x.(calls := [c] + x.calls)
  }

  function Rank(config: Config): nat {
    if config.retry then 0 else 1
  }

  /** A request through the instance: interceptor, the wire, and on a
      non-2xx answer or a network failure the error interceptor. A marked
      request is one leg only: it is sent once, never renews, and never
      touches the tokens. */
  function Dispatch(tokens: TokenStore, config: Config, server: Server, policy: Policy): (x: Exchange)
    decreases Rank(config), 2
    ensures |x.calls| >= 1 && x.calls[0] == Call(if config.retry then Replay else Original, AttachBearer(tokens, config.request))
    ensures x.outcome.Fulfilled? ==> IsOk(x.outcome.response.status)
    ensures config.retry ==> x.tokens == tokens && |x.calls| == 1 && x.events == []
    ensures !config.retry ==> Protocol(tokens, x)
  {
    var sent := AttachBearer(tokens, config.request);
    var first := Call(if config.retry then Replay else Original, sent);
    match server(sent)
    case None => Prepend(first, OnError(tokens, config.(request := sent), WithoutResponse, server, policy))
    case Some(resp) =>
      if IsOk(resp.status) then Exchange(tokens, Fulfilled(resp), [first], [])
      else Prepend(first, OnError(tokens, config.(request := sent), WithResponse(resp), server, policy))
  }

  /** The shape every unmarked request's exchange has, whatever the server
      answers: after the original request come at most one renewal and at
      most one replay, in that order; the only side effects are those of a
      failed renewal, which always leave the storage empty; and the refresh
      token is never replaced. */
  ghost predicate Protocol(tokens: TokenStore, x: Exchange) {
    && 1 <= |x.calls| <= 3
    && x.calls[0].kind == Original
    && (forall i :: 1 <= i < |x.calls| ==> x.calls[i].kind == (if i == 1 then RefreshCall else Replay))
    && (|x.calls| >= 2 ==> Truthy(GetRefreshToken(tokens))
                            && x.calls[1].request == RefreshRequest(GetRefreshToken(tokens).value))
    && (x.events == [] || (x.events == EXPIRED_EVENTS && x.tokens == ClearTokens(tokens)
                           && x.outcome.Rejected? && |x.calls| <= 2))
    && (x.events == [] ==> GetRefreshToken(x.tokens) == GetRefreshToken(tokens))
  }

  /** Response interceptor, error branch (lines 30-72). */
  function OnError(tokens: TokenStore, config: Config, error: ClientError, server: Server, policy: Policy): (x: Exchange)
    decreases Rank(config), 1
    ensures config.retry ==> x == Exchange(tokens, Rejected(error), [], [])
    ensures !config.retry ==>
              if error.WithResponse? && error.response.status == 401 && Refreshable(policy, config.request)
              then x == Renew(tokens, config, server, policy)
              else x == Exchange(tokens, Rejected(error), [], [])
    ensures x.outcome.Fulfilled? ==> IsOk(x.outcome.response.status)
  {
    if error.WithResponse? && error.response.status == 401 && !config.retry && Refreshable(policy, config.request)
    then Renew(tokens, config, server, policy)
    else Exchange(tokens, Rejected(error), [], [])
  }

  /** Lines 35-68: mark the request, renew the access token with the stored
      refresh token, store the new pair and replay. Any failure on the way,
      including a reply without `success` or without `data`, expires the
      session. The replay's own rejection is returned as is: it is not
      awaited inside the `try`, so the `catch` never sees it. */
  function Renew(tokens: TokenStore, config: Config, server: Server, policy: Policy): (x: Exchange)
    requires !config.retry
    decreases Rank(config), 0
    ensures Protocol(tokens, Prepend(Call(Original, config.request), x))
    ensures x.outcome.Fulfilled? ==> IsOk(x.outcome.response.status)
  {
    var refresh := GetRefreshToken(tokens);
    if !Truthy(refresh) then Expire(tokens, WithoutResponse, [])
    else
      var call := Call(RefreshCall, RefreshRequest(refresh.value));
      match server(call.request)
      case None => Expire(tokens, WithoutResponse, [call])
      case Some(resp) =>
        if !IsOk(resp.status) then Expire(tokens, WithResponse(resp), [call])
        else if !resp.success || resp.body.NoData? then Expire(tokens, WithoutResponse, [call])
        else
          var access := JsString(AccessTokenField(resp.body));
          var renewed := SetTokens(tokens, access, refresh.value);
          var replay := Config(config.request.(authorization := Some("Bearer " + access)), true);
          Prepend(call, Dispatch(renewed, replay, server, policy))
  }

  /** How a single leg settles on its own: a 2xx answer fulfils, any other
      answer or no answer rejects. */
  function Settle(answer: Option<Response>): (o: Outcome)
    ensures o.Fulfilled? <==> answer.Some? && IsOk(answer.value.status)
    ensures o.Fulfilled? ==> o.response == answer.value
    ensures o.Rejected? ==> o.error == if answer.Some? then WithResponse(answer.value) else WithoutResponse
  {
    match answer
    case None => Rejected(WithoutResponse)
    case Some(r) => if IsOk(r.status) then Fulfilled(r) else Rejected(WithResponse(r))
  }

  /** Line 34: the answer to an unmarked request that starts the renewal. */
  predicate StartsRenewal(policy: Policy, sent: Request, answer: Option<Response>) {
    answer.Some? && answer.value.status == 401 && Refreshable(policy, sent)
  }

  /** Line 50 and the read on line 51: a renewal reply the client accepts. */
  predicate AcceptsRenewal(answer: Option<Response>) {
    answer.Some? && IsOk(answer.value.status) && answer.value.success && !answer.value.body.NoData?
  }

  /** A request made by application code (unmarked), specified case by case
      from the first answer and the renewal answer. */
  function Perform(tokens: TokenStore, req: Request, server: Server, policy: Policy): (x: Exchange)
    ensures Protocol(tokens, x)
    ensures x.outcome.Fulfilled? ==> IsOk(x.outcome.response.status)
    ensures var sent := AttachBearer(tokens, req);
            var refresh := GetRefreshToken(tokens);
            && (!StartsRenewal(policy, sent, server(sent)) ==>
                  x == Exchange(tokens, Settle(server(sent)), [Call(Original, sent)], []))
            && (StartsRenewal(policy, sent, server(sent)) && !Truthy(refresh) ==>
                  x == Expire(tokens, WithoutResponse, [Call(Original, sent)]))
            && (StartsRenewal(policy, sent, server(sent)) && Truthy(refresh)
                && !AcceptsRenewal(server(RefreshRequest(refresh.value))) ==>
                  var answer := server(RefreshRequest(refresh.value));
                  x == Expire(tokens, if answer.Some? && !IsOk(answer.value.status)
                                      then WithResponse(answer.value) else WithoutResponse,
                              [Call(Original, sent), Call(RefreshCall, RefreshRequest(refresh.value))]))
            && (StartsRenewal(policy, sent, server(sent)) && Truthy(refresh)
                && AcceptsRenewal(server(RefreshRequest(refresh.value))) ==>
                  var access := JsString(AccessTokenField(server(RefreshRequest(refresh.value)).value.body));
                  var replay := sent.(authorization := Some("Bearer " + access));
                  x == Exchange(SetTokens(tokens, access, refresh.value), Settle(server(replay)),
                                [Call(Original, sent), Call(RefreshCall, RefreshRequest(refresh.value)),
                                 Call(Replay, replay)], []))
  {
    ReplayLeg(tokens, req, server, policy);
    Dispatch(tokens, Config(req, false), server, policy)
  }

  /** The replay after an accepted renewal is a single marked leg, sent
      with the new bearer. */
  lemma ReplayLeg(tokens: TokenStore, req: Request, server: Server, policy: Policy)
    ensures var sent := AttachBearer(tokens, req);
            var refresh := GetRefreshToken(tokens);
            StartsRenewal(policy, sent, server(sent)) && Truthy(refresh)
            && AcceptsRenewal(server(RefreshRequest(refresh.value))) ==>
              var access := JsString(AccessTokenField(server(RefreshRequest(refresh.value)).value.body));
              var renewed := SetTokens(tokens, access, refresh.value);
              var replay := sent.(authorization := Some("Bearer " + access));
              && Renew(tokens, Config(sent, false), server, policy)
                 == Prepend(Call(RefreshCall, RefreshRequest(refresh.value)),
                            Dispatch(renewed, Config(replay, true), server, policy))
              && Dispatch(renewed, Config(replay, true), server, policy)
                 == Exchange(renewed, Settle(server(replay)), [Call(Replay, replay)], [])
  {
    var sent := AttachBearer(tokens, req);
    var refresh := GetRefreshToken(tokens);
    if StartsRenewal(policy, sent, server(sent)) && Truthy(refresh)
       && AcceptsRenewal(server(RefreshRequest(refresh.value))) {
      var access := JsString(AccessTokenField(server(RefreshRequest(refresh.value)).value.body));
      var renewed := SetTokens(tokens, access, refresh.value);
      var replay := sent.(authorization := Some("Bearer " + access));
      assert AttachBearer(renewed, replay) == replay;
    }
  }
}
