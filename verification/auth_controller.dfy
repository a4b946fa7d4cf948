/** The local authentication service (server/controllers/authController.js).

    Each handler is a pure transition from the tables, the time and the
    request to the new tables and the response. `storeDown` says the
    database rejects every query of this request: the handler's `catch`
    answers 500 and nothing is written. */
module AuthController {
  import opened Common
  import opened Users
  import opened Tokens
  import opened Http
  import opened Server

  const MSG_REGISTER_FIELDS := "Please provide name, email and password"
  const MSG_USER_EXISTS := "User already exists with this email"
  const MSG_REGISTERED := "User registered successfully"
  const MSG_REGISTER_ERROR := "Server error during registration"
  const MSG_LOGIN_FIELDS := "Please provide email and password"
  const MSG_INVALID_CREDENTIALS := "Invalid credentials"
  const MSG_USE_GOOGLE := "Please login with Google"
  const MSG_LOGGED_IN := "Login successful"
  const MSG_LOGIN_ERROR := "Server error during login"
  const MSG_LOGGED_OUT := "Logout successful"
  const MSG_LOGOUT_ERROR := "Server error during logout"
  const MSG_LOGGED_OUT_ALL := "Logged out from all devices"
  const MSG_TOKEN_REQUIRED := "Refresh token required"
  const MSG_TOKEN_INVALID := "Invalid or expired refresh token"
  const MSG_TOKEN_NOT_FOUND := "Refresh token not found"
  const MSG_TOKEN_EXPIRED := "Refresh token expired"
  const MSG_REFRESH_ERROR := "Server error refreshing token"

  /** `access`/`refresh` are the pair minted for user `id` at `nowMs`, and
      `after` differs from `before` by exactly the stored refresh row. */
  predicate IssuedTo(before: seq<TokenRow>, after: seq<TokenRow>, env: Env, nowMs: nat, id: nat,
                     access: string, refresh: string) {
    && access == GenerateAccessToken(env.jwt, id, nowMs)
    && refresh == GenerateRefreshToken(env.jwt, env.cfg, id, nowMs)
    && after == StoreRefreshToken(before, id, refresh, nowMs)
  }

  /** Mint the token pair for `u`, store the refresh row and answer with the
      session payload (lines 53-73 and 130-151). */
  function IssueSession(db: Db, env: Env, nowMs: nat, u: User, status: nat, message: string): (r: Step)
    ensures r.db.users == db.users && r.db.nextId == db.nextId
    ensures r.response.status == status && r.response.success
    ensures r.response.body.Session? && r.response.body.user == View(u)
    ensures IssuedTo(db.tokens, r.db.tokens, env, nowMs, u.id,
                     r.response.body.accessToken, r.response.body.refreshToken)
  {
    var access := GenerateAccessToken(env.jwt, u.id, nowMs);
    var refresh := GenerateRefreshToken(env.jwt, env.cfg, u.id, nowMs);
    Step(db.(tokens := StoreRefreshToken(db.tokens, u.id, refresh, nowMs)),
         Response(status, true, Some(message), Session(View(u), access, refresh)))
  }

  /** The account `register` creates. `is_verified` takes the column default,
      assumed false. */
  function NewLocalUser(db: Db, env: Env, nowMs: nat, salt: string, name: string, email: string,
                        password: string): User {
    User(db.nextId, name, email, Some(env.hasher.hash(password, salt)), None, None, Local, false, nowMs)
  }

  function Register(db: Db, env: Env, nowMs: nat, salt: string, body: Payload, storeDown: bool): (r: Step)
    ensures !(Truthy(body.name) && Truthy(body.email) && Truthy(body.password)) ==>
              r == Step(db, Fail(400, MSG_REGISTER_FIELDS))
    ensures Truthy(body.name) && Truthy(body.email) && Truthy(body.password) && storeDown ==>
              r == Step(db, Fail(500, MSG_REGISTER_ERROR))
    ensures Truthy(body.name) && Truthy(body.email) && Truthy(body.password) && !storeDown
            && FindByEmail(db.users, body.email.value).Some? ==>
              r == Step(db, Fail(400, MSG_USER_EXISTS))
    ensures r.response.status == 201 <==>
              Truthy(body.name) && Truthy(body.email) && Truthy(body.password) && !storeDown
              && FindByEmail(db.users, body.email.value).None?
    ensures r.response.status == 201 ==>
              && |r.db.users| == |db.users| + 1 && r.db.users[..|db.users|] == db.users
              && r.db.nextId == db.nextId + 1
              && var u := r.db.users[|db.users|];
                 && u.id == db.nextId && u.name == body.name.value && u.email == body.email.value
                 && u.provider == Local && u.googleId.None?
                 && u.password == Some(env.hasher.hash(body.password.value, salt))
                 && r.response.body.Session? && r.response.body.user == View(u)
                 && IssuedTo(db.tokens, r.db.tokens, env, nowMs, u.id,
                             r.response.body.accessToken, r.response.body.refreshToken)
  {
    if !(Truthy(body.name) && Truthy(body.email) && Truthy(body.password)) then
      Step(db, Fail(400, MSG_REGISTER_FIELDS))
    else if storeDown then
      Step(db, Fail(500, MSG_REGISTER_ERROR))
    else if FindByEmail(db.users, body.email.value).Some? then
      Step(db, Fail(400, MSG_USER_EXISTS))
    else
      var u := NewLocalUser(db, env, nowMs, salt, body.name.value, body.email.value, body.password.value);
      var created := db.(users := db.users + [u], nextId := db.nextId + 1);
      assert created.users[|db.users|] == u && created.users[..|db.users|] == db.users;
      IssueSession(created, env, nowMs, u, 201, MSG_REGISTERED)
  }

  function Login(db: Db, env: Env, nowMs: nat, body: Payload, storeDown: bool): (r: Step)
    ensures !(Truthy(body.email) && Truthy(body.password)) ==> r == Step(db, Fail(400, MSG_LOGIN_FIELDS))
    ensures Truthy(body.email) && Truthy(body.password) && storeDown ==>
              r == Step(db, Fail(500, MSG_LOGIN_ERROR))
    ensures Truthy(body.email) && Truthy(body.password) && !storeDown
            && FindByEmail(db.users, body.email.value).None? ==>
              r == Step(db, Fail(401, MSG_INVALID_CREDENTIALS))
    ensures Truthy(body.email) && Truthy(body.password) && !storeDown
            && FindByEmail(db.users, body.email.value).Some? ==>
              var u := FindByEmail(db.users, body.email.value).value;
              && (u.provider == Google && !Truthy(u.password) ==> r == Step(db, Fail(401, MSG_USE_GOOGLE)))
              && (!(u.provider == Google && !Truthy(u.password)) && u.password.Some?
                  && !env.hasher.compare(body.password.value, u.password.value) ==>
                    r == Step(db, Fail(401, MSG_INVALID_CREDENTIALS)))
              && (!(u.provider == Google && !Truthy(u.password)) && u.password.Some?
                  && env.hasher.compare(body.password.value, u.password.value) ==>
                    r.response.status == 200)
    ensures r.response.status == 200 ==>
              && Truthy(body.email) && Truthy(body.password)
              && var u := FindByEmail(db.users, body.email.value).value;
                 && u.password.Some? && env.hasher.compare(body.password.value, u.password.value)
                 && r.db.users == db.users
                 && r.response.body.Session? && r.response.body.user == View(u)
                 && IssuedTo(db.tokens, r.db.tokens, env, nowMs, u.id,
                             r.response.body.accessToken, r.response.body.refreshToken)
    ensures r.response.status != 200 ==> r.db == db
    ensures r.db.users == db.users && r.db.nextId == db.nextId
  {
    if !(Truthy(body.email) && Truthy(body.password)) then
      Step(db, Fail(400, MSG_LOGIN_FIELDS))
    else if storeDown then
      Step(db, Fail(500, MSG_LOGIN_ERROR))
    else match FindByEmail(db.users, body.email.value)
      case None => Step(db, Fail(401, MSG_INVALID_CREDENTIALS))
      case Some(u) =>
        if u.provider == Google && !Truthy(u.password) then
          Step(db, Fail(401, MSG_USE_GOOGLE))
        else if u.password.None? then
          // bcrypt.compare throws on a missing hash: the catch answers 500
          Step(db, Fail(500, MSG_LOGIN_ERROR))
        else if !env.hasher.compare(body.password.value, u.password.value) then
          Step(db, Fail(401, MSG_INVALID_CREDENTIALS))
        else
          IssueSession(db, env, nowMs, u, 200, MSG_LOGGED_IN)
  }

  function LoggedOut(): Response {
    Response(200, true, Some(MSG_LOGGED_OUT), NoData)
  }

  function Logout(db: Db, refreshToken: Option<string>, storeDown: bool): (r: Step)
    ensures !(Truthy(refreshToken) && storeDown) ==> r.response == LoggedOut()
    ensures Truthy(refreshToken) && storeDown ==> r == Step(db, Fail(500, MSG_LOGOUT_ERROR))
    ensures !Truthy(refreshToken) ==> r.db == db
    ensures Truthy(refreshToken) && !storeDown ==>
              r.db == db.(tokens := DeleteRefreshToken(db.tokens, refreshToken.value))
  {
    if Truthy(refreshToken) then
      if storeDown then Step(db, Fail(500, MSG_LOGOUT_ERROR))
      else Step(db.(tokens := DeleteRefreshToken(db.tokens, refreshToken.value)), LoggedOut())
    else Step(db, LoggedOut())
  }

  /** `user` is the account the session gate attached to the request. */
  function LogoutAll(db: Db, user: SafeUser, storeDown: bool): (r: Step)
    ensures storeDown ==> r == Step(db, Fail(500, MSG_LOGOUT_ERROR))
    ensures !storeDown ==>
              && r.response == Response(200, true, Some(MSG_LOGGED_OUT_ALL), NoData)
              && r.db == db.(tokens := DeleteAllUserTokens(db.tokens, user.id))
  {
    if storeDown then Step(db, Fail(500, MSG_LOGOUT_ERROR))
    else Step(db.(tokens := DeleteAllUserTokens(db.tokens, user.id)),
              Response(200, true, Some(MSG_LOGGED_OUT_ALL), NoData))
  }

  /** The stored rows a refresh request can match: same token string and the
      user id carried in its payload. */
  function MatchingRow(rows: seq<TokenRow>, token: string, userId: nat): (r: Option<nat>)
    ensures r.Some? ==> r.value < |rows| && rows[r.value].token == token && rows[r.value].userId == userId
    ensures r.None? <==> forall x :: x in rows ==> !(x.token == token && x.userId == userId)
  {
    Find(rows, (x: TokenRow) => x.token == token && x.userId == userId)
  }

  function RefreshAccessToken(db: Db, env: Env, nowMs: nat, refreshToken: Option<string>, storeDown: bool): (r: Step)
    ensures !Truthy(refreshToken) ==> r == Step(db, Fail(401, MSG_TOKEN_REQUIRED))
    ensures Truthy(refreshToken) && VerifyToken(env.jwt, refreshToken.value, nowMs).None? ==>
              r == Step(db, Fail(401, MSG_TOKEN_INVALID))
    ensures Truthy(refreshToken) && VerifyToken(env.jwt, refreshToken.value, nowMs).Some? ==>
              var c := VerifyToken(env.jwt, refreshToken.value, nowMs).value;
              && (storeDown ==> r == Step(db, Fail(500, MSG_REFRESH_ERROR)))
              && (!storeDown && MatchingRow(db.tokens, refreshToken.value, c.userId).None? ==>
                    r == Step(db, Fail(401, MSG_TOKEN_NOT_FOUND)))
              && (!storeDown && MatchingRow(db.tokens, refreshToken.value, c.userId).Some? ==>
                    var row := db.tokens[MatchingRow(db.tokens, refreshToken.value, c.userId).value];
                    && (row.expiresAt < nowMs ==>
                          r == Step(db.(tokens := DeleteRefreshToken(db.tokens, refreshToken.value)),
                                    Fail(401, MSG_TOKEN_EXPIRED)))
                    && (nowMs <= row.expiresAt ==>
                          r == Step(db, Response(200, true, None,
                                                 Renewed(GenerateAccessToken(env.jwt, c.userId, nowMs))))))
    ensures r.response.status == 200 ==> r.db == db
    ensures r.db.users == db.users && r.db.nextId == db.nextId
  {
    if !Truthy(refreshToken) then
      Step(db, Fail(401, MSG_TOKEN_REQUIRED))
    else match VerifyToken(env.jwt, refreshToken.value, nowMs)
      case None => Step(db, Fail(401, MSG_TOKEN_INVALID))
      case Some(c) =>
        if storeDown then Step(db, Fail(500, MSG_REFRESH_ERROR))
        else match MatchingRow(db.tokens, refreshToken.value, c.userId)
          case None => Step(db, Fail(401, MSG_TOKEN_NOT_FOUND))
          case Some(i) =>
            if db.tokens[i].expiresAt < nowMs then
              Step(db.(tokens := DeleteRefreshToken(db.tokens, refreshToken.value)), Fail(401, MSG_TOKEN_EXPIRED))
            else
              Step(db, Response(200, true, None, Renewed(GenerateAccessToken(env.jwt, c.userId, nowMs))))
  }

  /** `user` is the account the session gate attached to the request. */
  function GetMe(user: SafeUser): (r: Response)
    ensures r.status == 200 && r.success && r.body == Me(user)
  {
    Response(200, true, None, Me(user))
  }
}
