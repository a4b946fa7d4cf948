/** Properties that relate several server operations: the table invariant
    every request keeps, revocation, and the register → login → `/auth/me`
    round trips. */
module ServerProperties {
  import opened Common
  import opened Users
  import opened Tokens
  import opened Http
  import opened Server
  import opened AuthController
  import AuthMiddleware
  import Passport
  import AuthRoutes

  /** `Valid` reads only the users table and the id sequence. */
  predicate SameAccounts(a: Db, b: Db) {
    a.users == b.users && a.nextId == b.nextId
  }

  lemma ValidIgnoresTokens(a: Db, b: Db)
    requires SameAccounts(a, b) && Valid(a)
    ensures Valid(b)
  {
  }

  /** A registration keeps the table constraints: the new row's id, email
      and (absent) Google id are fresh. */
  lemma RegisterPreservesValid(db: Db, env: Env, nowMs: nat, salt: string, body: Payload, storeDown: bool)
    requires Valid(db)
    ensures Valid(Register(db, env, nowMs, salt, body, storeDown).db)
  {
    var r := Register(db, env, nowMs, salt, body, storeDown);
    if r.response.status == 201 {
      var u := r.db.users[|db.users|];
      assert r.db.users == db.users + [u];
      AppendFresh(db, u);
    }
  }

  /** Google sign-in keeps the table constraints: linking sets a Google id
      nobody holds on the one row with that email, creating appends a row
      with a fresh id, email and Google id. */
  lemma ResolvePreservesValid(db: Db, nowMs: nat, profile: Passport.Profile, storeDown: bool)
    requires Valid(db)
    ensures Valid(Passport.ResolveGoogleUser(db, nowMs, profile, storeDown).db)
  {
    var r := Passport.ResolveGoogleUser(db, nowMs, profile, storeDown);
    if !storeDown && FindByGoogleId(db.users, profile.id).None? && |profile.emails| > 0
       && profile.photos.Some? {
      var email := profile.emails[0];
      var picture := Passport.PictureOf(profile.photos.value);
      if FindByEmail(db.users, email).Some? {
        LinkPreservesValid(db, email, profile.id, picture);
      } else {
        var u := r.db.users[|db.users|];
        assert r.db.users == db.users + [u];
        AppendFresh(db, u);
      }
    }
  }

  lemma LinkPreservesValid(db: Db, email: string, googleId: string, picture: Option<string>)
    requires Valid(db)
    requires FindByGoogleId(db.users, googleId).None?
    ensures Valid(db.(users := Passport.LinkByEmail(db.users, email, googleId, picture)))
  {
    var users := Passport.LinkByEmail(db.users, email, googleId, picture);
    forall i, j | 0 <= i < j < |users|
      ensures users[i].id != users[j].id && users[i].email != users[j].email
      ensures users[i].googleId.Some? ==> users[i].googleId != users[j].googleId
    {
      assert db.users[i] in db.users && db.users[j] in db.users;
      assert db.users[i].email != db.users[j].email;
    }
    forall u | u in users ensures u.id < db.nextId && (u.provider == Local ==> u.password.Some?) {
      var i :| 0 <= i < |users| && users[i] == u;
      assert db.users[i] in db.users;
    }
  }

  /** Every JSON request to the auth router keeps the table constraints. */
  lemma DispatchPreservesValid(db: Db, env: Env, nowMs: nat, salt: string, req: Request, storeDown: bool)
    requires Valid(db)
    ensures Valid(AuthRoutes.Dispatch(db, env, nowMs, salt, req, storeDown).db)
  {
    match AuthRoutes.Lookup(req.verb, req.path)
    case None =>
    case Some(route) =>
      var user := if route.guarded then AuthMiddleware.Protect(db, env.jwt, nowMs, req.authorization, storeDown)
                  else AuthMiddleware.Next(AuthRoutes.NO_USER);
      if user.Next? {
        if route.endpoint == AuthRoutes.RegisterEp {
          RegisterPreservesValid(db, env, nowMs, salt, req.payload, storeDown);
        } else {
          HandleKeepsAccounts(db, env, nowMs, salt, route.endpoint, req.payload, user.user, storeDown);
        }
      }
  }

  /** Only registration adds accounts; every other handler leaves the users
      table and the id sequence alone. */
  lemma HandleKeepsAccounts(db: Db, env: Env, nowMs: nat, salt: string, endpoint: AuthRoutes.Endpoint,
                            payload: Payload, user: SafeUser, storeDown: bool)
    requires endpoint != AuthRoutes.RegisterEp
    ensures SameAccounts(db, AuthRoutes.Handle(db, env, nowMs, salt, endpoint, payload, user, storeDown).db)
  {
  }

  /** An unknown email and a wrong password get the same answer, so the
      response does not reveal which emails have accounts. */
  lemma LoginFailuresLookAlike(db1: Db, db2: Db, env: Env, nowMs: nat, body: Payload)
    requires Truthy(body.email) && Truthy(body.password)
    requires FindByEmail(db1.users, body.email.value).None?
    requires var u := FindByEmail(db2.users, body.email.value);
             u.Some? && !(u.value.provider == Google && !Truthy(u.value.password)) && u.value.password.Some?
             && !env.hasher.compare(body.password.value, u.value.password.value)
    ensures Login(db1, env, nowMs, body, false).response == Login(db2, env, nowMs, body, false).response
    ensures Login(db1, env, nowMs, body, false).response == Fail(401, MSG_INVALID_CREDENTIALS)
  {
  }

  /** A Google-only account is refused before any hash comparison: the
      answer does not depend on the hashing oracle. */
  lemma GoogleOnlyIgnoresHasher(db: Db, env: Env, other: Hasher, nowMs: nat, body: Payload)
    requires Truthy(body.email) && Truthy(body.password)
    requires var u := FindByEmail(db.users, body.email.value);
             u.Some? && u.value.provider == Google && u.value.password.None?
    ensures Login(db, env, nowMs, body, false) == Login(db, env.(hasher := other), nowMs, body, false)
    ensures Login(db, env, nowMs, body, false).response == Fail(401, MSG_USE_GOOGLE)
  {
  }

  /** Logging out twice with the same token is logging out once. */
  lemma LogoutIdempotent(db: Db, refreshToken: Option<string>)
    ensures var once := Logout(db, refreshToken, false);
            Logout(once.db, refreshToken, false) == once
  {
    if Truthy(refreshToken) {
      DeleteRefreshTokenIdempotent(db.tokens, refreshToken.value);
    }
  }

  /** After a logout with token `t`, `t` no longer renews: it is either
      rejected by its signature or finds no row. */
  lemma RevokedAfterLogout(db: Db, env: Env, nowMs: nat, t: string, later: nat)
    requires t != ""
    ensures var out := Logout(db, Some(t), false).db;
            var r := RefreshAccessToken(out, env, later, Some(t), false);
            r.response.status == 401 && !r.response.success
  {
    var out := Logout(db, Some(t), false).db;
    match VerifyToken(env.jwt, t, later)
    case None =>
    case Some(c) =>
      var rows := DeleteRefreshToken(db.tokens, t);
      forall x | x in rows ensures x.token != t {
        assert multiset(rows)[x] > 0;
      }
      assert MatchingRow(out.tokens, t, c.userId).None?;
  }

  /** After "log out everywhere" for a user, no token of that user renews. */
  lemma RevokedAfterLogoutAll(db: Db, env: Env, user: SafeUser, t: string, later: nat)
    requires t != ""
    ensures var out := LogoutAll(db, user, false).db;
            var r := RefreshAccessToken(out, env, later, Some(t), false);
            VerifyToken(env.jwt, t, later).Some? && VerifyToken(env.jwt, t, later).value.userId == user.id ==>
              r.response == Fail(401, MSG_TOKEN_NOT_FOUND)
  {
    var out := LogoutAll(db, user, false).db;
    var rows := DeleteAllUserTokens(db.tokens, user.id);
    forall x | x in rows ensures x.userId != user.id {
      assert multiset(rows)[x] > 0;
    }
  }

  /** A renewal succeeds only against a stored, unexpired row of the token's
      own user, and then mints an access token for that user. */
  lemma RenewalNeedsLiveRow(db: Db, env: Env, nowMs: nat, t: Option<string>, storeDown: bool)
    ensures var r := RefreshAccessToken(db, env, nowMs, t, storeDown);
            r.response.status == 200 ==>
              && Truthy(t) && !storeDown
              && var c := VerifyToken(env.jwt, t.value, nowMs);
                 && c.Some?
                 && (exists x :: x in db.tokens && x.token == t.value && x.userId == c.value.userId
                                 && nowMs <= x.expiresAt)
                 && r.response.body == Renewed(GenerateAccessToken(env.jwt, c.value.userId, nowMs))
  {
    var r := RefreshAccessToken(db, env, nowMs, t, storeDown);
    if r.response.status == 200 {
      var c := VerifyToken(env.jwt, t.value, nowMs).value;
      var i := MatchingRow(db.tokens, t.value, c.userId).value;
      assert db.tokens[i] in db.tokens;
    }
  }

  /** A freshly registered account can log in with the same password. */
  lemma RegisterThenLogin(db: Db, env: Env, nowMs: nat, salt: string, body: Payload, later: nat)
    requires Valid(db) && Users.Sound(env.hasher)
    requires Register(db, env, nowMs, salt, body, false).response.status == 201
    ensures var db1 := Register(db, env, nowMs, salt, body, false).db;
            var r := Login(db1, env, later, Payload(None, body.email, body.password, None), false);
            && r.response.status == 200
            && r.response.body.user == Register(db, env, nowMs, salt, body, false).response.body.user
  {
    var db1 := Register(db, env, nowMs, salt, body, false).db;
    var u := db1.users[|db.users|];
    RegisterPreservesValid(db, env, nowMs, salt, body, false);
    assert u in db1.users;
    var found := FindByEmail(db1.users, body.email.value);
    EmailDeterminesRow(db1.users, found.value, u);
    assert env.hasher.compare(body.password.value, env.hasher.hash(body.password.value, salt));
  }

  /** The access token a registration returns opens `/auth/me` for the
      new account during its first 899 seconds. */
  lemma RegisterThenMe(db: Db, env: Env, nowMs: nat, salt: string, body: Payload, later: nat)
    requires Valid(db) && Tokens.Sound(env.jwt)
    requires Register(db, env, nowMs, salt, body, false).response.status == 201
    requires nowMs <= later <= nowMs + (ACCESS_LIFETIME_SECS - 1) * 1000
    ensures var reg := Register(db, env, nowMs, salt, body, false);
            var u := reg.db.users[|db.users|];
            var me := Request(Get, "/auth/me", Some("Bearer " + reg.response.body.accessToken), EMPTY_PAYLOAD);
            AuthRoutes.Dispatch(reg.db, env, later, salt, me, false).response == GetMe(Safe(u))
  {
    var reg := Register(db, env, nowMs, salt, body, false);
    var u := reg.db.users[|db.users|];
    var access := reg.response.body.accessToken;
    assert access == GenerateAccessToken(env.jwt, u.id, nowMs);
    RegisterPreservesValid(db, env, nowMs, salt, body, false);
    assert u in reg.db.users;
    GateOpensForOwnAccessToken(reg.db, env, u, nowMs, later);
    MeAnswersGatedUser(reg.db, env, later, salt, Some("Bearer " + access), Safe(u));
  }

  /** `GET /auth/me` answers with exactly the account the gate attached. */
  lemma MeAnswersGatedUser(db: Db, env: Env, nowMs: nat, salt: string, authorization: Option<string>, user: SafeUser)
    requires AuthMiddleware.Protect(db, env.jwt, nowMs, authorization, false) == AuthMiddleware.Next(user)
    ensures AuthRoutes.Dispatch(db, env, nowMs, salt, Request(Get, "/auth/me", authorization, EMPTY_PAYLOAD), false)
         == Step(db, GetMe(user))
  {
    assert AuthRoutes.Lookup(Get, "/auth/me") == Some(AuthRoutes.ROUTES[5]);
  }

  /** An access token minted for a stored account passes the gate as that
      account while it is live. */
  lemma GateOpensForOwnAccessToken(db: Db, env: Env, u: User, issuedMs: nat, nowMs: nat)
    requires Valid(db) && Tokens.Sound(env.jwt) && u in db.users
    requires issuedMs <= nowMs <= issuedMs + (ACCESS_LIFETIME_SECS - 1) * 1000
    ensures AuthMiddleware.Protect(db, env.jwt, nowMs, Some("Bearer " + GenerateAccessToken(env.jwt, u.id, issuedMs)), false)
         == AuthMiddleware.Next(Safe(u))
  {
    var access := GenerateAccessToken(env.jwt, u.id, issuedMs);
    var c := Claims(u.id, Seconds(issuedMs), Seconds(issuedMs) + ACCESS_LIFETIME_SECS);
    assert access == env.jwt.encode(c);
    AuthMiddleware.BearerRoundTrip(access);
    AccessTokenRoundTrip(env.jwt, u.id, issuedMs, nowMs);
    IdDeterminesRow(db.users, FindById(db.users, u.id).value, u);
  }

  /** The gate does not tell token kinds apart: a live refresh token is
      accepted as a bearer credential, since both kinds carry the same
      payload. */
  lemma GateAcceptsRefreshToken(db: Db, env: Env, userId: nat, issuedMs: nat, nowMs: nat)
    requires Tokens.Sound(env.jwt)
    requires FindById(db.users, userId).Some?
    requires issuedMs <= nowMs && Seconds(nowMs) < Seconds(issuedMs) + RefreshLifetime(env.cfg)
    ensures var t := GenerateRefreshToken(env.jwt, env.cfg, userId, issuedMs);
            AuthMiddleware.Protect(db, env.jwt, nowMs, Some("Bearer " + t), false)
              == AuthMiddleware.Next(Safe(FindById(db.users, userId).value))
  {
    var t := GenerateRefreshToken(env.jwt, env.cfg, userId, issuedMs);
    var c := Claims(userId, Seconds(issuedMs), Seconds(issuedMs) + RefreshLifetime(env.cfg));
    assert env.jwt.verify(t) == Some(c);
    AuthMiddleware.BearerRoundTrip(t);
  }
}
