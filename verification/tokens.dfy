/** The token codec and the refresh-token table (server/utils/tokenUtils.js).

    Signing is an oracle: a `Jwt` bundles the library's `sign` (with the
    process-wide secret), its signature check and the client's unverified
    payload decoder. Only the properties in `Sound` are assumed of it.
    Server time is in milliseconds (`Date.now()`); token claims are in whole
    seconds, as the JWT library stores them. */
module Tokens {
  import opened Common

  /** Access tokens expire 15 minutes after issue. */
  const ACCESS_LIFETIME_SECS: nat := 15 * 60
  /** Refresh-token lifetime when `JWT_EXPIRE` is unset or empty. */
  const DEFAULT_REFRESH_LIFETIME_SECS: nat := 7 * 24 * 60 * 60
  /** The stored row always expires seven days after it is written. */
  const ROW_LIFETIME_MS: nat := 7 * 24 * 60 * 60 * 1000

  /** Payload `{userId, iat, exp}` of a signed token. */
  datatype Claims = Claims(userId: nat, iat: nat, exp: nat)

  /** `encode` signs a payload; `verify` checks a token's signature and
      returns its payload (expiry is checked separately); `decode` reads the
      payload of any well-formed token without checking the signature. */
  datatype Jwt = Jwt(
    encode: Claims -> string,
    verify: string -> Option<Claims>,
    decode: string -> Option<Claims>)

  /** What the model assumes of the signing library: a signed payload
      verifies to itself, a verified token also decodes to its payload, and
      a signed token is a non-empty string without spaces (three base64url
      segments joined by dots). */
  ghost predicate Sound(jwt: Jwt) {
    && (forall c :: jwt.verify(jwt.encode(c)) == Some(c))
    && (forall t :: jwt.verify(t).Some? ==> jwt.decode(t) == jwt.verify(t))
    && (forall c :: jwt.encode(c) != "" && ' ' !in jwt.encode(c))
  }

  /** `JWT_EXPIRE`, already converted to seconds; `None` when unset or empty. */
  datatype Config = Config(jwtExpire: Option<nat>)

  function RefreshLifetime(cfg: Config): (secs: nat)
    ensures cfg.jwtExpire.None? ==> secs == DEFAULT_REFRESH_LIFETIME_SECS
    ensures cfg.jwtExpire.Some? ==> secs == cfg.jwtExpire.value
  {
    match cfg.jwtExpire
    case None => DEFAULT_REFRESH_LIFETIME_SECS
    case Some(s) => s
  }

  function Seconds(nowMs: nat): nat {
    nowMs / 1000
  }

  /** `jwt.sign({userId}, secret, {expiresIn})` at time `nowMs`. */
  function Sign(jwt: Jwt, userId: nat, nowMs: nat, lifetimeSecs: nat): string {
    jwt.encode(Claims(userId, Seconds(nowMs), Seconds(nowMs) + lifetimeSecs))
  }

  function GenerateAccessToken(jwt: Jwt, userId: nat, nowMs: nat): string {
    Sign(jwt, userId, nowMs, ACCESS_LIFETIME_SECS)
  }

  function GenerateRefreshToken(jwt: Jwt, cfg: Config, userId: nat, nowMs: nat): string {
    Sign(jwt, userId, nowMs, RefreshLifetime(cfg))
  }

  /** `verifyToken`: the payload of a token whose signature checks and whose
      expiry second has not been reached; `None` (the source's `null`) for
      every failure, malformed, forged and expired alike. */
  function VerifyToken(jwt: Jwt, token: string, nowMs: nat): (r: Option<Claims>)
    ensures r.Some? ==> jwt.verify(token) == r && Seconds(nowMs) < r.value.exp
    ensures r.None? <==> jwt.verify(token).None? || jwt.verify(token).value.exp <= Seconds(nowMs)
  {
    match jwt.verify(token)
    case None => None
    case Some(c) => if Seconds(nowMs) < c.exp then Some(c) else None
  }

  /** A row of the `refresh_tokens` table. */
  datatype TokenRow = TokenRow(userId: nat, token: string, expiresAt: nat)

  /** `storeRefreshToken`: one new row expiring seven days from now; nothing
      is removed and several rows per user may coexist. */
  function StoreRefreshToken(rows: seq<TokenRow>, userId: nat, token: string, nowMs: nat): (r: seq<TokenRow>)
    ensures |r| == |rows| + 1 && r[..|rows|] == rows
    ensures multiset(r) == multiset(rows) + multiset{TokenRow(userId, token, nowMs + ROW_LIFETIME_MS)}
  {
    rows + [TokenRow(userId, token, nowMs + ROW_LIFETIME_MS)]
  }

  /** `deleteRefreshToken`: every row holding `token` goes, every other row
      stays, with its multiplicity and in order. */
  function DeleteRefreshToken(rows: seq<TokenRow>, token: string): (r: seq<TokenRow>)
    ensures IsSubsequence(r, rows)
    ensures forall x :: multiset(r)[x] == if x.token == token then 0 else multiset(rows)[x]
  {
    Filter(rows, (x: TokenRow) => x.token != token)
  }

  /** `deleteAllUserTokens`: every row of `userId` goes, other users' rows
      stay. */
  function DeleteAllUserTokens(rows: seq<TokenRow>, userId: nat): (r: seq<TokenRow>)
    ensures IsSubsequence(r, rows)
    ensures forall x :: multiset(r)[x] == if x.userId == userId then 0 else multiset(rows)[x]
  {
    Filter(rows, (x: TokenRow) => x.userId != userId)
  }

  /** Deleting a token twice is deleting it once. */
  lemma DeleteRefreshTokenIdempotent(rows: seq<TokenRow>, token: string)
    ensures DeleteRefreshToken(DeleteRefreshToken(rows, token), token) == DeleteRefreshToken(rows, token)
  {
    FilterIdempotent(rows, (x: TokenRow) => x.token != token);
  }

  /** Round trip of an access token: during the first 899 seconds after issue
      it verifies to the user it was minted for, with a 15-minute expiry. */
  lemma AccessTokenRoundTrip(jwt: Jwt, userId: nat, issuedMs: nat, nowMs: nat)
    requires Sound(jwt)
    requires issuedMs <= nowMs <= issuedMs + (ACCESS_LIFETIME_SECS - 1) * 1000
    ensures VerifyToken(jwt, GenerateAccessToken(jwt, userId, issuedMs), nowMs)
         == Some(Claims(userId, Seconds(issuedMs), Seconds(issuedMs) + ACCESS_LIFETIME_SECS))
  {
    var c := Claims(userId, Seconds(issuedMs), Seconds(issuedMs) + ACCESS_LIFETIME_SECS);
    assert jwt.verify(jwt.encode(c)) == Some(c);
    assert Seconds(nowMs) <= Seconds(issuedMs + (ACCESS_LIFETIME_SECS - 1) * 1000);
  }

  /** Once 15 minutes have elapsed an access token no longer verifies. */
  lemma AccessTokenExpires(jwt: Jwt, userId: nat, issuedMs: nat, nowMs: nat)
    requires Sound(jwt)
    requires nowMs >= issuedMs + ACCESS_LIFETIME_SECS * 1000
    ensures VerifyToken(jwt, GenerateAccessToken(jwt, userId, issuedMs), nowMs) == None
  {
    var c := Claims(userId, Seconds(issuedMs), Seconds(issuedMs) + ACCESS_LIFETIME_SECS);
    assert jwt.verify(jwt.encode(c)) == Some(c);
    assert Seconds(nowMs) >= Seconds(issuedMs + ACCESS_LIFETIME_SECS * 1000);
  }

  /** A refresh token names its user and carries the configured lifetime
      (seven days by default). */
  lemma RefreshTokenClaims(jwt: Jwt, cfg: Config, userId: nat, issuedMs: nat)
    requires Sound(jwt)
    ensures var c := jwt.verify(GenerateRefreshToken(jwt, cfg, userId, issuedMs));
            && c.Some? && c.value.userId == userId
            && c.value.exp - c.value.iat == RefreshLifetime(cfg)
            && (cfg.jwtExpire.None? ==> c.value.exp - c.value.iat == 7 * 24 * 60 * 60)
  {
    var c := Claims(userId, Seconds(issuedMs), Seconds(issuedMs) + RefreshLifetime(cfg));
    assert jwt.verify(jwt.encode(c)) == Some(c);
  }

  /** With a `JWT_EXPIRE` shorter than seven days the signature expires while
      the stored row is still live. */
  lemma ShortLifetimeOutlivedByRow(jwt: Jwt, cfg: Config, userId: nat, issuedMs: nat)
    requires Sound(jwt)
    requires RefreshLifetime(cfg) < DEFAULT_REFRESH_LIFETIME_SECS
    ensures var token := GenerateRefreshToken(jwt, cfg, userId, issuedMs);
            var at := issuedMs + RefreshLifetime(cfg) * 1000;
            var row := StoreRefreshToken([], userId, token, issuedMs)[0];
            VerifyToken(jwt, token, at) == None && !(row.expiresAt < at)
  {
    var c := Claims(userId, Seconds(issuedMs), Seconds(issuedMs) + RefreshLifetime(cfg));
    assert jwt.verify(jwt.encode(c)) == Some(c);
    assert Seconds(issuedMs + RefreshLifetime(cfg) * 1000) == Seconds(issuedMs) + RefreshLifetime(cfg);
  }

  /** With a `JWT_EXPIRE` longer than seven days (and a second) the row
      expires while the signature still verifies. */
  lemma LongLifetimeOutlivesRow(jwt: Jwt, cfg: Config, userId: nat, issuedMs: nat)
    requires Sound(jwt)
    requires RefreshLifetime(cfg) > DEFAULT_REFRESH_LIFETIME_SECS + 1
    ensures var token := GenerateRefreshToken(jwt, cfg, userId, issuedMs);
            var at := issuedMs + ROW_LIFETIME_MS + 1;
            var row := StoreRefreshToken([], userId, token, issuedMs)[0];
            VerifyToken(jwt, token, at).Some? && row.expiresAt < at
  {
    var c := Claims(userId, Seconds(issuedMs), Seconds(issuedMs) + RefreshLifetime(cfg));
    assert jwt.verify(jwt.encode(c)) == Some(c);
    assert Seconds(issuedMs + ROW_LIFETIME_MS + 1) <= Seconds(issuedMs) + DEFAULT_REFRESH_LIFETIME_SECS + 1;
  }
}
