/** The session gate `protect` (server/middleware/authMiddleware.js). */
module AuthMiddleware {
  import opened Common
  import opened Text
  import opened Users
  import opened Tokens
  import opened Http
  import opened Server

  const MSG_NO_TOKEN := "Not authorized, no token provided"
  const MSG_INVALID_TOKEN := "Not authorized, invalid token"
  const MSG_USER_NOT_FOUND := "User not found"
  const MSG_NOT_AUTHORIZED := "Not authorized"

  /** Either the request is answered here, or `next()` runs once with the
      attached user. */
  datatype Gate = Halt(response: Response) | Next(user: SafeUser)

  /** The token the gate takes from the header: the second space-separated
      piece of a header that starts with `Bearer`; `None` for `undefined`. */
  function BearerToken(authorization: Option<string>): (t: Option<string>)
    ensures t.Some? ==> authorization.Some? && StartsWith(authorization.value, "Bearer")
                        && |Split(authorization.value, ' ')| > 1 && t.value == Split(authorization.value, ' ')[1]
    ensures authorization.None? || !StartsWith(authorization.value, "Bearer") ==> t.None?
    ensures (authorization.Some? && StartsWith(authorization.value, "Bearer")
             && |Split(authorization.value, ' ')| > 1) ==> t == Some(Split(authorization.value, ' ')[1])
  {
    if authorization.Some? && authorization.value != "" && StartsWith(authorization.value, "Bearer") then
      var parts := Split(authorization.value, ' ');
      if |parts| > 1 then Some(parts[1]) else None
    else None
  }

  /** The header the client sends carries its token back to the gate intact
      when the token is non-empty and has no spaces. */
  lemma BearerRoundTrip(token: string)
    requires token != "" && ' ' !in token
    ensures BearerToken(Some("Bearer " + token)) == Some(token)
  {
    var h := "Bearer " + token;
    assert h == "Bearer" + [' '] + token;
    assert StartsWith(h, "Bearer");
    SplitNoSeparator("Bearer", ' ');
    SplitNoSeparator(token, ' ');
    SplitAtSeparator("Bearer", token, ' ');
  }

  /** `protect`. `storeDown` makes the user lookup throw; the catch answers
      401, never 500. */
  function Protect(db: Db, jwt: Jwt, nowMs: nat, authorization: Option<string>, storeDown: bool): (g: Gate)
    ensures g.Halt? ==> g.response.status == 401 && !g.response.success && g.response.body == NoData
    ensures !Truthy(BearerToken(authorization)) ==> g == Halt(Fail(401, MSG_NO_TOKEN))
    ensures Truthy(BearerToken(authorization))
            && VerifyToken(jwt, BearerToken(authorization).value, nowMs).None? ==>
              g == Halt(Fail(401, MSG_INVALID_TOKEN))
    ensures Truthy(BearerToken(authorization))
            && VerifyToken(jwt, BearerToken(authorization).value, nowMs).Some? ==>
              var id := VerifyToken(jwt, BearerToken(authorization).value, nowMs).value.userId;
              && (storeDown ==> g == Halt(Fail(401, MSG_NOT_AUTHORIZED)))
              && (!storeDown && FindById(db.users, id).None? ==> g == Halt(Fail(401, MSG_USER_NOT_FOUND)))
              && (!storeDown && FindById(db.users, id).Some? ==> g == Next(Safe(FindById(db.users, id).value)))
  {
    var token := BearerToken(authorization);
    if !Truthy(token) then Halt(Fail(401, MSG_NO_TOKEN))
    else match VerifyToken(jwt, token.value, nowMs)
      case None => Halt(Fail(401, MSG_INVALID_TOKEN))
      case Some(c) =>
        if storeDown then Halt(Fail(401, MSG_NOT_AUTHORIZED))
        else match FindById(db.users, c.userId)
          case None => Halt(Fail(401, MSG_USER_NOT_FOUND))
          case Some(u) => Next(Safe(u))
  }
}
