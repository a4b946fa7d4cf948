/** Browser token storage (client/src/utils/tokenManager.js): two
    `localStorage` entries, and the local expiry check that decodes a token
    without verifying its signature. Client time is in milliseconds. */
module TokenManager {
  import opened Common
  import opened Tokens

  /** The `accessToken` and `refreshToken` keys of `localStorage`. */
  datatype Slot = AccessSlot | RefreshSlot

  type TokenStore = map<Slot, string>

  function GetAccessToken(store: TokenStore): (t: Option<string>)
    ensures t.Some? <==> AccessSlot in store
  {
    if AccessSlot in store then Some(store[AccessSlot]) else None
  }

  function GetRefreshToken(store: TokenStore): (t: Option<string>)
    ensures t.Some? <==> RefreshSlot in store
  {
    if RefreshSlot in store then Some(store[RefreshSlot]) else None
  }

  function SetTokens(store: TokenStore, access: string, refresh: string): (s: TokenStore)
    ensures GetAccessToken(s) == Some(access) && GetRefreshToken(s) == Some(refresh)
  {
    store[AccessSlot := access][RefreshSlot := refresh]
  }

  function ClearTokens(store: TokenStore): (s: TokenStore)
    ensures GetAccessToken(s) == None && GetRefreshToken(s) == None
  {
    store - {AccessSlot, RefreshSlot}
  }

  /** A two-slot store is determined by what its getters return. */
  lemma StoreDeterminedByGetters(a: TokenStore, b: TokenStore)
    requires GetAccessToken(a) == GetAccessToken(b) && GetRefreshToken(a) == GetRefreshToken(b)
    ensures a == b
  {
    forall s | s in a ensures s in b && a[s] == b[s] {
      if s == AccessSlot {
        assert GetAccessToken(a) == Some(a[s]);
      } else {
        assert GetRefreshToken(a) == Some(a[s]);
      }
    }
    forall s | s in b ensures s in a {
      if s == AccessSlot {
        assert GetAccessToken(b).Some?;
      } else {
        assert GetRefreshToken(b).Some?;
      }
    }
  }

  /** `isTokenExpired`: falsy and undecodable tokens count as expired; a
      decodable one is expired when `exp < Date.now() / 1000`, a real
      division, so at `exp * 1000` milliseconds exactly it is not yet. */
  function IsTokenExpired(jwt: Jwt, token: Option<string>, nowMs: nat): (expired: bool)
    ensures !Truthy(token) ==> expired
    ensures Truthy(token) && jwt.decode(token.value).None? ==> expired
    ensures Truthy(token) && jwt.decode(token.value).Some? ==>
              (expired <==> jwt.decode(token.value).value.exp * 1000 < nowMs)
  {
    if !Truthy(token) then true
    else match jwt.decode(token.value)
      case None => true
      case Some(c) => c.exp * 1000 < nowMs
  }

  /** `getUserFromToken`: the decoded payload, `None` (the source's `null`)
      for a falsy or undecodable token. */
  function GetUserFromToken(jwt: Jwt, token: Option<string>): (r: Option<Claims>)
    ensures !Truthy(token) ==> r.None?
    ensures Truthy(token) ==> r == jwt.decode(token.value)
  {
    if !Truthy(token) then None else jwt.decode(token.value)
  }

  /** The browser's local check and the server's verification agree on
      every validly signed token except at the single millisecond
      `exp * 1000`, where the browser still trusts a token the server already
      rejects. */
  lemma LocalExpiryAgreesWithServer(jwt: Jwt, token: string, nowMs: nat)
    requires Sound(jwt)
    requires jwt.verify(token).Some? && token != ""
    ensures IsTokenExpired(jwt, Some(token), nowMs)
         <==> VerifyToken(jwt, token, nowMs).None? && nowMs != jwt.verify(token).value.exp * 1000
  {
    var c := jwt.verify(token).value;
    assert jwt.decode(token) == Some(c);
    if c.exp * 1000 < nowMs {
      assert c.exp <= Seconds(nowMs);
    } else if nowMs < c.exp * 1000 {
      assert Seconds(nowMs) < c.exp;
    } else {
      assert Seconds(nowMs) == c.exp;
    }
  }
}
