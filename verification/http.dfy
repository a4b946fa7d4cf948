/** The JSON wire format shared by the server handlers and the browser
    client: a response is a status code, the `success` flag, an optional
    `message` and a `data` payload. */
module Http {
  import opened Common
  import opened Users

  datatype Verb = Get | Post

  /** The user object returned by register and login (no password). */
  datatype UserView = UserView(
    id: nat, name: string, email: string, profilePicture: Option<string>, provider: Provider)

  /** The user attached to a request by the session gate and returned by
      `/auth/me`: the columns `id, email, name, profile_picture, provider,
      created_at` (no password). */
  datatype SafeUser = SafeUser(
    id: nat, email: string, name: string, profilePicture: Option<string>,
    provider: Provider, createdAt: nat)

  datatype Body =
    | NoData
    | Session(user: UserView, accessToken: string, refreshToken: string)
    | Renewed(accessToken: string)
    | Me(me: SafeUser)

  datatype Response = Response(status: nat, success: bool, message: Option<string>, body: Body)

  /** The JSON request body fields the auth endpoints read. */
  datatype Payload = Payload(
    name: Option<string>, email: Option<string>, password: Option<string>,
    refreshToken: Option<string>)

  const EMPTY_PAYLOAD := Payload(None, None, None, None)

  /** A request as it reaches the server: verb, path below `/api`, the
      `Authorization` header, and the JSON body. */
  datatype Request = Request(verb: Verb, path: string, authorization: Option<string>, payload: Payload)

  function Fail(status: nat, message: string): (r: Response)
    ensures !r.success && r.body == NoData
  {
    Response(status, false, Some(message), NoData)
  }

  /** A 2xx status, which the client library resolves rather than rejects. */
  predicate IsOk(status: nat) {
    200 <= status < 300
  }

  function View(u: User): UserView {
    UserView(u.id, u.name, u.email, u.profilePicture, u.provider)
  }

  function Safe(u: User): SafeUser {
    SafeUser(u.id, u.email, u.name, u.profilePicture, u.provider, u.createdAt)
  }
}
