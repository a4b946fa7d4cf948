/** Google identity resolution (server/config/passport.js): the verify
    callback of the Google strategy and the session (de)serialisers. */
module Passport {
  import opened Common
  import opened Users
  import opened Http
  import opened Server

  /** The provider's profile. `emails` is empty when the profile carries none;
      `photos` is `None` when the `photos` property is absent (reading
      `photos[0]` then throws), `Some([])` when it is an empty list. */
  datatype Profile = Profile(id: string, displayName: string, emails: seq<string>, photos: Option<seq<string>>)

  /** What the callback hands to `done`: a user, or an error (and no user). */
  datatype Done = Authenticated(user: User) | StrategyError

  datatype Resolution = Resolution(db: Db, done: Done)

  /** `profile.photos[0]?.value || null`, when `photos` is present. */
  function PictureOf(photos: seq<string>): (p: Option<string>)
    ensures p.Some? <==> |photos| > 0 && photos[0] != ""
    ensures p.Some? ==> p.value == photos[0]
  {
    if |photos| > 0 && photos[0] != "" then Some(photos[0]) else None
  }

  /** The in-place link of an email-matched account: Google id, picture and
      provider change; password, name, id and everything else stay. */
  function Link(u: User, googleId: string, picture: Option<string>): (v: User)
    ensures v.id == u.id && v.email == u.email && v.password == u.password && v.name == u.name
    ensures v.googleId == Some(googleId) && v.profilePicture == picture && v.provider == Google
    ensures v.isVerified == u.isVerified && v.createdAt == u.createdAt
  {
    u.(googleId := Some(googleId), profilePicture := picture, provider := Google)
  }

  /** `UPDATE users SET ... WHERE email = $1`: every row with that email is
      linked, every other row is untouched. */
  function LinkByEmail(users: seq<User>, email: string, googleId: string, picture: Option<string>): (r: seq<User>)
    ensures |r| == |users|
    ensures forall i :: 0 <= i < |users| ==>
              r[i] == if users[i].email == email then Link(users[i], googleId, picture) else users[i]
  {
    seq(|users|, i requires 0 <= i < |users| =>
      if users[i].email == email then Link(users[i], googleId, picture) else users[i])
  }

  /** The strategy's verify callback. `storeDown` makes every query throw. */
  function ResolveGoogleUser(db: Db, nowMs: nat, profile: Profile, storeDown: bool): (r: Resolution)
    ensures r.done.StrategyError? ==> r.db == db
    ensures storeDown ==> r == Resolution(db, StrategyError)
    ensures !storeDown && FindByGoogleId(db.users, profile.id).Some? ==>
              r == Resolution(db, Authenticated(FindByGoogleId(db.users, profile.id).value))
    ensures !storeDown && FindByGoogleId(db.users, profile.id).None? && |profile.emails| == 0 ==>
              r == Resolution(db, StrategyError)
    ensures !storeDown && FindByGoogleId(db.users, profile.id).None? && |profile.emails| > 0 ==>
              var email := profile.emails[0];
              && (profile.photos.None? ==> r == Resolution(db, StrategyError))
              && (profile.photos.Some? && FindByEmail(db.users, email).Some? ==>
                    var picture := PictureOf(profile.photos.value);
                    && r.db == db.(users := LinkByEmail(db.users, email, profile.id, picture))
                    && r.done == Authenticated(Link(FindByEmail(db.users, email).value, profile.id, picture)))
              && (profile.photos.Some? && FindByEmail(db.users, email).None? ==>
                    |r.db.users| == |db.users| + 1 &&
                    var u := r.db.users[|db.users|];
                    && r.db == db.(users := db.users + [u], nextId := db.nextId + 1)
                    && r.done == Authenticated(u)
                    && u.id == db.nextId && u.email == email && u.name == profile.displayName
                    && u.googleId == Some(profile.id) && u.profilePicture == PictureOf(profile.photos.value)
                    && u.provider == Google && u.isVerified && u.password.None?)
  {
    if storeDown then Resolution(db, StrategyError)
    else match FindByGoogleId(db.users, profile.id)
      case Some(u) => Resolution(db, Authenticated(u))
      case None =>
        if |profile.emails| == 0 then Resolution(db, StrategyError)
        else
          var email := profile.emails[0];
          match FindByEmail(db.users, email)
          case Some(u) =>
            if profile.photos.None? then Resolution(db, StrategyError)
            else
              var picture := PictureOf(profile.photos.value);
              Resolution(db.(users := LinkByEmail(db.users, email, profile.id, picture)),
                         Authenticated(Link(u, profile.id, picture)))
          case None =>
            if profile.photos.None? then Resolution(db, StrategyError)
            else
              var u := User(db.nextId, profile.displayName, email, None, Some(profile.id),
                            PictureOf(profile.photos.value), Google, true, nowMs);
              var users := db.users + [u];
              assert users[|db.users|] == u;
              Resolution(db.(users := users, nextId := db.nextId + 1), Authenticated(u))
  }

  /** `serializeUser`: the session keeps the user's id only. */
  function SerializeUser(u: User): nat {
    u.id
  }

  /** `deserializeUser`: the public columns of the row with that id. */
  function DeserializeUser(db: Db, id: nat): Option<SafeUser> {
    match FindById(db.users, id)
    case None => None
    case Some(u) => Some(Safe(u))
  }

  /** Serialising a stored user and deserialising the id gives back that
      user's public columns. */
  lemma SessionRoundTrip(db: Db, u: User)
    requires Valid(db) && u in db.users
    ensures DeserializeUser(db, SerializeUser(u)) == Some(Safe(u))
  {
    IdDeterminesRow(db.users, FindById(db.users, u.id).value, u);
  }
}
