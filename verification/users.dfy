/** The `users` table and the password-hashing oracle.

    A row is immutable data; the table is a sequence of rows. The database
    enforces unique `email` and unique non-null `google_id`; `WellFormed`
    states those constraints and the handlers are proved to keep them. */
module Users {
  import opened Common

  datatype Provider = Local | Google

  datatype User = User(
    id: nat,
    name: string,
    email: string,
    password: Option<string>,      // bcrypt hash; absent for Google-only accounts
    googleId: Option<string>,
    profilePicture: Option<string>,
    provider: Provider,
    isVerified: bool,
    createdAt: nat)

  /** bcrypt as an oracle: `hash(password, salt)` and `compare(password, hash)`. */
  datatype Hasher = Hasher(hash: (string, string) -> string, compare: (string, string) -> bool)

  /** The one property assumed of bcrypt: a password matches its own hash. */
  ghost predicate Sound(h: Hasher) {
    forall p, s :: h.compare(p, h.hash(p, s))
  }

  /** The table's uniqueness constraints (primary key, `email UNIQUE`,
      `google_id UNIQUE`). */
  predicate WellFormed(users: seq<User>) {
    forall i, j :: 0 <= i < j < |users| ==>
      && users[i].id != users[j].id
      && users[i].email != users[j].email
      && (users[i].googleId.Some? ==> users[i].googleId != users[j].googleId)
  }

  /** `SELECT * FROM users WHERE email = $1`, first row. */
  function FindByEmail(users: seq<User>, email: string): (r: Option<User>)
    ensures r.Some? ==> r.value in users && r.value.email == email
    ensures r.None? <==> forall u :: u in users ==> u.email != email
  {
    match Find(users, (u: User) => u.email == email)
    case None => None
    case Some(i) => Some(users[i])
  }

  /** `SELECT ... FROM users WHERE id = $1`, first row. */
  function FindById(users: seq<User>, id: nat): (r: Option<User>)
    ensures r.Some? ==> r.value in users && r.value.id == id
    ensures r.None? <==> forall u :: u in users ==> u.id != id
  {
    match Find(users, (u: User) => u.id == id)
    case None => None
    case Some(i) => Some(users[i])
  }

  /** `SELECT * FROM users WHERE google_id = $1`, first row. */
  function FindByGoogleId(users: seq<User>, googleId: string): (r: Option<User>)
    ensures r.Some? ==> r.value in users && r.value.googleId == Some(googleId)
    ensures r.None? <==> forall u :: u in users ==> u.googleId != Some(googleId)
  {
    match Find(users, (u: User) => u.googleId == Some(googleId))
    case None => None
    case Some(i) => Some(users[i])
  }

  /** In a well-formed table a row is determined by its email. */
  lemma EmailDeterminesRow(users: seq<User>, u: User, v: User)
    requires WellFormed(users)
    requires u in users && v in users && u.email == v.email
    ensures u == v
  {
    var i :| 0 <= i < |users| && users[i] == u;
    var j :| 0 <= j < |users| && users[j] == v;
  }

  /** In a well-formed table a row is determined by its id. */
  lemma IdDeterminesRow(users: seq<User>, u: User, v: User)
    requires WellFormed(users)
    requires u in users && v in users && u.id == v.id
    ensures u == v
  {
    var i :| 0 <= i < |users| && users[i] == u;
    var j :| 0 <= j < |users| && users[j] == v;
  }
}
