/** Server-side state: the two tables, the next value of the users id
    sequence, and the environment (signing and hashing oracles, token
    configuration, client origin). */
module Server {
  import opened Common
  import opened Users
  import opened Tokens
  import opened Http

  datatype Db = Db(users: seq<User>, tokens: seq<TokenRow>, nextId: nat)

  datatype Env = Env(jwt: Jwt, hasher: Hasher, cfg: Config, clientUrl: string)

  /** A handler's effect: the new tables and the response sent. */
  datatype Step = Step(db: Db, response: Response)

  /** The reachable states: the table constraints hold, every id was drawn
      from the sequence, and every local account has a password hash. */
  predicate Valid(db: Db) {
    && WellFormed(db.users)
    && (forall u :: u in db.users ==> u.id < db.nextId)
    && (forall u :: u in db.users && u.provider == Local ==> u.password.Some?)
  }

  /** Appending a row with a fresh id, email and Google id keeps the table
      valid. */
  lemma AppendFresh(db: Db, u: User)
    requires Valid(db)
    requires u.id == db.nextId
    requires FindByEmail(db.users, u.email).None?
    requires u.googleId.Some? ==> FindByGoogleId(db.users, u.googleId.value).None?
    requires u.provider == Local ==> u.password.Some?
    ensures Valid(db.(users := db.users + [u], nextId := db.nextId + 1))
  {
    var users := db.users + [u];
    forall i, j | 0 <= i < j < |users|
      ensures users[i].id != users[j].id && users[i].email != users[j].email
      ensures users[i].googleId.Some? ==> users[i].googleId != users[j].googleId
    {
      if j == |users| - 1 {
        assert users[i] in db.users;
      }
    }
  }
}
