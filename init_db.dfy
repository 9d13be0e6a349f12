/**
 * Superuser bootstrap (oauth_app/app/database/init_db.py). The email and password,
 * read from SUPERUSER_EMAIL and SUPERUSER_PASS by the source, are parameters.
 */
module InitDb {
  import opened Wrappers
  import opened Schemas
  import opened Crypto
  import opened Crud

  /**
   * The table after the bootstrap: unchanged when some row already has the superuser's
   * email, whatever that row's flags; otherwise with an active superuser, without a full
   * name, added under the fresh id `nextId`. Existing rows are never changed.
   */
  function Bootstrapped(rows: map<int, UserInDB>, nextId: int, email: Email, digest: string): (r: map<int, UserInDB>)
    requires nextId !in rows
    ensures HasEmail(r, email)
    ensures forall id :: id in rows ==> id in r && r[id] == rows[id]
    ensures HasEmail(rows, email) ==> r == rows
    ensures !HasEmail(rows, email) ==> r.Keys == rows.Keys + {nextId}
    ensures !HasEmail(rows, email) ==> r[nextId] == UserInDB(nextId, email, None, digest, true, true)
    ensures !HasEmail(rows, email) ==>
      forall id :: id in r && r[id].email == email ==> r[id] == UserInDB(nextId, email, None, digest, true, true)
  {
    if HasEmail(rows, email) then rows
    else
      var r := rows[nextId := UserInDB(nextId, email, None, digest, true, true)];
      assert r[nextId].email == email;
      r
  }

  /** A second bootstrap, with any fresh id counter and any digest, leaves the table as the first left it. */
  lemma BootstrapIdempotent(rows: map<int, UserInDB>, nextId: int, nextId': int, email: Email, digest: string, digest': string)
    requires nextId !in rows && nextId' !in Bootstrapped(rows, nextId, email, digest)
    ensures var once := Bootstrapped(rows, nextId, email, digest);
      Bootstrapped(once, nextId', email, digest') == once
  {
  }

  /**
   * `create_superuser`: when no user has the superuser's email, creates one with that
   * email and password and `is_superuser` set; otherwise leaves the store as it is.
   */
  method CreateSuperuser(store: UserStore, hasher: Hasher, salt: Salt, superuserEmail: Email, superuserPass: string)
    requires store.Valid()
    modifies store
    ensures store.Valid()
    ensures store.rows == Bootstrapped(old(store.rows), old(store.nextId), superuserEmail, hasher.hash(superuserPass, salt))
    ensures store.nextId == if old(HasEmail(store.rows, superuserEmail)) then old(store.nextId) else old(store.nextId) + 1
    ensures UniqueEmails(old(store.rows)) ==> UniqueEmails(store.rows)
  {
    var user := store.GetUserByEmail(superuserEmail);
    if user.None? {
      var created := store.CreateUser(UserCreate(superuserEmail, superuserPass, is_superuser := true), hasher, salt);
      if UniqueEmails(old(store.rows)) {
        InsertKeepsUnique(old(store.rows), created.id, created);
      }
    }
  }
}
