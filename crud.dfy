/**
 * The user store and its operations (oauth_app/app/crud.py). The `users` table is a map
 * from id to row; ids come from a counter, as a serial primary key does.
 */
module Crud {
  import opened Wrappers
  import opened Schemas
  import opened Crypto

  /** Some stored row has exactly this email. */
  predicate HasEmail(rows: map<int, UserInDB>, email: Email) {
    exists id :: id in rows && rows[id].email == email
  }

  /** No two stored rows share an email. */
  ghost predicate UniqueEmails(rows: map<int, UserInDB>) {
    forall i, j :: i in rows && j in rows && rows[i].email == rows[j].email ==> i == j
  }

  /**
   * A row after a partial update: the fields that are columns of the row and were set
   * in the patch take the patch's value; everything else is kept. The patch's
   * `password` names no column, so it is ignored.
   */
  function ApplyPatch(u: UserInDB, patch: UserUpdate): (r: UserInDB)
    ensures r.id == u.id && r.hashed_password == u.hashed_password
    ensures patch.email.None? ==> r.email == u.email
    ensures patch.email.Some? ==> r.email == patch.email.value
    ensures patch.full_name.None? ==> r.full_name == u.full_name
    ensures patch.full_name.Some? ==> r.full_name == patch.full_name.value
    ensures patch.is_active.None? ==> r.is_active == u.is_active
    ensures patch.is_active.Some? ==> r.is_active == patch.is_active.value
    ensures patch.is_superuser.None? ==> r.is_superuser == u.is_superuser
    ensures patch.is_superuser.Some? ==> r.is_superuser == patch.is_superuser.value
  {
    u.(email := patch.email.GetOr(u.email),
       full_name := patch.full_name.GetOr(u.full_name),
       is_active := patch.is_active.GetOr(u.is_active),
       is_superuser := patch.is_superuser.GetOr(u.is_superuser))
  }

  /** Applying the same patch a second time changes nothing more. */
  lemma PatchIdempotent(u: UserInDB, patch: UserUpdate)
    ensures ApplyPatch(ApplyPatch(u, patch), patch) == ApplyPatch(u, patch)
  {
  }

  /** A password in the patch never reaches the stored row, in particular its hash. */
  lemma PatchIgnoresPassword(u: UserInDB, patch: UserUpdate, password: Option<string>)
    ensures ApplyPatch(u, patch.(password := password)) == ApplyPatch(u, patch)
    ensures ApplyPatch(u, patch).hashed_password == u.hashed_password
  {
  }

  /** An empty patch leaves the row as it was. */
  lemma EmptyPatchIsIdentity(u: UserInDB)
    ensures ApplyPatch(u, UserUpdate()) == u
  {
  }

  class UserStore {
    var rows: map<int, UserInDB>
    var nextId: int

    /** Each row is filed under its own id, and every id is below the next one to hand out. */
    ghost predicate Valid()
      reads this
    {
      && 1 <= nextId
      && forall id :: id in rows ==> 1 <= id < nextId && rows[id].id == id
    }

    /** An empty table whose first id will be 1. */
    constructor ()
      ensures Valid() && rows == map[] && nextId == 1
    {
      rows := map[];
      nextId := 1;
    }

    /** `get_user`: the row with that id, or none. */
    function GetUser(id: int): (r: Option<UserInDB>)
      reads this
      requires Valid()
      ensures r.Some? <==> id in rows
      ensures r.Some? ==> r.value == rows[id] && r.value.id == id
    {
      if id in rows then Some(rows[id]) else None
    }

    /** The lowest id from `start` on whose row has this email, scanning up to `nextId`. */
    function FirstWithEmail(email: Email, start: int): (r: Option<int>)
      reads this
      decreases nextId - start
      ensures r.Some? ==> start <= r.value < nextId && r.value in rows && rows[r.value].email == email
      ensures r.Some? ==> forall k :: start <= k < r.value && k in rows ==> rows[k].email != email
      ensures r.None? ==> forall k :: start <= k < nextId && k in rows ==> rows[k].email != email
    {
      if start >= nextId then None
      else if start in rows && rows[start].email == email then Some(start)
      else FirstWithEmail(email, start + 1)
    }

    /**
     * `get_user_by_email`: a stored row with exactly that email, or none when there is
     * none. The query has no ORDER BY; the model returns the match with the lowest id.
     */
    function GetUserByEmail(email: Email): (r: Option<UserInDB>)
      reads this
      requires Valid()
      ensures r.None? <==> !HasEmail(rows, email)
      ensures r.Some? ==> r.value.email == email && r.value.id in rows && rows[r.value.id] == r.value
      ensures r.Some? ==> forall id :: id in rows && rows[id].email == email ==> r.value.id <= id
    {
      match FirstWithEmail(email, 1)
      case None => None
      case Some(id) => Some(rows[id])
    }

    /**
     * `create_user`: stores a new row with the next id, the input's email, full name and
     * superuser flag, the hash of the password (never the password itself) and
     * `is_active` from the column default, whatever the input said. Existing rows are kept.
     */
    method CreateUser(user: UserCreate, hasher: Hasher, salt: Salt) returns (u: UserInDB)
      requires Valid()
      modifies this
      ensures Valid()
      ensures u.id == old(nextId) && u.id !in old(rows)
      ensures u.email == user.email && u.full_name == user.full_name
      ensures u.is_superuser == user.is_superuser && u.is_active
      ensures u.hashed_password == hasher.hash(user.password, salt)
      ensures rows == old(rows)[u.id := u] && |rows| == |old(rows)| + 1
      ensures nextId == old(nextId) + 1
    {
      var digest := hasher.hash(user.password, salt);
      u := UserInDB(nextId, user.email, user.full_name, digest, true, user.is_superuser);
      rows := rows[u.id := u];
      nextId := nextId + 1;
    }

    /**
     * `update_user`: sets, one column at a time, each field the patch sets, on the row
     * with id `id`; no other row changes and no id is handed out.
     */
    method UpdateUser(id: int, patch: UserUpdate) returns (u: UserInDB)
      requires Valid() && id in rows
      modifies this
      ensures Valid()
      ensures u == ApplyPatch(old(rows[id]), patch)
      ensures rows == old(rows)[id := u] && nextId == old(nextId)
    {
      u := rows[id];
      if patch.email.Some? {
        u := u.(email := patch.email.value);
      }
      if patch.full_name.Some? {
        u := u.(full_name := patch.full_name.value);
      }
      if patch.is_active.Some? {
        u := u.(is_active := patch.is_active.value);
      }
      if patch.is_superuser.Some? {
        u := u.(is_superuser := patch.is_superuser.value);
      }
      rows := rows[id := u];
    }
  }

  /** Under unique emails, looking an email up finds the one row that has it. */
  lemma LookupFindsUnique(store: UserStore, u: UserInDB)
    requires store.Valid() && UniqueEmails(store.rows)
    requires u.id in store.rows && store.rows[u.id] == u
    ensures store.GetUserByEmail(u.email) == Some(u)
  {
  }

  /** Adding a row whose email no stored row has keeps emails unique. */
  lemma InsertKeepsUnique(rows: map<int, UserInDB>, id: int, u: UserInDB)
    requires UniqueEmails(rows) && id !in rows && !HasEmail(rows, u.email)
    ensures UniqueEmails(rows[id := u])
  {
  }

  /** Patching a row keeps emails unique when the patch sets no email or one no other row has. */
  lemma PatchKeepsUnique(rows: map<int, UserInDB>, id: int, patch: UserUpdate)
    requires UniqueEmails(rows) && id in rows
    requires patch.email.Some? ==> forall k :: k in rows && k != id ==> rows[k].email != patch.email.value
    ensures UniqueEmails(rows[id := ApplyPatch(rows[id], patch)])
  {
  }
}
