/**
 * The request and response shapes of the service (oauth_app/app/schemas.py).
 * Pydantic inheritance is flattened: each shape lists the fields it inherits
 * from `UserBase` (email, full_name = None, is_active = true, is_superuser = false),
 * with the same defaults.
 */
module Schemas {
  import opened Wrappers

  /** Emails are opaque strings here: `EmailStr` validation is not modelled. */
  type Email = string

  /** Body of `POST /users`: the `UserBase` fields with their defaults and a required password. */
  datatype UserCreate = UserCreate(
    email: Email,
    password: string,
    full_name: Option<string> := None,
    is_active: bool := true,
    is_superuser: bool := false)

  /**
   * Body of `PUT /users/{id}`, as `dict(exclude_unset=True)` sees it: `None` means the
   * field was not set by the client, `Some(v)` that it was set to `v`. For `full_name`,
   * `Some(None)` is an explicit null. `password` is accepted but is not a column.
   */
  datatype UserUpdate = UserUpdate(
    email: Option<Email> := None,
    full_name: Option<Option<string>> := None,
    is_active: Option<bool> := None,
    is_superuser: Option<bool> := None,
    password: Option<string> := None)

  /** The public response shape: no password hash. */
  datatype User = User(
    id: int,
    email: Email,
    full_name: Option<string>,
    is_active: bool,
    is_superuser: bool)

  /** A stored user row: the response fields plus the password hash. */
  datatype UserInDB = UserInDB(
    id: int,
    email: Email,
    full_name: Option<string>,
    hashed_password: string,
    is_active: bool,
    is_superuser: bool)

  /** Body of a successful `POST /token`. */
  datatype Token = Token(access_token: string, token_type: string)

  /** What the access guard reads out of a decoded token: its subject, if any. */
  datatype TokenData = TokenData(email: Option<Email> := None)

  /** Serialises a stored row through the `User` response model, dropping the hash. */
  function ToUser(u: UserInDB): (r: User) {
    User(u.id, u.email, u.full_name, u.is_active, u.is_superuser)
  }

  /** The defaults a client gets by leaving fields out of a create or an update body. */
  lemma SchemaDefaults(email: Email, password: string)
    ensures UserCreate(email, password).full_name == None
    ensures UserCreate(email, password).is_active && !UserCreate(email, password).is_superuser
    ensures UserUpdate() == UserUpdate(None, None, None, None, None)
    ensures TokenData().email == None
  {
  }
}
