/**
 * The API tests of tests/test_api.py, replayed in file order against one store, as the
 * tests share one database for the whole session: the superuser bootstrap seeds it
 * (admin@example.com gets id 1) and every test sees the users the earlier tests made.
 * The hasher, the salts, the codec, the configuration and the clock are arbitrary,
 * subject to the two library laws.
 */
module ApiScenarios {
  import opened Wrappers
  import opened Http
  import opened Schemas
  import opened Crypto
  import opened Crud
  import opened Security
  import opened Deps
  import opened InitDb
  import Main

  const AdminEmail: Email := "admin@example.com"
  const AdminPass := "admin"
  const TestPass := "fake_pass_123"

  /** Every stored row has one of the `seen` emails. */
  ghost predicate EmailsAmong(rows: map<int, UserInDB>, seen: set<Email>) {
    forall id :: id in rows ==> rows[id].email in seen
  }

  /**
   * The database between two tests: valid, with unique emails, all among `seen`, the
   * bootstrapped superuser under id 1, and `next` as the id the next insert gets.
   */
  ghost predicate Between(store: UserStore, hasher: Hasher, salt: Salt, seen: set<Email>, next: int)
    reads store
  {
    && store.Valid() && UniqueEmails(store.rows) && EmailsAmong(store.rows, seen)
    && store.nextId == next
    && 1 in store.rows && store.rows[1] == UserInDB(1, AdminEmail, None, hasher.hash(AdminPass, salt), true, true)
  }

  /** Adding a row with a new email keeps the emails among the old ones and that email. */
  lemma InsertEmailsAmong(rows: map<int, UserInDB>, seen: set<Email>, id: int, u: UserInDB)
    requires EmailsAmong(rows, seen)
    ensures EmailsAmong(rows[id := u], seen + {u.email})
  {
  }

  /** The session fixture: migrations, then `create_superuser` with admin@example.com / admin. */
  method SeededStore(hasher: Hasher, salt: Salt) returns (store: UserStore)
    ensures fresh(store) && Between(store, hasher, salt, {AdminEmail}, 2)
    ensures store.rows == map[1 := UserInDB(1, AdminEmail, None, hasher.hash(AdminPass, salt), true, true)]
  {
    store := new UserStore();
    CreateSuperuser(store, hasher, salt, AdminEmail, AdminPass);
  }

  /**
   * `authentication_token_from_email` of tests/utils.py: creates the user through
   * `crud.create_user` when no user has the email, then logs in through `POST /token`.
   * The token it answers resolves, at the same time, to the stored user with that email.
   */
  method TokenFromEmail(store: UserStore, hasher: Hasher, salt: Salt, jwt: JwtCodec, cfg: Config, now: int,
                        email: Email, password: string, fullName: Option<string>) returns (token: Option<string>)
    requires store.Valid() && UniqueEmails(store.rows)
    requires HasherSound(hasher) && JwtSound(jwt) && cfg.access_token_expire_minutes >= 0
    requires forall id :: id in store.rows && store.rows[id].email == email ==> hasher.verify(password, store.rows[id].hashed_password)
    modifies store
    ensures store.Valid() && UniqueEmails(store.rows)
    ensures old(HasEmail(store.rows, email)) ==> store.rows == old(store.rows) && store.nextId == old(store.nextId)
    ensures !old(HasEmail(store.rows, email)) ==>
      && store.rows == old(store.rows)[old(store.nextId) := UserInDB(old(store.nextId), email, fullName, hasher.hash(password, salt), true, false)]
      && store.nextId == old(store.nextId) + 1
    ensures HasEmail(store.rows, email)
    ensures GetCurrentUser(store, jwt, cfg, now, token) == Ok(store.GetUserByEmail(email).value)
  {
    var user := store.GetUserByEmail(email);
    if user.None? {
      var created := store.CreateUser(UserCreate(email, password, full_name := fullName), hasher, salt);
      InsertKeepsUnique(old(store.rows), created.id, created);
      assert store.rows[created.id].email == email;
    }
    var u := store.GetUserByEmail(email).value;
    LookupFindsUnique(store, u);
    var login := Main.Login(store, hasher, jwt, cfg, now, email, password);
    Main.LoginRoundTrip(store, hasher, jwt, cfg, now, now, email, password);
    token := Some(login.value.access_token);
  }

  /** test_create_user: registering Josh answers id 2, active, not a superuser. */
  method TestCreateUser(store: UserStore, hasher: Hasher, salt: Salt, salt': Salt) returns (resp: Result<User>)
    requires Between(store, hasher, salt, {AdminEmail}, 2)
    modifies store
    ensures Between(store, hasher, salt, {AdminEmail, "josh@example.com"}, 3)
    ensures resp == Ok(User(2, "josh@example.com", Some("Josh Doe"), true, false))
  {
    var josh := UserCreate("josh@example.com", TestPass, full_name := Some("Josh Doe"));
    resp := Main.CreateUser(store, hasher, salt', josh);
    InsertEmailsAmong(old(store.rows), {AdminEmail}, 2, store.rows[2]);
  }

  /** test_login_user: Matt, created through `crud.create_user`, gets a bearer token. */
  method TestLoginUser(store: UserStore, hasher: Hasher, salt: Salt, salt': Salt, jwt: JwtCodec, cfg: Config, now: int)
    returns (resp: Result<Token>)
    requires HasherSound(hasher)
    requires Between(store, hasher, salt, {AdminEmail, "josh@example.com"}, 3)
    modifies store
    ensures Between(store, hasher, salt, {AdminEmail, "josh@example.com", "matt@example.com"}, 4)
    ensures resp.Ok? && resp.value.token_type == "bearer"
  {
    var matt := store.CreateUser(UserCreate("matt@example.com", TestPass, full_name := Some("Matt Doe")), hasher, salt');
    InsertKeepsUnique(old(store.rows), matt.id, matt);
    InsertEmailsAmong(old(store.rows), {AdminEmail, "josh@example.com"}, 3, matt);
    AuthenticateCreated(store, hasher, matt, TestPass, salt');
    resp := Main.Login(store, hasher, jwt, cfg, now, "matt@example.com", TestPass);
  }

  /** test_get_authenticated_active_user: John, created by the token helper, reads himself back as id 4. */
  method TestGetAuthenticatedActiveUser(store: UserStore, hasher: Hasher, salt: Salt, salt': Salt,
                                        jwt: JwtCodec, cfg: Config, now: int) returns (resp: Result<User>)
    requires HasherSound(hasher) && JwtSound(jwt) && cfg.access_token_expire_minutes >= 0
    requires Between(store, hasher, salt, {AdminEmail, "josh@example.com", "matt@example.com"}, 4)
    modifies store
    ensures Between(store, hasher, salt, {AdminEmail, "josh@example.com", "matt@example.com", "john@example.com"}, 5)
    ensures resp == Ok(User(4, "john@example.com", Some("John Doe"), true, false))
  {
    var token := TokenFromEmail(store, hasher, salt', jwt, cfg, now, "john@example.com", TestPass, Some("John Doe"));
    InsertEmailsAmong(old(store.rows), {AdminEmail, "josh@example.com", "matt@example.com"}, 4, store.rows[4]);
    LookupFindsUnique(store, store.rows[4]);
    resp := Main.ReadUsersMe(store, jwt, cfg, now, token);
  }

  /** test_get_authenticated_superuser: the bootstrapped superuser reads itself back as id 1. */
  method TestGetAuthenticatedSuperuser(store: UserStore, hasher: Hasher, salt: Salt, jwt: JwtCodec, cfg: Config, now: int,
                                       ghost seen: set<Email>, ghost next: int) returns (resp: Result<User>)
    requires HasherSound(hasher) && JwtSound(jwt) && cfg.access_token_expire_minutes >= 0
    requires Between(store, hasher, salt, seen, next)
    modifies store
    ensures Between(store, hasher, salt, seen, next) && store.rows == old(store.rows)
    ensures resp == Ok(User(1, AdminEmail, None, true, true))
  {
    var token := SuperuserToken(store, hasher, salt, jwt, cfg, now, seen, next);
    resp := Main.ReadUsersMe(store, jwt, cfg, now, token);
  }

  /** test_get_unauthenticated_user: `GET /users/me` without a token gets 401 "Not authenticated". */
  method TestGetUnauthenticatedUser(store: UserStore, jwt: JwtCodec, cfg: Config, now: int) returns (resp: Result<User>)
    requires store.Valid()
    ensures resp == Err(NotAuthenticated)
  {
    resp := Main.ReadUsersMe(store, jwt, cfg, now, None);
  }

  /** The `superuser_token_headers` fixture: the token helper for the bootstrapped superuser, which creates nothing. */
  method SuperuserToken(store: UserStore, hasher: Hasher, salt: Salt, jwt: JwtCodec, cfg: Config, now: int,
                        ghost seen: set<Email>, ghost next: int) returns (token: Option<string>)
    requires HasherSound(hasher) && JwtSound(jwt) && cfg.access_token_expire_minutes >= 0
    requires Between(store, hasher, salt, seen, next)
    modifies store
    ensures Between(store, hasher, salt, seen, next) && store.rows == old(store.rows)
    ensures GetCurrentUser(store, jwt, cfg, now, token) == Ok(store.rows[1])
  {
    LookupFindsUnique(store, store.rows[1]);
    token := TokenFromEmail(store, hasher, salt, jwt, cfg, now, AdminEmail, AdminPass, None);
  }

  /**
   * test_set_user_as_inactive_with_superuser: Jen is created through `crud.create_user`
   * as id 5; the superuser's `PUT /users/5` with `is_active: false` answers her updated
   * record.
   */
  method TestSetUserAsInactiveWithSuperuser(store: UserStore, hasher: Hasher, salt: Salt, salt': Salt,
                                            jwt: JwtCodec, cfg: Config, now: int,
                                            ghost seen: set<Email>) returns (resp: Result<User>)
    requires HasherSound(hasher) && JwtSound(jwt) && cfg.access_token_expire_minutes >= 0
    requires "jen@example.com" !in seen
    requires Between(store, hasher, salt, seen, 5)
    modifies store
    ensures Between(store, hasher, salt, seen + {"jen@example.com"}, 6)
    ensures resp == Ok(User(5, "jen@example.com", Some("Jen Doe"), false, false))
  {
    var jen := store.CreateUser(UserCreate("jen@example.com", TestPass, full_name := Some("Jen Doe")), hasher, salt');
    InsertKeepsUnique(old(store.rows), jen.id, jen);
    InsertEmailsAmong(old(store.rows), seen, 5, jen);
    ghost var created := store.rows;
    var token := SuperuserToken(store, hasher, salt, jwt, cfg, now, seen + {"jen@example.com"}, 6);
    resp := Main.UpdateUser(store, jwt, cfg, now, token, 5, UserUpdate(is_active := Some(false)));
    InsertEmailsAmong(created, seen + {"jen@example.com"}, 5, store.rows[5]);
    assert seen + {"jen@example.com"} + {"jen@example.com"} == seen + {"jen@example.com"};
  }

  /**
   * test_get_inactive_user: Allen is created as id 6 and deactivated through
   * `crud.update_user`; he can still log in, but his `GET /users/me` gets 400
   * "Inactive user".
   */
  method TestGetInactiveUser(store: UserStore, hasher: Hasher, salt: Salt, salt': Salt,
                             jwt: JwtCodec, cfg: Config, now: int, ghost seen: set<Email>) returns (resp: Result<User>)
    requires HasherSound(hasher) && JwtSound(jwt) && cfg.access_token_expire_minutes >= 0
    requires "allen@example.com" !in seen
    requires Between(store, hasher, salt, seen, 6)
    modifies store
    ensures store.Valid() && UniqueEmails(store.rows) && store.nextId == 7
    ensures resp == Err(InactiveUser)
  {
    var allen := store.CreateUser(UserCreate("allen@example.com", TestPass, full_name := Some("Allen Doe")), hasher, salt');
    InsertKeepsUnique(old(store.rows), allen.id, allen);
    var patched := store.UpdateUser(6, UserUpdate(is_active := Some(false)));
    PatchKeepsUnique(old(store.rows)[6 := allen], 6, UserUpdate(is_active := Some(false)));
    var token := TokenFromEmail(store, hasher, salt', jwt, cfg, now, "allen@example.com", TestPass, Some("Allen Doe"));
    LookupFindsUnique(store, store.rows[6]);
    resp := Main.ReadUsersMe(store, jwt, cfg, now, token);
  }

  /**
   * The whole of tests/test_api.py after the bootstrap, in file order, with the responses
   * the tests expect (the "Hello World" root route is not modelled).
   */
  method TestApi(hasher: Hasher, jwt: JwtCodec, cfg: Config, now: int, salts: seq<Salt>)
    returns (created: Result<User>, login: Result<Token>, active: Result<User>, superuser: Result<User>,
             anonymous: Result<User>, deactivated: Result<User>, inactive: Result<User>)
    requires HasherSound(hasher) && JwtSound(jwt) && cfg.access_token_expire_minutes >= 0
    requires |salts| == 6
    ensures created == Ok(User(2, "josh@example.com", Some("Josh Doe"), true, false))
    ensures login.Ok? && login.value.token_type == "bearer"
    ensures active == Ok(User(4, "john@example.com", Some("John Doe"), true, false))
    ensures superuser == Ok(User(1, AdminEmail, None, true, true))
    ensures anonymous == Err(NotAuthenticated)
    ensures deactivated == Ok(User(5, "jen@example.com", Some("Jen Doe"), false, false))
    ensures inactive == Err(InactiveUser)
  {
    var store := SeededStore(hasher, salts[0]);
    created := TestCreateUser(store, hasher, salts[0], salts[1]);
    login := TestLoginUser(store, hasher, salts[0], salts[2], jwt, cfg, now);
    active := TestGetAuthenticatedActiveUser(store, hasher, salts[0], salts[3], jwt, cfg, now);
    ghost var seen: set<Email> := {AdminEmail, "josh@example.com", "matt@example.com", "john@example.com"};
    superuser := TestGetAuthenticatedSuperuser(store, hasher, salts[0], jwt, cfg, now, seen, 5);
    anonymous := TestGetUnauthenticatedUser(store, jwt, cfg, now);
    deactivated := TestSetUserAsInactiveWithSuperuser(store, hasher, salts[0], salts[4], jwt, cfg, now, seen);
    inactive := TestGetInactiveUser(store, hasher, salts[0], salts[5], jwt, cfg, now, seen + {"jen@example.com"});
  }
}
