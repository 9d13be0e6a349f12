/**
 * The decision logic of the HTTP handlers (oauth_app/main.py). What FastAPI injects
 * (the store, the resolved caller, the clock, the configuration) is passed explicitly:
 * each handler takes the request's bearer token and runs the guard chain it declares.
 */
module Main {
  import opened Wrappers
  import opened Http
  import opened Schemas
  import opened Crypto
  import opened Crud
  import opened Security
  import opened Deps

  const EmailAlreadyRegistered := HttpError(400, "Email already registered", false)
  const UserDoesNotExist := HttpError(404, "The user with this username does not exist in the system", false)
  const IncorrectUsernameOrPassword := HttpError(401, "Incorrect username or password", true)

  /**
   * `POST /users`: refuses an email some user already has, leaving the store as it was;
   * otherwise creates exactly one user and returns it without its hash. The route is
   * what keeps emails unique.
   */
  method CreateUser(store: UserStore, hasher: Hasher, salt: Salt, user: UserCreate) returns (r: Result<User>)
    requires store.Valid()
    modifies store
    ensures store.Valid()
    ensures old(HasEmail(store.rows, user.email)) ==>
      r == Err(EmailAlreadyRegistered) && store.rows == old(store.rows) && store.nextId == old(store.nextId)
    ensures !old(HasEmail(store.rows, user.email)) ==>
      && r.Ok? && r.value.id == old(store.nextId) && store.nextId == old(store.nextId) + 1
      && r.value.id !in old(store.rows) && r.value.id in store.rows
      && store.rows == old(store.rows)[r.value.id := store.rows[r.value.id]]
      && r.value == ToUser(store.rows[r.value.id])
      && r.value.email == user.email && r.value.full_name == user.full_name
      && r.value.is_active && r.value.is_superuser == user.is_superuser
      && store.rows[r.value.id].hashed_password == hasher.hash(user.password, salt)
    ensures UniqueEmails(old(store.rows)) ==> UniqueEmails(store.rows)
  {
    var existing := store.GetUserByEmail(user.email);
    if existing.Some? {
      return Err(EmailAlreadyRegistered);
    }
    var created := store.CreateUser(user, hasher, salt);
    if UniqueEmails(old(store.rows)) {
      InsertKeepsUnique(old(store.rows), created.id, created);
    }
    r := Ok(ToUser(created));
  }

  /**
   * `PUT /users/{user_id}`: only an active superuser may call it; the caller's failure is
   * the answer otherwise. An unknown target id gives 404. Either way nothing changes.
   * Otherwise the target row gets the patch and is returned. Emails stay unique when the
   * patch does not give the target another user's email.
   */
  method UpdateUser(store: UserStore, jwt: JwtCodec, cfg: Config, now: int, token: Option<string>,
                    userId: int, patch: UserUpdate) returns (r: Result<User>)
    requires store.Valid()
    modifies store
    ensures store.Valid() && store.nextId == old(store.nextId)
    ensures var caller := old(CurrentActiveSuperuser(store, jwt, cfg, now, token));
      caller.Err? ==> r == Err(caller.error) && store.rows == old(store.rows)
    ensures var caller := old(CurrentActiveSuperuser(store, jwt, cfg, now, token));
      caller.Ok? && userId !in old(store.rows) ==> r == Err(UserDoesNotExist) && store.rows == old(store.rows)
    ensures var caller := old(CurrentActiveSuperuser(store, jwt, cfg, now, token));
      caller.Ok? && userId in old(store.rows) ==>
        var updated := ApplyPatch(old(store.rows[userId]), patch);
        r == Ok(ToUser(updated)) && store.rows == old(store.rows)[userId := updated]
    ensures UniqueEmails(old(store.rows)) &&
      (patch.email.Some? ==> forall k :: k in old(store.rows) && k != userId ==> old(store.rows[k]).email != patch.email.value)
      ==> UniqueEmails(store.rows)
  {
    var caller := CurrentActiveSuperuser(store, jwt, cfg, now, token);
    if caller.Err? {
      return Err(caller.error);
    }
    var user := store.GetUser(userId);
    if user.None? {
      return Err(UserDoesNotExist);
    }
    var updated := store.UpdateUser(userId, patch);
    if UniqueEmails(old(store.rows)) &&
       (patch.email.Some? ==> forall k :: k in old(store.rows) && k != userId ==> old(store.rows[k]).email != patch.email.value) {
      PatchKeepsUnique(old(store.rows), userId, patch);
    }
    r := Ok(ToUser(updated));
  }

  /**
   * `POST /token`: fails with the same 401 and `WWW-Authenticate: Bearer` whether the
   * email is unknown or the password wrong; on success answers a bearer token for the
   * user, valid for ACCESS_TOKEN_EXPIRE_MINUTES minutes.
   */
  function Login(store: UserStore, hasher: Hasher, jwt: JwtCodec, cfg: Config, now: int,
                 username: Email, password: string): (r: Result<Token>)
    reads store
    requires store.Valid()
    ensures r.Err? <==> AuthenticateUser(store, hasher, username, password).None?
    ensures r.Err? ==> r.error == IncorrectUsernameOrPassword
    ensures !HasEmail(store.rows, username) ==> r == Err(IncorrectUsernameOrPassword)
    ensures r.Ok? ==> r.value.token_type == "bearer"
  {
    match AuthenticateUser(store, hasher, username, password)
    case None => Err(IncorrectUsernameOrPassword)
    case Some(user) =>
      var expiresDelta := 60 * cfg.access_token_expire_minutes;
      var accessToken := CreateAccessToken(jwt, cfg, map["sub" := Text(user.email)], Some(expiresDelta), now);
      Ok(Token(accessToken, "bearer"))
  }

  /**
   * The expiry a token issued at `now` by `POST /token` carries: ACCESS_TOKEN_EXPIRE_MINUTES
   * minutes later, or 15 minutes later when that setting is 0 (a zero `timedelta` is falsy).
   */
  function LoginExpiry(cfg: Config, now: int): (exp: int) {
    if cfg.access_token_expire_minutes != 0 then now + 60 * cfg.access_token_expire_minutes
    else now + DefaultTokenLifetime
  }

  /**
   * Round trip: a token issued by `POST /token` decodes to `{sub: email, exp}` and, when
   * presented to the access guard at any time up to its expiry (with the store as it
   * was), resolves to the user who logged in; afterwards it is refused with the
   * credentials 401.
   */
  lemma LoginRoundTrip(store: UserStore, hasher: Hasher, jwt: JwtCodec, cfg: Config,
                       now: int, later: int, username: Email, password: string)
    requires store.Valid() && JwtSound(jwt)
    requires Login(store, hasher, jwt, cfg, now, username, password).Ok?
    ensures var token := Login(store, hasher, jwt, cfg, now, username, password).value.access_token;
      var exp := LoginExpiry(cfg, now);
      && jwt.decode(token, cfg.secret_key, cfg.algorithm, later)
           == (if later <= exp then Some(map["sub" := Text(username), "exp" := Number(exp)]) else None)
      && (later <= exp ==>
            GetCurrentUser(store, jwt, cfg, later, Some(token)) == Ok(AuthenticateUser(store, hasher, username, password).value))
      && (later > exp ==> GetCurrentUser(store, jwt, cfg, later, Some(token)) == Err(CredentialsException))
  {
  }

  /**
   * `GET /users/me`: the caller, without its hash, exactly when the token resolves to an
   * active user; the resolution failure (401) or 400 "Inactive user" otherwise.
   */
  function ReadUsersMe(store: UserStore, jwt: JwtCodec, cfg: Config, now: int, token: Option<string>): (r: Result<User>)
    reads store
    requires store.Valid()
    ensures var caller := GetCurrentUser(store, jwt, cfg, now, token);
      && (caller.Err? ==> r == Err(caller.error))
      && (caller.Ok? ==> (r.Ok? <==> caller.value.is_active))
      && (caller.Ok? && !caller.value.is_active ==> r == Err(InactiveUser))
      && (r.Ok? ==> caller.Ok? && r.value == ToUser(caller.value))
    ensures token.None? ==> r == Err(NotAuthenticated)
  {
    match CurrentActiveUser(store, jwt, cfg, now, token)
    case Err(e) => Err(e)
    case Ok(currentUser) => Ok(ToUser(currentUser))
  }
}
