/**
 * The access guard (oauth_app/app/deps.py): resolve the bearer token to a stored user,
 * then require the user to be active, then to be a superuser. Each step returns the user
 * it was given or fails with a fixed status and detail. FastAPI's dependency injection
 * becomes function composition: each guard takes the outcome of the one it depends on.
 */
module Deps {
  import opened Wrappers
  import opened Http
  import opened Schemas
  import opened Crypto
  import opened Crud
  import opened Security

  /** What `OAuth2PasswordBearer` answers when the request has no bearer token. */
  const NotAuthenticated := HttpError(401, "Not authenticated", true)
  const CredentialsException := HttpError(401, "Could not validate credentials", true)
  const InactiveUser := HttpError(400, "Inactive user", false)
  const NotEnoughPrivileges := HttpError(400, "The user doesn't have enough privileges", false)

  /**
   * `payload.get("sub")` as a `TokenData`: the subject when it is a string. jose itself
   * rejects a non-string `sub` with a `JWTError`, so treating it as absent leads to the
   * same 401.
   */
  function TokenDataOf(payload: Claims): (t: TokenData)
    ensures t.email.Some? <==> "sub" in payload && payload["sub"].Text?
    ensures t.email.Some? ==> payload["sub"] == Text(t.email.value)
  {
    if "sub" in payload && payload["sub"].Text? then TokenData(Some(payload["sub"].text)) else TokenData(None)
  }

  /**
   * `get_current_user`. `token` is the bearer token of the request, `None` when there is
   * none. Every failure is a 401 carrying `WWW-Authenticate: Bearer`: no token; a token
   * that does not decode (bad signature, malformed, expired); a payload without a
   * subject; a subject no stored user has. Every other token succeeds, with the stored
   * row that the email lookup finds for the token's subject.
   */
  function GetCurrentUser(store: UserStore, jwt: JwtCodec, cfg: Config, now: int, token: Option<string>): (r: Result<UserInDB>)
    reads store
    requires store.Valid()
    ensures r.Err? ==> r.error.status == 401 && r.error.bearer
    ensures token.None? ==> r == Err(NotAuthenticated)
    ensures token.Some? ==>
      var payload := jwt.decode(token.value, cfg.secret_key, cfg.algorithm, now);
      && (payload.None? ==> r == Err(CredentialsException))
      && (payload.Some? ==>
            var subject := TokenDataOf(payload.value).email;
            && (subject.None? ==> r == Err(CredentialsException))
            && (subject.Some? && !HasEmail(store.rows, subject.value) ==> r == Err(CredentialsException))
            && (subject.Some? && HasEmail(store.rows, subject.value) ==>
                  r.Ok? && r.value.email == subject.value
                  && r == Ok(store.GetUserByEmail(subject.value).value))
            && (r.Ok? ==> subject == Some(r.value.email)))
    ensures r.Ok? ==> token.Some? && r.value.id in store.rows && store.rows[r.value.id] == r.value
  {
    match token
    case None => Err(NotAuthenticated)
    case Some(t) =>
      match jwt.decode(t, cfg.secret_key, cfg.algorithm, now)
      case None => Err(CredentialsException)
      case Some(payload) =>
        var tokenData := TokenDataOf(payload);
        if tokenData.email.None? then Err(CredentialsException)
        else
          match store.GetUserByEmail(tokenData.email.value)
          case None => Err(CredentialsException)
          case Some(user) => Ok(user)
  }

  /** `is_superuser`: the user's superuser flag. */
  function IsSuperuser(user: UserInDB): (b: bool) {
    user.is_superuser
  }

  /**
   * `get_current_active_user`: passes on the failure of the guard before it; fails with
   * 400 "Inactive user" exactly when the user is inactive; otherwise returns the same
   * user unchanged.
   */
  function GetCurrentActiveUser(current: Result<UserInDB>): (r: Result<UserInDB>)
    ensures current.Err? ==> r == current
    ensures current.Ok? ==> (r.Ok? <==> current.value.is_active)
    ensures current.Ok? && !current.value.is_active ==> r == Err(InactiveUser)
    ensures r.Ok? ==> r == current
  {
    match current
    case Err(_) => current
    case Ok(user) => if !user.is_active then Err(InactiveUser) else current
  }

  /**
   * `get_current_active_superuser`: passes on the failure of the guard before it; fails
   * with 400 "The user doesn't have enough privileges" exactly when the user is not a
   * superuser; otherwise returns the same user unchanged.
   */
  function GetCurrentActiveSuperuser(current: Result<UserInDB>): (r: Result<UserInDB>)
    ensures current.Err? ==> r == current
    ensures current.Ok? ==> (r.Ok? <==> IsSuperuser(current.value))
    ensures current.Ok? && !IsSuperuser(current.value) ==> r == Err(NotEnoughPrivileges)
    ensures r.Ok? ==> r == current
  {
    match current
    case Err(_) => current
    case Ok(user) => if !IsSuperuser(user) then Err(NotEnoughPrivileges) else current
  }

  /**
   * The dependency chain of an endpoint that needs an active user: it passes exactly the
   * active users the token resolves to, and answers the first failing guard's error.
   */
  function CurrentActiveUser(store: UserStore, jwt: JwtCodec, cfg: Config, now: int, token: Option<string>): (r: Result<UserInDB>)
    reads store
    requires store.Valid()
    ensures var current := GetCurrentUser(store, jwt, cfg, now, token);
      && (r.Ok? <==> current.Ok? && current.value.is_active)
      && (r.Ok? ==> r == current)
      && (current.Err? ==> r == current)
      && (current.Ok? && !current.value.is_active ==> r == Err(InactiveUser))
    ensures token.None? ==> r == Err(NotAuthenticated)
  {
    GetCurrentActiveUser(GetCurrentUser(store, jwt, cfg, now, token))
  }

  /**
   * The dependency chain of an endpoint that needs an active superuser: it passes exactly
   * the active superusers the token resolves to; a resolved user that is inactive is
   * refused as inactive before its privileges are looked at.
   */
  function CurrentActiveSuperuser(store: UserStore, jwt: JwtCodec, cfg: Config, now: int, token: Option<string>): (r: Result<UserInDB>)
    reads store
    requires store.Valid()
    ensures var current := GetCurrentUser(store, jwt, cfg, now, token);
      && (r.Ok? <==> current.Ok? && current.value.is_active && current.value.is_superuser)
      && (r.Ok? ==> r == current)
      && (current.Err? ==> r == current)
      && (current.Ok? && !current.value.is_active ==> r == Err(InactiveUser))
      && (current.Ok? && current.value.is_active && !current.value.is_superuser ==> r == Err(NotEnoughPrivileges))
    ensures token.None? ==> r == Err(NotAuthenticated)
  {
    GetCurrentActiveSuperuser(CurrentActiveUser(store, jwt, cfg, now, token))
  }

  /**
   * The order of the chain: whatever passes both checks is active and a superuser and is
   * the user the token resolved to; an inactive user is refused as inactive, even when a
   * superuser, and never with the privilege error.
   */
  lemma SuperuserChainOrder(current: Result<UserInDB>)
    ensures var r := GetCurrentActiveSuperuser(GetCurrentActiveUser(current));
      && (r.Ok? ==> r == current && r.value.is_active && r.value.is_superuser)
      && (current.Ok? && !current.value.is_active ==> r == Err(InactiveUser))
      && (current.Ok? && current.value.is_active && !current.value.is_superuser ==> r == Err(NotEnoughPrivileges))
      && (current.Err? ==> r == current)
  {
  }
}
