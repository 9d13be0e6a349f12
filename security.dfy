/**
 * Credential checking and token issuance (oauth_app/app/security.py). The secret key,
 * the signing algorithm and the token lifetime, read from the environment by the
 * source, are a configuration value here; the clock is the parameter `now`, in whole
 * seconds since the epoch, and a `timedelta` is a number of seconds.
 */
module Security {
  import opened Wrappers
  import opened Schemas
  import opened Crypto
  import opened Crud

  /** SECRET_KEY, ALGORITHM and ACCESS_TOKEN_EXPIRE_MINUTES. */
  datatype Config = Config(secret_key: string, algorithm: string, access_token_expire_minutes: int)

  /** The lifetime used when no (or a zero) `expires_delta` is given: 15 minutes. */
  const DefaultTokenLifetime: int := 15 * 60

  /**
   * `authenticate_user`: the user stored under `email`, provided the password verifies
   * against that user's hash. `None` stands for the source's `False`, and it is the same
   * value whether the email is unknown or the password is wrong.
   */
  function AuthenticateUser(store: UserStore, hasher: Hasher, email: Email, password: string): (r: Option<UserInDB>)
    reads store
    requires store.Valid()
    ensures !HasEmail(store.rows, email) ==> r.None?
    ensures r.Some? ==> r.value.email == email && r.value.id in store.rows && store.rows[r.value.id] == r.value
    ensures r.Some? ==> hasher.verify(password, r.value.hashed_password)
    ensures UniqueEmails(store.rows) ==>
      forall id :: id in store.rows && store.rows[id].email == email ==>
        (r.Some? <==> hasher.verify(password, store.rows[id].hashed_password))
  {
    match store.GetUserByEmail(email)
    case None => None
    case Some(user) =>
      if !hasher.verify(password, user.hashed_password) then None else Some(user)
  }

  /**
   * The payload `create_access_token` signs: a copy of `data` with `exp` added or
   * overwritten. `exp` is `now + delta` when a non-zero delta is given; a missing or
   * zero delta is falsy and gives the 15-minute default.
   */
  function TokenClaims(data: Claims, delta: Option<int>, now: int): (c: Claims)
    ensures c.Keys == data.Keys + {"exp"}
    ensures forall k :: k in data && k != "exp" ==> c[k] == data[k]
    ensures delta.Some? && delta.value != 0 ==> c["exp"] == Number(now + delta.value)
    ensures delta.None? || delta.value == 0 ==> c["exp"] == Number(now + DefaultTokenLifetime)
  {
    var expire := if delta.Some? && delta.value != 0 then now + delta.value else now + DefaultTokenLifetime;
    data["exp" := Number(expire)]
  }

  /**
   * `create_access_token`: the payload above, signed with the configured key and
   * algorithm. Under the codec law the token is read back, under that key and algorithm,
   * as exactly its payload at any time up to its expiry, and not at all after it.
   */
  function CreateAccessToken(jwt: JwtCodec, cfg: Config, data: Claims, delta: Option<int>, now: int): (t: string)
    ensures JwtSound(jwt) && Decodable(data) ==>
      var c := TokenClaims(data, delta, now);
      forall later :: jwt.decode(t, cfg.secret_key, cfg.algorithm, later)
        == if later <= c["exp"].n then Some(c) else None
  {
    jwt.encode(TokenClaims(data, delta, now), cfg.secret_key, cfg.algorithm)
  }

  /** A user created with a password authenticates with that password. */
  lemma AuthenticateCreated(store: UserStore, hasher: Hasher, u: UserInDB, password: string, salt: Salt)
    requires store.Valid() && UniqueEmails(store.rows) && HasherSound(hasher)
    requires u.id in store.rows && store.rows[u.id] == u
    requires u.hashed_password == hasher.hash(password, salt)
    ensures AuthenticateUser(store, hasher, u.email, password) == Some(u)
  {
  }
}
