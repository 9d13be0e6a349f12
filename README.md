# A verified model of the fast-api-oauth authentication core

This project models, in Dafny, the account and authentication core of a small FastAPI
service. The service registers users, issues JWT bearer tokens on login, and guards its
endpoints by whether the caller is active and whether the caller is a superuser. The model has six
parts, one module per source file, and proves what each part promises:

- the **user store** (`Crud`): a class holding the `users` table as a map from id to row,
  with a next-id counter. It has lookups by id and by email, an insert that stores the
  bcrypt hash of the password, and a partial update.
- the **authenticator and token issuer** (`Security`): the email and password check, and
  the claims payload with its expiry.
- the **access guard** (`Deps`): token → subject → stored user → active → superuser. Each
  step either passes the user on unchanged or fails with a fixed status and detail.
- the **route handlers** (`Main`): `POST /users`, `PUT /users/{id}`, `POST /token` and
  `GET /users/me`, with their decision logic.
- the **superuser bootstrap** (`InitDb`).
- the **data shapes** (`Schemas`).

bcrypt and python-jose are foreign code. They appear as function values (`Crypto.Hasher`,
`Crypto.JwtCodec`), each with one law stated as a ghost predicate:

- `HasherSound`: a password verifies against any digest made from it, whatever the salt.
- `JwtSound`: a token decodes under the same key and algorithm to the claims it was made
  from, until it expires, and fails afterwards.

Lemmas that need a law take it as a precondition. The operations themselves do not need
the laws.

These are passed in as parameters:

- the random bcrypt salt;
- the clock (`now`, whole seconds);
- SECRET_KEY, ALGORITHM and ACCESS_TOKEN_EXPIRE_MINUTES (`Security.Config`);
- SUPERUSER_EMAIL and SUPERUSER_PASS.

FastAPI's dependency injection becomes explicit arguments and function composition. A
request without a bearer header is the token `None`.

Guards, authentication and login are functions, so they cannot change the store. Only
`Crud.UserStore.CreateUser`, `Crud.UserStore.UpdateUser` and the methods built on them
(`Main.CreateUser`, `Main.UpdateUser`, `InitDb.CreateSuperuser`) take `modifies`.
`ApiScenarios` replays tests/test_api.py in file order against one store, as the tests
share one session database seeded by the bootstrap. Each user therefore gets the id the
test expects: Josh 2, Matt 3, John 4, Jen 5, Allen 6. The token helper of tests/utils.py
and the superuser fixture of tests/conftest.py are modelled as methods. The root route
test is not replayed.

The model keeps these behaviours of the code as written:

- Authentication returns one indistinguishable failure value (`False`, here `None`) for an
  unknown email and for a wrong password; there are no separate internal failure kinds.
- `POST /users` copies a client-supplied `is_superuser` into the new row. The model keeps
  this: `Main.CreateUser` ensures `r.value.is_superuser == user.is_superuser`, so an
  anonymous caller can register a superuser.
- Email uniqueness is enforced by the `POST /users` route, not by `crud.create_user`.
  `PUT /users/{id}` does not re-check it. `Main.UpdateUser` keeps emails unique only when
  the patch does not give the target an email another user has.
- The fallback token lifetime is a fixed 15 minutes. It applies whenever the delta is
  falsy, so ACCESS_TOKEN_EXPIRE_MINUTES = 0 also yields 15-minute tokens (`Main.LoginExpiry`).

## Model

| member | source | states |
|---|---|---|
| `Schemas.SchemaDefaults` | oauth_app/app/schemas.py:6-45 | A create body defaults to no full name, active, not superuser; an update body sets nothing by default; `TokenData.email` defaults to none |
| `Crud.ApplyPatch` | oauth_app/app/crud.py:39-47 | Every column the patch sets takes the patch's value, every other column (id, hash included) keeps its value |
| `Crud.PatchIdempotent` | oauth_app/app/crud.py:45-47 | Applying the same patch twice gives the same row as applying it once |
| `Crud.PatchIgnoresPassword` | oauth_app/app/crud.py:44-47 | The patch's `password` (not a column) has no effect; the stored hash never changes through an update |
| `Crud.EmptyPatchIsIdentity` | oauth_app/app/crud.py:42-47 | A patch with no field set leaves the row unchanged |
| `Crud.UserStore.GetUser` | oauth_app/app/crud.py:11-12 | Returns the row stored under the id, and none exactly when no row has that id |
| `Crud.UserStore.FirstWithEmail` | oauth_app/app/crud.py:15-16 | The scan finds the lowest id from the start id on whose row has the email, or reports that no such row exists in the range |
| `Crud.UserStore.GetUserByEmail` | oauth_app/app/crud.py:15-16 | Returns a stored row with exactly that email (the lowest-id one), and none exactly when no stored row has it |
| `Crud.LookupFindsUnique` | oauth_app/app/crud.py:15-16 | When emails are unique, looking up a stored user's email finds that user |
| `Crud.UserStore.CreateUser` | oauth_app/app/crud.py:19-30 | Adds exactly one row under a fresh id and keeps the rest. The row has the input's email, full name and superuser flag, is active whatever the input said, and stores the password's hash, not the password |
| `Crud.UserStore.UpdateUser` | oauth_app/app/crud.py:33-51 | The target row becomes the patched row; every other row and the id counter are unchanged |
| `Crud.InsertKeepsUnique` | oauth_app/main.py:33-38 | Inserting a row whose email no row has keeps emails unique |
| `Crud.PatchKeepsUnique` | oauth_app/app/crud.py:45-47 | A patch that sets no email, or one no other row has, keeps emails unique |
| `Security.AuthenticateUser` | oauth_app/app/security.py:33-39 | Unknown email: failure. Success: the stored user with that email, and the password verifies against its hash. Under unique emails, success exactly when the password verifies. Both failure causes give the same value |
| `Security.AuthenticateCreated` | oauth_app/app/security.py:33-39 | A stored user whose hash was made from a password authenticates with that password (under the hasher law) |
| `Security.TokenClaims` | oauth_app/app/security.py:45-50 | The payload is the input claims with `exp` added or overwritten. `exp` is now + delta for a non-zero delta, and now + 15 minutes for a missing or zero delta |
| `Security.CreateAccessToken` | oauth_app/app/security.py:42-52 | Under the codec law, the token decodes under the configured key and algorithm to exactly its payload (the claims plus `exp`) at any time up to its expiry, and does not decode after it |
| `Deps.TokenDataOf` | oauth_app/app/deps.py:39-42 | The subject is present exactly when the payload has a string `sub`, and is that string |
| `Deps.GetCurrentUser` | oauth_app/app/deps.py:27-48 | No token: 401 "Not authenticated". Undecodable or expired token, no subject, or unknown subject: 401 "Could not validate credentials". Every failure carries `WWW-Authenticate: Bearer`. A decodable token whose subject some stored user has always succeeds, with the row the email lookup finds; success is always a stored user whose email is the token's subject |
| `Deps.GetCurrentActiveUser` | oauth_app/app/deps.py:67-74 | Passes an earlier failure on. Fails with 400 "Inactive user" exactly when the user is inactive. Otherwise returns the same user unchanged |
| `Deps.GetCurrentActiveSuperuser` | oauth_app/app/deps.py:77-84 | Passes an earlier failure on. Fails with 400 "The user doesn't have enough privileges" exactly when the user is not a superuser. Otherwise returns the same user unchanged |
| `Deps.CurrentActiveUser` | oauth_app/app/deps.py:67-74 | The chain of `GET /users/me` passes exactly the active users the token resolves to, unchanged. It answers the resolution failure, or 400 "Inactive user" for an inactive user |
| `Deps.CurrentActiveSuperuser` | oauth_app/app/deps.py:67-84 | The chain of `PUT /users/{id}` passes exactly the active superusers the token resolves to, unchanged. It answers the resolution failure, then "Inactive user", then the privilege error, in that order |
| `Deps.SuperuserChainOrder` | oauth_app/app/deps.py:67-84 | Whatever passes the chain is active and a superuser. An inactive superuser gets "Inactive user", never the privilege error |
| `InitDb.Bootstrapped` | oauth_app/app/database/init_db.py:29-41 | Afterwards a user with the superuser email exists. Every existing row keeps its id and value. An existing user with that email (superuser or not) leaves the table unchanged. Otherwise exactly one row is added, under the fresh id, and it is the only user with that email: an active superuser with no full name |
| `InitDb.BootstrapIdempotent` | oauth_app/app/database/init_db.py:31-41 | Bootstrapping twice, with a fresh id each time, yields the same table as bootstrapping once |
| `InitDb.CreateSuperuser` | oauth_app/app/database/init_db.py:23-41 | The store becomes the bootstrapped table. The id counter moves only when a row is created. Unique emails stay unique |
| `Main.CreateUser` | oauth_app/main.py:31-38 | A registered email gets 400 "Email already registered" and no change. Otherwise exactly one new user is stored and returned without its hash, active, with the input's fields. Unique emails stay unique |
| `Main.UpdateUser` | oauth_app/main.py:41-59 | A caller that is not an active superuser gets the guard's failure and no change. An unknown id gets 404 and no change. Otherwise the target gets the patch, the patched record is returned, and no other row changes |
| `Main.Login` | oauth_app/main.py:62-80 | Fails exactly when authentication fails, always with the same 401 "Incorrect username or password" and `WWW-Authenticate: Bearer`. This includes unknown emails. Succeeds with token type "bearer" |
| `Main.LoginRoundTrip` | oauth_app/main.py:76-80 | The login token decodes to `{sub: email, exp}`, with exp ACCESS_TOKEN_EXPIRE_MINUTES minutes after login (15 when that is 0). Up to exp the guard resolves it to the user who logged in. After exp it is refused with the credentials 401 |
| `Main.ReadUsersMe` | oauth_app/main.py:83-90 | Returns the caller without its hash exactly when the token resolves to an active user. Otherwise returns the guard's 401 or 400 "Inactive user". No token gives 401 "Not authenticated" |
| `ApiScenarios.SeededStore` | tests/docker_services/postgres.py:56-58 | Bootstrapping an empty store gives exactly the superuser admin@example.com under id 1, with the next id 2 |
| `ApiScenarios.TokenFromEmail` | tests/utils.py:65-84 | Creates the user (active, not a superuser, with the given name and the password's hash) only when no user has the email. The token then resolves to the stored user with that email |
| `ApiScenarios.SuperuserToken` | tests/conftest.py:43-55 | The superuser's token resolves to row 1 and creates nothing |
| `ApiScenarios.TestCreateUser` | tests/test_api.py:19-35 | Registering Josh answers id 2, Josh Doe, active, not a superuser |
| `ApiScenarios.TestLoginUser` | tests/test_api.py:38-53 | Matt, created through the CRUD layer, logs in and gets a bearer token |
| `ApiScenarios.TestGetAuthenticatedActiveUser` | tests/test_api.py:56-75 | John, created by the token helper, reads himself back as id 4, John Doe, active, not a superuser |
| `ApiScenarios.TestGetAuthenticatedSuperuser` | tests/test_api.py:78-95 | The superuser's token reads back id 1, no full name, active, superuser |
| `ApiScenarios.TestGetUnauthenticatedUser` | tests/test_api.py:98-103 | `GET /users/me` without a token gives 401 "Not authenticated" |
| `ApiScenarios.TestSetUserAsInactiveWithSuperuser` | tests/test_api.py:106-127 | The superuser's `PUT /users/5` with `is_active: false` answers Jen's record, id 5, now inactive |
| `ApiScenarios.TestGetInactiveUser` | tests/test_api.py:130-150 | Allen, deactivated through the CRUD layer, still logs in, but `GET /users/me` gives 400 "Inactive user" |
| `ApiScenarios.TestApi` | tests/test_api.py:19-150 | Run in file order on one seeded store, every test gets exactly the response it expects |

## Left out

- bcrypt internals and per-call random salting: the salt is a parameter. That two hashes of one password differ is not stated. Only the law that each digest verifies is. The legacy-digest upgrade path is not modelled.
- JWT signing, encoding and decoding are abstract. The codec law speaks only of tokens decoded with the key and algorithm they were signed with, so "a tampered token fails" is not stated. jose's checks of `iat`, `nbf`, `aud`, `iss`, `jti` and `at_hash` are not modelled: the law covers only payloads without those claims (`Crypto.Decodable`).
- The wall clock: `now` is an integer number of seconds. Sub-second parts of `datetime` and `timedelta` are not modelled.
- SQLAlchemy sessions, commit and refresh, transactions and concurrent requests are not modelled. `get_db` and oauth_app/app/database/session.py are left out too. A row is a value in the store's map, so updating a loaded ORM object in place, and aliasing between that object and the row, are not modelled.
- oauth_app/app/models.py is not part of this model. The default `is_active = true` for new rows is taken from the expected responses in tests/test_api.py:24-35. Database constraints (a unique or not-null email) are not modelled, so `Crud.UserStore.CreateUser` itself accepts a duplicate email.
- `Crud.UserStore.GetUserByEmail`: `.first()` has no ORDER BY and may return any match. The model returns the lowest-id match, which is the only one when emails are unique.
- `update_user` given a plain dict (keys such as `id` or `hashed_password`), and a patch that sets `email` to null, are not modelled: `UserUpdate.email` is either unset or a string.
- FastAPI framework behaviour is not modelled: routing, async, request validation (422), and parsing of the `Authorization` header. A missing bearer header is the token `None`.
- Pydantic `EmailStr` validation: emails are opaque strings. A string subject that is not a valid email raises outside the `JWTError` handler (a 500). That path is not modelled; such a subject is looked up like any other.
- `Deps.IsSuperuser` has no contract of its own: it only reads the flag. What it decides is stated by `Deps.GetCurrentActiveSuperuser` and `Deps.CurrentActiveSuperuser`.
- Not modelled: migrations (`migrate_db`, Alembic), run_init_db.py's entry point, the `print` calls in `create_superuser`, the test harness (docker, polling, the HTTP test client), the "Hello World" root route, the unused `fake_decode_token`, `fake_hash_password` and `is_active`, and the commented-out block in deps.py.
