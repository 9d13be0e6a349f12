/**
 * The two foreign libraries the core relies on, as abstract functions passed in as
 * values: passlib's bcrypt context (oauth_app/app/security.py:13,25-30) and
 * python-jose's JWT codec (oauth_app/app/security.py:51, oauth_app/app/deps.py:38).
 * Each comes with one law, a ghost predicate that lemmas take as a hypothesis.
 */
module Crypto {
  import opened Wrappers

  /** The random salt bcrypt draws for each hash, passed in explicitly. */
  type Salt = string

  /** `pwd_context.hash` and `pwd_context.verify`. */
  datatype Hasher = Hasher(hash: (string, Salt) -> string, verify: (string, string) -> bool)

  /** The hasher's law: a password verifies against every digest made from it, whatever the salt. */
  ghost predicate HasherSound(h: Hasher) {
    forall password, salt :: h.verify(password, h.hash(password, salt))
  }

  /** A JSON claim value of a token payload. */
  datatype Claim = Text(text: string) | Number(n: int) | Null

  type Claims = map<string, Claim>

  /** The registered claims jose validates on decode besides `sub` and `exp`. */
  const OtherValidatedClaims: set<string> := {"iat", "nbf", "aud", "iss", "jti", "at_hash"}

  /** `jwt.encode(claims, key, algorithm)` and `jwt.decode(token, key, [algorithm])` at time `now`. */
  datatype JwtCodec = JwtCodec(
    encode: (Claims, string, string) -> string,
    decode: (string, string, string, int) -> Option<Claims>)

  /** The `exp` claim when it is an integer. */
  function ExpiryOf(c: Claims): Option<int> {
    if "exp" in c && c["exp"].Number? then Some(c["exp"].n) else None
  }

  /** jose rejects a token whose `exp` lies strictly before the current time (no leeway). */
  predicate Expired(c: Claims, now: int) {
    ExpiryOf(c).Some? && ExpiryOf(c).value < now
  }

  /**
   * Payloads jose hands back unchanged: a string subject if any, an integer expiry if any,
   * and none of the other registered claims it would check.
   */
  predicate Decodable(c: Claims) {
    && ("sub" in c ==> c["sub"].Text?)
    && ("exp" in c ==> c["exp"].Number?)
    && c.Keys !! OtherValidatedClaims
  }

  /**
   * The codec's law: a token signed with a key and algorithm decodes, under the same key
   * and algorithm, to the claims it was made from until it expires, and fails afterwards.
   */
  ghost predicate JwtSound(j: JwtCodec) {
    forall c, key, alg, now :: Decodable(c) ==>
      j.decode(j.encode(c, key, alg), key, alg, now) == (if Expired(c, now) then None else Some(c))
  }
}
