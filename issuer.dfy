/** Token issuance (`generateToken` in main.go). */
module Issuer {
  import opened Wrappers
  import opened Paseto

  /** The claims a fresh token carries: the user, the issue instant, one hour of life. */
  function NewClaims(username: string, now: Instant): (c: Claims)
    ensures c.subject == username && c.issuedAt == now
    ensures c.expiration - c.issuedAt == Hour
    ensures After(c.expiration, c.issuedAt)
  {
    Claims(username, now, now + Hour)
  }

  /**
   * Encrypts `NewClaims(username, now)` with an empty footer. Like the Go
   * function it returns a token and an error; on failure the token is "".
   */
  function GenerateToken(username: string, now: Instant, key: SecretKey, encrypt: Encrypter)
    : (r: (string, Option<CryptoError>))
    ensures r.1.Some? <==> encrypt(key, NewClaims(username, now), "").Failure?
    ensures r.1.Some? ==> r.0 == "" && r.1.value == encrypt(key, NewClaims(username, now), "").error
    ensures r.1.None? ==> encrypt(key, NewClaims(username, now), "") == Success(r.0)
  {
    var jsonToken := NewClaims(username, now);
    match encrypt(key, jsonToken, "")
    case Failure(err) => ("", Some(err))
    case Success(token) => (token, None)
  }
}
