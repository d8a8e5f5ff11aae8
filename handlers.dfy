/**
 * The login handler (`loginUser` in main.go) and what issuing and gating
 * together guarantee: a token the server hands out opens the gate for its
 * user for exactly one hour, provided decryption undoes encryption.
 */
module Handlers {
  import opened Wrappers
  import opened Paseto
  import opened GinContext
  import opened Issuer
  import opened Middleware

  /** The JSON body `{username, password}`; `None` when binding it fails. */
  datatype LoginRequest = LoginRequest(username: string, password: string)

  /** The one account the placeholder credential check accepts. */
  const DemoUsername: string := "username123"
  const DemoPassword: string := "password123"

  predicate CredentialsMatch(request: LoginRequest)
  {
    request.username == DemoUsername && request.password == DemoPassword
  }

  /** The reply of the login endpoint. */
  function Login(request: Option<LoginRequest>, now: Instant, key: SecretKey, encrypt: Encrypter): (reply: Reply)
    ensures reply.status == StatusBadRequest <==> request.None?
    ensures reply.status == StatusUnauthorized <==> request.Some? && !CredentialsMatch(request.value)
    ensures reply.status == StatusInternalServerError <==>
      request.Some? && CredentialsMatch(request.value) && encrypt(key, NewClaims(DemoUsername, now), "").Failure?
    ensures reply.status == StatusOK <==>
      request.Some? && CredentialsMatch(request.value) && encrypt(key, NewClaims(DemoUsername, now), "").Success?
    ensures reply.status == StatusOK ==>
      reply.field == "token" && encrypt(key, NewClaims(DemoUsername, now), "") == Success(reply.text)
    ensures reply.status != StatusOK ==> reply.field == "error"
    ensures reply.status == StatusBadRequest ==> reply.text == "Invalid request"
    ensures reply.status == StatusUnauthorized ==> reply.text == "Invalid credentials"
    ensures reply.status == StatusInternalServerError ==> reply.text == "Failed to generate token"
  {
    match request
    case None => Reply(StatusBadRequest, "error", "Invalid request")
    case Some(loginRequest) =>
      if CredentialsMatch(loginRequest) then
        var (token, err) := GenerateToken(loginRequest.username, now, key, encrypt);
        if err.Some? then Reply(StatusInternalServerError, "error", "Failed to generate token")
        else Reply(StatusOK, "token", token)
      else Reply(StatusUnauthorized, "error", "Invalid credentials")
  }

  /**
   * A token issued at `issuedAt`, presented as `Bearer <token>`, authenticates
   * its user at every instant up to and including `issuedAt + Hour` and is
   * refused as expired afterwards.
   */
  lemma IssuedTokenOpensGate(username: string, issuedAt: Instant, now: Instant,
                             key: SecretKey, encrypt: Encrypter, decrypt: Decrypter)
    requires RoundTrips(encrypt, decrypt)
    requires GenerateToken(username, issuedAt, key, encrypt).1.None?
    ensures Gate(Scheme + " " + GenerateToken(username, issuedAt, key, encrypt).0, now, key, decrypt)
         == if now <= issuedAt + Hour then Authenticated(username) else Rejected(TokenExpired)
  {
    var claims := NewClaims(username, issuedAt);
    var token := GenerateToken(username, issuedAt, key, encrypt).0;
    var header := Scheme + " " + token;
    assert BearerForm(header) && Credential(header) == token by {
      assert header[..|Scheme|] == Scheme;
      assert header[|Scheme| + 1..] == token;
    }
    assert decrypt(token, key) == Success(Decrypted(claims, ""));
  }

  /** The end-to-end flow: a successful login's token lets its user through for one hour. */
  lemma LoginTokenOpensGate(request: Option<LoginRequest>, issuedAt: Instant, now: Instant,
                            key: SecretKey, encrypt: Encrypter, decrypt: Decrypter)
    requires RoundTrips(encrypt, decrypt)
    requires Login(request, issuedAt, key, encrypt).status == StatusOK
    ensures Gate(Scheme + " " + Login(request, issuedAt, key, encrypt).text, now, key, decrypt)
         == if now <= issuedAt + Hour then Authenticated(DemoUsername) else Rejected(TokenExpired)
  {
    IssuedTokenOpensGate(DemoUsername, issuedAt, now, key, encrypt, decrypt);
  }
}
