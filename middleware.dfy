/**
 * The bearer-token gate (`authMiddleware` in main.go): the decision as a pure
 * function `Gate`, and the handler that acts on a gin context, proved to carry
 * that decision out.
 */
module Middleware {
  import opened Wrappers
  import opened Text
  import opened Paseto
  import opened GinContext

  const Scheme: string := "Bearer"

  /** The context key under which the authenticated subject is stored. */
  const UsernameKey: string := "username"

  datatype Reason = MissingHeader | MalformedHeader | InvalidToken | TokenExpired

  datatype Outcome = Rejected(reason: Reason) | Authenticated(subject: string)

  /** The error text of the 401 reply for each reason. */
  function Message(reason: Reason): string
  {
    match reason
    case MissingHeader => "Authorization header is required"
    case MalformedHeader => "Authorization header format must be Bearer {token}"
    case InvalidToken => "Invalid token"
    case TokenExpired => "Token has expired"
  }

  /** The header starts with the scheme, exactly as spelled, and one space. */
  predicate BearerForm(header: string)
  {
    |header| > |Scheme| && header[..|Scheme|] == Scheme && header[|Scheme|] == Space
  }

  /** Everything after the first space, unchanged: possibly empty, possibly with more spaces. */
  function Credential(header: string): string
    requires BearerForm(header)
  {
    header[|Scheme| + 1..]
  }

  /**
   * The source's format test, a split at the first space into exactly two
   * parts with `Bearer` first, accepts exactly the headers in bearer form,
   * and its second part is the credential.
   */
  lemma FormatCheckIsBearerForm(header: string)
    ensures (|SplitFirstSpace(header)| == 2 && SplitFirstSpace(header)[0] == Scheme) <==> BearerForm(header)
    ensures BearerForm(header) ==> SplitFirstSpace(header) == [Scheme, Credential(header)]
  {
    if BearerForm(header) {
      SplitAfterWord(header, Scheme);
    }
    var parts := SplitFirstSpace(header);
    if |parts| == 2 && parts[0] == Scheme {
      SplitGivesWord(header, Scheme);
    }
  }

  /**
   * The decision for one request, given its `Authorization` header, the
   * current instant, the key, and the decryption call.
   */
  function Gate(header: string, now: Instant, key: SecretKey, decrypt: Decrypter): (r: Outcome)
    ensures header == "" ==> r == Rejected(MissingHeader)
    ensures header != "" && !BearerForm(header) ==> r == Rejected(MalformedHeader)
    ensures BearerForm(header) && decrypt(Credential(header), key).Failure? ==> r == Rejected(InvalidToken)
    ensures BearerForm(header) && decrypt(Credential(header), key).Success? ==>
      var claims := decrypt(Credential(header), key).value.claims;
      r == if now > claims.expiration then Rejected(TokenExpired) else Authenticated(claims.subject)
  {
    if header == "" then Rejected(MissingHeader)
    else
      FormatCheckIsBearerForm(header);
      var parts := SplitFirstSpace(header);
      if |parts| != 2 || parts[0] != Scheme then Rejected(MalformedHeader)
      else
        var token := parts[1];
        match decrypt(token, key)
        case Failure(_) => Rejected(InvalidToken)
        case Success(payload) =>
          if After(now, payload.claims.expiration) then Rejected(TokenExpired)
          else Authenticated(payload.claims.subject)
  }

  /** A request gets through exactly when all three checks pass. */
  lemma AuthenticatedIff(header: string, now: Instant, key: SecretKey, decrypt: Decrypter, subject: string)
    ensures Gate(header, now, key, decrypt) == Authenticated(subject) <==>
      && BearerForm(header)
      && decrypt(Credential(header), key).Success?
      && now <= decrypt(Credential(header), key).value.claims.expiration
      && decrypt(Credential(header), key).value.claims.subject == subject
  {
  }

  /**
   * Decryption is consulted on the credential only: two decryption calls
   * that agree there give the same outcome, and a header that fails the
   * format checks is rejected whatever decryption would do.
   */
  lemma GateConsultsOnlyCredential(header: string, now: Instant, key: SecretKey, d1: Decrypter, d2: Decrypter)
    requires BearerForm(header) ==> d1(Credential(header), key) == d2(Credential(header), key)
    ensures Gate(header, now, key, d1) == Gate(header, now, key, d2)
  {
  }

  /**
   * Expiry is inclusive: at its expiration instant a token still passes, one
   * nanosecond later it is refused as expired.
   */
  lemma ExpirationBoundary(header: string, key: SecretKey, decrypt: Decrypter)
    requires BearerForm(header) && decrypt(Credential(header), key).Success?
    ensures var claims := decrypt(Credential(header), key).value.claims;
      && Gate(header, claims.expiration, key, decrypt) == Authenticated(claims.subject)
      && Gate(header, claims.expiration + 1, key, decrypt) == Rejected(TokenExpired)
  {
  }

  /** Re-checking a request that passed gives the same subject at any earlier instant. */
  lemma AcceptedEarlier(header: string, now: Instant, earlier: Instant, key: SecretKey, decrypt: Decrypter)
    requires Gate(header, now, key, decrypt).Authenticated?
    requires earlier <= now
    ensures Gate(header, earlier, key, decrypt) == Gate(header, now, key, decrypt)
  {
  }

  /**
   * The handler itself. A rejection writes a 401 reply with the reason's
   * message and aborts the chain, leaving the stored keys alone and the
   * protected handler unrun; an acceptance stores the subject under
   * "username" and runs the rest of the chain without writing a reply.
   */
  method AuthMiddleware(c: Context, now: Instant, key: SecretKey, decrypt: Decrypter)
    modifies c
    ensures match Gate(c.authorization, now, key, decrypt)
      case Rejected(reason) =>
        && c.reply == Some(Reply(StatusUnauthorized, "error", Message(reason)))
        && c.aborted
        && c.keys == old(c.keys)
        && c.nextCalled == old(c.nextCalled)
      case Authenticated(subject) =>
        && c.reply == old(c.reply)
        && c.aborted == old(c.aborted)
        && c.keys == old(c.keys)[UsernameKey := subject]
        && c.nextCalled
  {
    var authHeader := c.authorization;
    if authHeader == "" {
      c.JSON(StatusUnauthorized, "error", Message(MissingHeader));
      c.Abort();
      return;
    }

    var parts := SplitFirstSpace(authHeader);
    if |parts| != 2 || parts[0] != Scheme {
      c.JSON(StatusUnauthorized, "error", Message(MalformedHeader));
      c.Abort();
      return;
    }

    var token := parts[1];
    FormatCheckIsBearerForm(authHeader);

    var result := decrypt(token, key);
    if result.Failure? {
      c.JSON(StatusUnauthorized, "error", Message(InvalidToken));
      c.Abort();
      return;
    }

    var payload := result.value.claims;
    if After(now, payload.expiration) {
      c.JSON(StatusUnauthorized, "error", Message(TokenExpired));
      c.Abort();
      return;
    }

    c.Set(UsernameKey, payload.subject);
    c.Next();
  }
}
