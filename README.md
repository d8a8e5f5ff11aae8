# Verified model of a PASETO bearer-token gate

This project models the authentication core of a small Go web service
(`main.go`). The service issues PASETO v2 "local" tokens: symmetric,
authenticated-encrypted tokens. On every protected request it checks the
token before the protected handler may run. Three parts of the file carry
the logic:

- **key loading** (`init`): the secret key is read once at start-up and must
  be exactly 32 bytes; otherwise the process stops;
- **token issuance** (`generateToken`): claims with the user as subject, the
  current instant as issue time and one hour later as expiration, encrypted
  with an empty footer;
- **the request gate** (`authMiddleware`): reject a missing `Authorization`
  header; split it at the first space; require the scheme `Bearer`; reject a
  token that does not decrypt; reject an expired token; otherwise store the
  subject under `"username"` and run the protected handler.

The login handler (`loginUser`) is modelled too, as a mapping to replies.

Modules, one per component:

- `Wrappers`: Option and Result.
- `Text`: first-space search and `strings.SplitN(s, " ", 2)`.
- `Paseto`: bytes, the 32-byte key type, instants, claims. It also declares
  the encryption and decryption calls as function types, plus the one
  assumption made of them (`RoundTrips`).
- `KeyStore`: `init`.
- `Issuer`: `generateToken`.
- `GinContext`: the part of the gin request context the handlers use.
- `Middleware`: the gate. `Gate` is the pure decision. `AuthMiddleware` is the
  handler acting on a `Context`; its contract is that it carries out `Gate`'s
  decision.
- `Handlers`: `loginUser`, and the end-to-end lemmas tying issuance to the gate.

Modelling choices:

- Time is an integer number of nanoseconds. `time.Hour` is 3 600 000 000 000.
  `t.After(u)` is `t > u`.
- The clock (`time.Now`) is a parameter. So are the key and the PASETO
  `Encrypt`/`Decrypt` calls, which are library code outside this model.
- A Go string is a byte sequence. Here each `char` stands for one byte. The
  only character examined is the ASCII space, so encoding plays no part.
- The package-level `secretKey` variable becomes a value of type `SecretKey`,
  whose length is 32 by construction. The key loader returns it, and the
  issuer and the gate take it as a parameter.
- Expiry is inclusive: `After` at main.go:62 is strict, so a token checked at
  exactly its expiration instant is accepted (`Middleware.ExpirationBoundary`).
- A header with further spaces is not refused: `SplitN(header, " ", 2)` passes
  everything after the first space to decryption (`Middleware.Gate`,
  `Middleware.Credential`).

## Model

| member | source | states |
|---|---|---|
| `Text.Index` | main.go:43 | the result is -1 exactly when the string has no space; otherwise it is a position holding a space with no space before it |
| `Text.SplitFirstSpace` | main.go:43 | `SplitN` with n = 2 gives one part (the whole string) exactly when there is no space; otherwise two parts that rebuild the string around the first space, with no space in the first part |
| `Text.SplitAfterWord` | main.go:43 | a string that begins with a space-free word and a space splits into that word and the whole remainder, whatever spaces the remainder holds |
| `Text.SplitGivesWord` | main.go:43-50 | a two-part split whose first part is a word means the string begins with that word and a space, and the second part is the rest of the string |
| `KeyStore.LoadKey` | main.go:17-31 | the key is accepted iff it is exactly 32 bytes, and it is then kept unchanged; every refusal is the length fault with its fatal message, so the separate empty-key check never fires |
| `Issuer.NewClaims` | main.go:74-81 | the claims name the user, are issued now, and live exactly one hour, so expiration is after issue |
| `Issuer.GenerateToken` | main.go:73-91 | the error is set iff encrypting the fresh claims with an empty footer fails, and then the token is ""; otherwise the token is what encryption produced |
| `Middleware.FormatCheckIsBearerForm` | main.go:43-50 | the source's check (two parts, first part exactly `Bearer`) passes iff the header begins with `Bearer` and a space, and the token is then everything after that space, unchanged |
| `Middleware.Gate` | main.go:34-71 | an empty header is refused as missing; a header not in bearer form is refused as malformed; a credential that does not decrypt is refused as invalid; a decrypted token is refused as expired iff now is strictly after its expiration, and otherwise its subject is authenticated |
| `Middleware.AuthenticatedIff` | main.go:43-69 | a request is authenticated as a subject iff the header is in bearer form, its credential decrypts, now is at or before expiration, and the subject is the decrypted one |
| `Middleware.GateConsultsOnlyCredential` | main.go:36-60 | decryption is consulted on the credential only; a missing or malformed header is refused whatever decryption would return |
| `Middleware.ExpirationBoundary` | main.go:62-66 | a decrypted token passes at exactly its expiration instant and is refused as expired one nanosecond later |
| `Middleware.AcceptedEarlier` | main.go:62-69 | a request that passes at some instant passes, with the same subject, at every earlier instant |
| `Middleware.AuthMiddleware` | main.go:34-71 | every rejection writes 401 with the reason's message and aborts, without storing a subject or running the protected handler; acceptance stores the subject under "username", writes nothing, and runs the handler |
| `Handlers.Login` | main.go:93-116 | 400 "Invalid request" iff the body does not bind; 401 "Invalid credentials" iff the credentials are not the placeholder ones; 500 "Failed to generate token" iff encrypting the new claims fails; 200 otherwise, with the token that encryption produced |
| `Handlers.IssuedTokenOpensGate` | main.go:55-90 | if decryption undoes encryption, a generated token sent as `Bearer <token>` authenticates its user up to and including one hour after issue, and is refused as expired after that |
| `Handlers.LoginTokenOpensGate` | main.go:105-112 | if decryption undoes encryption, the token in a 200 login reply lets the placeholder user through for exactly one hour |

## Left out

- PASETO v2 local encryption and decryption (XChaCha20-Poly1305 and the
  token encoding) are library code. They are function parameters here. That
  decryption undoes encryption is assumed through `RoundTrips`, never proved.
  Tamper and wrong-key sensitivity are cipher properties and are not stated.
- The library's serialisation of claims is not modelled. The round-trip
  assumption takes decryption to return the timestamps exactly as encrypted.
  If the library writes timestamps at whole-second precision, the real window
  of `Handlers.IssuedTokenOpensGate` closes at the last whole second at or
  before `issuedAt + Hour`, up to one second earlier than the model says.
- PASETO v2 encryption draws a random nonce. An `Encrypter` value fixes one
  draw, so encryption is deterministic in the model and not in the library.
- `JSONToken` fields this program neither sets nor reads (audience, issuer,
  token id, not-before, extra claims) are left out. The gate does not check
  not-before.
- Instants are unbounded integers. Go's `time.Time` range limits and the
  monotonic clock reading are not modelled.
- Reading `PASETO_SECRET_KEY`, printing the key, and the `log.Fatal` exit are
  I/O. The loaded value is a parameter, and a fatal exit is a `Failure` result.
- `log.Printf` on encryption failure is output only and is not modelled.
- JSON binding of the login body is left out: a failed bind is `None`.
- gin plumbing is reduced to the reply written, the abort flag, the key/value
  store and whether the rest of the chain ran. That covers `c.GetHeader`,
  `c.JSON`, `c.Abort`, `c.Set` and `c.Next`. What the protected handler does
  is not modelled.
- `privateRoute`, `setupRouter`, `Server` and `main` are routing and process
  start-up, with no decision logic.
- Requests are handled one at a time in this model. The source shares only
  the read-only key between requests, so concurrency adds nothing to it.
