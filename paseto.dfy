/**
 * The vocabulary shared by the issuer and the gate: byte strings, the secret
 * key, instants, the claims a token carries, and the PASETO v2 "local"
 * encryption and decryption calls, which are foreign to this model and are
 * therefore taken as parameters.
 */
module Paseto {
  import opened Wrappers

  newtype byte = b: int | 0 <= b < 256

  /** The key size PASETO v2 local tokens demand, in bytes. */
  const KeySize: nat := 32

  /** A key that has passed the startup check. */
  type SecretKey = k: seq<byte> | |k| == KeySize witness seq(KeySize, _ => 0)

  /** A point in time, in nanoseconds on an arbitrary fixed epoch (Go's `time.Time`). */
  type Instant = int

  /** Go's `time.Hour`, a duration in nanoseconds. */
  const Hour: int := 3_600_000_000_000

  /** `t.After(u)`: strictly later. */
  predicate After(t: Instant, u: Instant) { t > u }

  /** The part of `paseto.JSONToken` this program sets or reads. */
  datatype Claims = Claims(subject: string, issuedAt: Instant, expiration: Instant)

  /** What decryption fills in: the claims payload and the footer. */
  datatype Decrypted = Decrypted(claims: Claims, footer: string)

  /** The error the library reports; its text is never examined here. */
  datatype CryptoError = CryptoError(message: string)

  /** `paseto.NewV2().Encrypt(key, claims, footer)`. */
  type Encrypter = (SecretKey, Claims, string) -> Result<string, CryptoError>

  /** `paseto.NewV2().Decrypt(token, key, &payload, &footer)`. */
  type Decrypter = (string, SecretKey) -> Result<Decrypted, CryptoError>

  /**
   * The one thing assumed of the cipher: a token that `encrypt` produced under
   * a key decrypts, under that key, to exactly the claims and footer encrypted.
   * It is never proved; results that need it take it as a precondition.
   */
  ghost predicate RoundTrips(encrypt: Encrypter, decrypt: Decrypter)
  {
    forall key, claims, footer ::
      encrypt(key, claims, footer).Success? ==>
        decrypt(encrypt(key, claims, footer).value, key) == Success(Decrypted(claims, footer))
  }
}
