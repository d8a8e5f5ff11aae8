/**
 * Loading the secret key at process start (`init` in main.go). The process
 * exit that the source performs on a bad key is modelled as a `Failure`
 * carrying the fault; the value read from `PASETO_SECRET_KEY` is a parameter
 * (an unset variable reads as the empty value, as `os.Getenv` does).
 */
module KeyStore {
  import opened Wrappers
  import opened Paseto

  /** The two fatal startup conditions, in the order the source tests them. */
  datatype StartupFault = KeyWrongLength | KeyMissing

  /** The text the process logs before it exits. */
  function FatalMessage(fault: StartupFault): string
  {
    match fault
    case KeyWrongLength => "PASETO_SECRET_KEY must be 32 bytes long"
    case KeyMissing => "PASETO_SECRET_KEY environment variable is required"
  }

  /**
   * The key is checked for length first and for emptiness second; only a
   * value that passes both becomes the process-wide key.
   */
  function LoadKey(value: seq<byte>): (r: Result<SecretKey, StartupFault>)
    ensures r.Success? <==> |value| == KeySize
    ensures r.Success? ==> r.value == value
    // The emptiness check can never be the one that fires.
    ensures r.Failure? ==> r.error == KeyWrongLength
    ensures r.Failure? ==> FatalMessage(r.error) == "PASETO_SECRET_KEY must be 32 bytes long"
  {
    if |value| != KeySize then Failure(KeyWrongLength)
    else if value == [] then Result<SecretKey, StartupFault>.Failure(KeyMissing)
    else Success(value)
  }
}
