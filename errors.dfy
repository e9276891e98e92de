/** Error variants of the back-end and the failure-compatible wrappers every
    component returns. */
module Errors {

  /** Failures of the platform secret store. */
  datatype KeyringError =
    | NoEntry       // no secret stored under the requested key
    | Unavailable   // the platform store cannot be reached

  /** The application error type: one variant per kind of failure. */
  datatype AppError =
    | AwsCli(message: string)
    | Io(message: string)
    | Json(message: string)
    | Totp(message: string)
    | QrCode(message: string)
    | ProfileNotFound(profile: string)
    | PortInUse(port: int)
    | Keyring(cause: KeyringError)
    | Custom(message: string)

  datatype Option<+T> = None | Some(value: T)

  /** Result of an operation that can fail with an AppError; usable with `:-`. */
  datatype Result<+T> = Ok(value: T) | Err(error: AppError) {
    predicate IsFailure() { Err? }

    function PropagateFailure<U>(): Result<U>
      requires Err?
    {
      Err(error)
    }

    function Extract(): T
      requires Ok?
    {
      value
    }

    /** `.ok()`: keep the value, forget the error. */
    function ToOption(): (o: Option<T>)
      ensures o.Some? <==> Ok?
      ensures o.Some? ==> o.value == value
    {
      match this
      case Ok(v) => Some(v)
      case Err(_) => None
    }
  }

  /** Outcome of a foreign decoder (JSON, base32, URL, image): the decoded value
      or the decoder's own error text. */
  datatype Decoded<+T> = Decoded(value: T) | Malformed(reason: string)
}
