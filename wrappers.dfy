/** Failure-carrying values shared by the codec, the call controller and the chat view. */
module Wrappers {

  /** A value that may be absent (a JavaScript `null`, `undefined` or falsy field). */
  datatype Option<+T> = None | Some(value: T)

  /** The outcome of an operation that may throw. */
  datatype Result<+T, +E> = Ok(value: T) | Err(error: E)

  /** The platform exceptions the codec can raise. */
  datatype JsError =
    | InvalidCharacterError  // atob/btoa: a character outside the accepted alphabet
    | RangeError             // an Int16Array view over an odd number of bytes
}
