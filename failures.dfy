/** The exceptions the encoder can raise, and a result type carrying them. */
module Failures {

  /** The Python exception a step of the encoder raises on malformed input. */
  datatype Error =
    | IndexError      // a list, string or array index out of range
    | KeyError        // a dictionary lookup of a missing key
    | ValueError      // int() of a non-number, list.index() of a missing item
    | AssertionError  // a failed assert statement

  /** Either the value a step computes or the exception it raises. */
  datatype Result<T> = Ok(value: T) | Err(error: Error)

  /** An optional value (a square that may be absent, a lookup that may miss). */
  datatype Option<T> = None | Some(value: T)
}
