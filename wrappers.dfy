/** Small datatypes shared by both components: optional values, the settled
    result of an awaited call into an external service, and the bare
    success or failure of such a call. */
module Wrappers {

  /** A value that may be absent (JavaScript `undefined`). */
  datatype Option<+T> = None | Some(value: T)

  /** An awaited external call that either resolves with a value or rejects. */
  datatype Result<+T> = Ok(value: T) | Rejected

  /** An awaited external call that resolves with nothing or rejects. */
  datatype Outcome = Succeeds | Fails

  function Min(a: int, b: int): int
  {
    if a <= b then a else b
  }
}
