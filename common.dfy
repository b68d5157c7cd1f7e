/** Small value types shared by the modules of the model. */
module Common {

  /** A value that may be absent: JavaScript's `undefined` / `null`. */
  datatype Option<+T> = None | Some(value: T)

  /** The result of an operation that either completes or throws an `Error` with a reason. */
  datatype Outcome<+E> = Pass | Fail(error: E)

  /** The value an operation computes, or the reason it throws. */
  datatype Result<+T, +E> = Ok(value: T) | Err(error: E)
}
