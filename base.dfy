/** Small value wrappers shared by every module of the model. */
module Base {

  /** A JavaScript value that may be `undefined` (or a database column that may be null). */
  datatype Option<+T> = None | Some(value: T)

  /** The outcome of a step that may throw: the value, or the failure it raised. */
  datatype Result<+T, +E> = Ok(value: T) | Err(error: E)
}
