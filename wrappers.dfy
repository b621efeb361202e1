/** Option and Result: a Kotlin `null` and a thrown exception, as values. */
module Wrappers {

  /** A nullable Kotlin value: `None` stands for `null`. */
  datatype Option<+T> = None | Some(value: T)

  /** The outcome of a computation that may throw: `Err` carries what was thrown. */
  datatype Result<+T, +E> = Ok(value: T) | Err(error: E)
}
