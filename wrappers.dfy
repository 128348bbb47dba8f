/** Failure-compatible return values used across the model. */
module Wrappers {

  /** A possibly missing value (JavaScript `null`/`undefined`, Python `None`). */
  datatype Option<+T> = None | Some(value: T)

  /** A value or the error the source would raise instead of returning. */
  datatype Result<+T> = Ok(value: T) | Err(error: string)
}
