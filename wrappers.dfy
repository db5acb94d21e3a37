/** Wrappers used by the rest of the model: `Option` for JavaScript's
    `null`/`undefined`, `Result` for a value or a thrown error, `Outcome` for an `async`
    method that returns nothing or throws. */
module Wrappers {

  datatype Option<+T> = None | Some(value: T)

  datatype Result<+T, +E> = Success(value: T) | Failure(error: E)

  datatype Outcome<+E> = Pass | Fail(error: E)
}
