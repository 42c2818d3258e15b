/** Failure-carrying values shared by the other modules: an optional value (Python's None),
    a result that is either a value or an error message (a raised ValidationError), and an
    outcome with no value (a `clean()` that either returns or raises). */
module Wrappers {

  datatype Option<+T> = None | Some(value: T)

  datatype Result<+T, +E> = Ok(value: T) | Err(error: E)

  datatype Outcome<+E> = Pass | Fail(error: E)
}
