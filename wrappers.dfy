/** Option and result datatypes shared by the whole model.
    A C pointer that may be NULL is an `Option`; a call that returns a value
    or fills a `GError` is a `Result`; one that returns only TRUE or FALSE
    together with a `GError` is an `Outcome`. */
module Wrappers {

  datatype Option<+T> = None | Some(value: T)

  datatype Result<+R, +E> = Success(value: R) | Failure(error: E)

  datatype Outcome<+E> = Pass | Fail(error: E)
}
