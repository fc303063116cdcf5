/** Failure-carrying return values: a Python function that either returns a
    value or raises is modelled as a `Result`, one that returns nothing or
    raises as an `Outcome`, and a dictionary lookup as an `Option`. */
module Wrappers {

  datatype Option<+T> = None | Some(value: T)

  datatype Result<+R, +E> = Success(value: R) | Failure(error: E)

  datatype Outcome<+E> = Pass | Fail(error: E)
}
