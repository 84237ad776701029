/** Option, Result and Outcome: the error paths of the modelled Python code
    (a raised exception becomes a Failure or a Fail value). */
module Wrappers {

  datatype Option<+T> = None | Some(value: T)

  datatype Result<+R, +E> = Success(value: R) | Failure(error: E)

  datatype Outcome<+E> = Pass | Fail(error: E)
}
