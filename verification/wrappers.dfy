/** Wrappers shared by the model: an optional value (a blank table cell) and
    a value-or-error result (the error being what stopped the script). */
module Wrappers {

  datatype Option<+T> = None | Some(value: T)

  datatype Result<+R, +E> = Success(value: R) | Failure(error: E)
}
