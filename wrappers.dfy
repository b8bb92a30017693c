/** Option, Result and Outcome: the model's stand-ins for Swift optionals, throwing calls and
    `throws` functions that return nothing. */
module Wrappers {

  datatype Option<+T> = None | Some(value: T) {
    /** Swift's `a ?? b` on two optionals: this value when present, otherwise `other`. */
    function OrElse(other: Option<T>): Option<T> {
      if Some? then this else other
    }
  }

  datatype Result<+T, +E> = Success(value: T) | Failure(error: E)

  datatype Outcome<+E> = Pass | Fail(error: E)
}
