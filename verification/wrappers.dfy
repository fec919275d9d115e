/** Option and Result: the model's form of Go's nil pointers and (value, error) pairs. */
module Wrappers {

  datatype Option<+T> = None | Some(value: T) {

    /** The value, or `default` when there is none (Go: `if v != nil { x = *v }`). */
    function GetOr(default: T): T {
      match this
      case Some(v) => v
      case None => default
    }
  }

  datatype Result<+R, +E> = Success(value: R) | Failure(error: E) {

    /** The value as an Option: what a Go caller sees in the pointer half of the pair. */
    function ToOption(): Option<R> {
      match this
      case Success(v) => Some(v)
      case Failure(_) => None
    }

    /** The error as an Option: what a Go caller sees in the error half of the pair. */
    function ErrorOption(): Option<E> {
      match this
      case Success(_) => None
      case Failure(e) => Some(e)
    }
  }
}
