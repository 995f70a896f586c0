/** Option and Result, the two failure-carrying types of the ledger.
    `Result` is failure-compatible, so `:-` models Rust's `?` operator. */
module Wrappers {

  datatype Option<+T> = None | Some(value: T) {

    /** Rust's `ok_or`: a missing value becomes the given error. */
    function OkOr<E>(error: E): (r: Result<T, E>)
      ensures r.Ok? <==> Some?
      ensures Some? ==> r.value == value
      ensures None? ==> r.error == error
    {
      match this
      case Some(v) => Ok(v)
      case None => Err(error)
    }
  }

  datatype Result<+T, +E> = Ok(value: T) | Err(error: E) {

    predicate IsFailure() {
      Err?
    }

    function PropagateFailure<U>(): Result<U, E>
      requires Err?
    {
      Err(error)
    }

    function Extract(): T
      requires Ok?
    {
      value
    }
  }
}
