/** Option and Result, the two failure-carrying types the model uses. */
module Wrappers {

  /** A value that may be absent: JavaScript's `undefined` becomes `None`. */
  datatype Option<+T> = None | Some(value: T) {

    predicate IsFailure() {
      None?
    }

    function PropagateFailure<U>(): Option<U>
      requires None?
    {
      None
    }

    function Extract(): T
      requires Some?
    {
      value
    }

    function GetOr(default: T): T {
      if Some? then value else default
    }
  }

  /** The outcome of an operation that can throw: `Failure` carries the message. */
  datatype Result<+R, +E> = Success(value: R) | Failure(error: E)
}
