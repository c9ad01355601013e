/** Failure-compatible optional values. `None` plays the part of Python's
    `None` return (or of a raised-and-caught exception); `:-` propagates it. */
module Wrappers {

  datatype Option<+T> = None | Some(value: T) {

    predicate IsFailure() {
      None?
    }

    function PropagateFailure<U>(): Option<U>
      requires None?
    {
      None
    }

    function Extract(): T
      requires Some?
    {
      value
    }
  }
}
