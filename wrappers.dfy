/** Option and Result, failure-compatible so that `:-` can chain parser steps. */
module Wrappers {

  datatype Option<+T> = None | Some(value: T) {
    predicate IsFailure() { None? }

    function PropagateFailure<U>(): Option<U>
      requires None?
    {
      None
    }

    function Extract(): T
      requires Some?
    {
      value
    }
  }

  /** The outcome of an encode or decode call: a value, or the reason it failed. */
  datatype Result<+R, +E> = Success(value: R) | Failure(error: E)
}
