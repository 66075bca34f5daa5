/** Option and Result, the two failure-carrying types the model uses. `None`
    stands for JavaScript's `undefined`; `Failure(message)` for a thrown
    error whose `message` is the given text. */
module Wrappers {

  datatype Option<+T> = None | Some(value: T)

  datatype Result<+R> = Success(value: R) | Failure(error: string) {

    predicate IsFailure() {
      Failure?
    }

    function PropagateFailure<U>(): Result<U>
      requires Failure?
    {
      Failure(error)
    }

    function Extract(): R
      requires Success?
    {
      value
    }
  }
}
