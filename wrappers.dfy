/** Optional values and results, used for JavaScript's `undefined` and for failed calls. */
module Wrappers {

  /** `None` stands for an absent (undefined) value. */
  datatype Option<+T> = None | Some(value: T) {

    predicate IsFailure() {
      None?
    }

    function PropagateFailure<U>(): Option<U>
      requires None?
    {
      None
    }

    function Extract(): T
      requires Some?
    {
      value
    }
  }

  /** The outcome of an outbound call that either answers or rejects. */
  datatype Result<+R, +E> = Success(value: R) | Failure(error: E)
}
