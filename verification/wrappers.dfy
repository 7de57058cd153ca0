/**
  The two outcome types of the model: a value that JavaScript may leave
  `undefined`, and a call that either completes or throws.
*/
module Wrappers {

  /** A lookup result: `None` is JavaScript's `undefined`, as returned by
      lodash `get` on a missing path or by reading an empty ledger. */
  datatype Option<+T> = None | Some(value: T) {

    predicate IsFailure() {
      None?
    }

    function PropagateFailure<U>(): Option<U>
      requires None?
    {
      None
    }

    function Extract(): T
      requires Some?
    {
      value
    }
  }

  /** The outcome of `assignState`: `Failure` is the error the debug guard
      throws, `Success` carries the updated store or box. The `:-` operator
      stops at the throw, as the source does. */
  datatype Result<+R, +E> = Success(value: R) | Failure(error: E) {

    predicate IsFailure() {
      Failure?
    }

    function PropagateFailure<U>(): Result<U, E>
      requires Failure?
    {
      Failure(error)
    }

    function Extract(): R
      requires Success?
    {
      value
    }
  }
}
