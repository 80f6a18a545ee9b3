/** Failure-compatible wrappers shared by the whole model.
    - Option<T>: a value that may be absent.
    - Result<T, E>: a computed value, or the exception that interrupted the
      computation. Both work with `:-`, so a chain of JavaScript property
      accesses reads as a chain of `var x :- ...;` steps.
 */
module Wrappers {

  datatype Option<+T> = None | Some(value: T)

  datatype Result<+T, +E> = Success(value: T) | Failure(error: E) {

    /** True if the computation threw */
    predicate IsFailure() {
      Failure?
    }

    /** Re-types a Failure so that it can be returned by an enclosing computation */
    function PropagateFailure<U>(): Result<U, E>
      requires Failure?
    {
      Failure(error)
    }

    /** The value of a Success */
    function Extract(): T
      requires Success?
    {
      value
    }

    /** The value of a Success, or `default` when the computation threw:
        this is what a `try { ... } catch { }` that swallows the exception gives. */
    function GetOr(default: T): T {
      match this
      case Success(v) => v
      case Failure(_) => default
    }
  }
}
