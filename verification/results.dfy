/** Absent values and failures. A Python `None` default becomes `None`, and an
    exception the source raises (a failed `assert`, a duplicated keyword
    argument) becomes a `Failure` carrying what went wrong. */
module Results {

  datatype Option<+T> = None | Some(value: T) {

    /** The held value, or `default` when absent (Python's `dict.get(k, default)`). */
    function GetOr(default: T): T {
      match this
      case Some(v) => v
      case None => default
    }
  }

  /** A call either returns a value or raises; `:-` propagates the failure. */
  datatype Result<+T, +E> = Success(value: T) | Failure(error: E) {

    predicate IsFailure() {
      Failure?
    }

    function PropagateFailure<U>(): Result<U, E>
      requires Failure?
    {
      Failure(error)
    }

    function Extract(): T
      requires Success?
    {
      value
    }
  }
}
