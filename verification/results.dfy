/** Failure-compatible wrappers shared by the generation orchestrator and the pipe queue:
    an `Option` for values that may be absent (Python's `None`, Java's `null`) and a
    `Result` for operations that either return a value or raise an exception. */
module Results {

  datatype Option<+T> = None | Some(value: T)

  datatype Result<+T, +E> = Success(value: T) | Failure(error: E) {

    predicate IsFailure() {
      Failure?
    }

    function PropagateFailure<U>(): Result<U, E>
      requires Failure?
    {
      Failure(error)
    }

    function Extract(): T
      requires Success?
    {
      value
    }
  }
}
