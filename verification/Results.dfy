/** The two result shapes the repository's signatures use. */
module Results {

  datatype Option<+T> = None | Some(value: T)

  /** A Rust `Result`; usable with `:-` the way the source uses `?`. */
  datatype Result<+T, +E> = Success(value: T) | Failure(error: E) {

    predicate IsFailure() {
      Failure?
    }

    function PropagateFailure<U>(): Result<U, E>
      requires Failure?
    {
      Failure(error)
    }

    function Extract(): T
      requires Success?
    {
      value
    }
  }
}
