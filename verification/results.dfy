/** Failure-carrying wrappers used by the driver model.
    - Option<T> stands for a Python value that may be `None`.
    - Result<T, E> stands for a call that either returns a value or raises. */
module Results {

  /** A value that may be absent (`None` in the source). */
  datatype Option<+T> = None | Some(value: T)

  /** Either the returned value or the error that was raised instead. */
  datatype Result<+T, +E> = Success(value: T) | Failure(error: E)
}
