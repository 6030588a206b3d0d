/** Optional values and two-outcome results, as the wrapper's primitives and
    its unwrap operation return them. */
module Results {

  /** A value that may be missing; `None` from a guarded access means that the
      child is unavailable. */
  datatype Option<+T> = None | Some(value: T) {

    /** The held value, or `default` when there is none. */
    function UnwrapOr(default: T): T {
      match this
      case Some(v) => v
      case None => default
    }
  }

  /** A success value or a recoverable failure value. */
  datatype Result<+T, +E> = Ok(value: T) | Err(error: E)
}
