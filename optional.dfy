/** Optional values and failures, standing in for JavaScript's `undefined`/`null` and thrown errors. */
module Optional {

  /** A value that may be absent (`undefined` or `null` in the source). */
  datatype Option<+T> = None | Some(value: T) {
    /** The value, or `d` when absent (the source's `x ?? d`). */
    function GetOr(d: T): T {
      match this
      case Some(v) => v
      case None => d
    }
  }

  /** The outcome of an operation that may reject with an error. */
  datatype Result<+T, +E> = Ok(value: T) | Err(error: E)
}
