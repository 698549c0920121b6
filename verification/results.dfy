/** Optional values and fallible results, used where the source either
    defaults a missing argument or throws. */
module Results {

  /** A value that may be absent, such as an omitted JavaScript argument. */
  datatype Option<+T> = None | Some(value: T) {

    /** The carried value, or `default` when absent (a JavaScript default parameter). */
    function GetOr(default: T): (r: T)
      ensures Some? ==> r == value
      ensures None? ==> r == default
    {
      match this
      case Some(v) => v
      case None => default
    }
  }

  /** The outcome of an operation that can fail with an error of type `E`. */
  datatype Result<+T, +E> = Ok(value: T) | Err(error: E)
}
