/** Failure-carrying wrappers shared by every module: an absent dictionary key
    or argument is `None`, a raised exception is `Failure(message)`. */
module Base {

  datatype Option<T> = None | Some(value: T) {
    /** Python's `d.get(key, default)` once the lookup has been made. */
    function GetOr(default: T): T {
      if Some? then value else default
    }
  }

  datatype Result<T, E> = Success(value: T) | Failure(error: E)
}
