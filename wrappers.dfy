/** Optional values and results with an error, used for the optional keys of a
    documentation-source record and for the exceptions the server raises. */
module Wrappers {

  /** A key that may be absent from a record. */
  datatype Option<T> = None | Some(value: T) {

    /** The value if present, otherwise `default` (Python's `dict.get(key, default)`). */
    function GetOr(default: T): T {
      match this
      case Some(v) => v
      case None => default
    }
  }

  /** Either a value or the error the source raises instead of returning. */
  datatype Result<T, E> = Success(value: T) | Failure(error: E)
}
