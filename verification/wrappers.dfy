/** Absent-or-present values and success-or-failure results, used for the
    optional keys of a profile document and for analyses that can fail. */
module Wrappers {

  /** A value that may be missing: `None` stands for an absent key. */
  datatype Option<+T> = None | Some(value: T) {

    /** The value if present, otherwise `default` (the `dict.get(key, default)` idiom). */
    function GetOr(default: T): T {
      match this
      case Some(v) => v
      case None => default
    }
  }

  /** The outcome of an analysis that may abort with an error. */
  datatype Result<+R, +E> = Success(value: R) | Failure(error: E)
}
