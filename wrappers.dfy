/** The optional value used wherever the Python source returns `None`, and the
    outcome of a step that may raise. */
module Wrappers {

  datatype Option<+T> = None | Some(value: T) {

    /** `x or default` / `d.get(k, default)` */
    function GetOr(default: T): T {
      match this
      case Some(v) => v
      case None => default
    }
  }

  datatype Result<+T, +E> = Success(value: T) | Failure(error: E)
}
