/** Optional values and results shared by the whole model: `Option` stands for a
    JavaScript value that may be `null`/`undefined`, `Result` for an operation that
    either yields a value or throws. */
module Wrappers {

  datatype Option<+T> = None | Some(value: T) {

    /** The wrapped value, or `default` when absent (JavaScript's `x || default`
        for a value that is never a falsy non-null). */
    function GetOr(default: T): T {
      match this
      case Some(v) => v
      case None => default
    }

  }

  datatype Result<+T, +E> = Ok(value: T) | Err(error: E)
}
