/** The optional and fallible values the model's operations return. */
module Wrappers {
  /** A value that may be absent (`undefined`, or a failed lookup). */
  datatype Option<+T> = None | Some(value: T) {
    function GetOr(default: T): T {
      if Some? then value else default
    }
  }

  /** A returned value, or the error thrown instead. */
  datatype Result<+T, +E> = Ok(value: T) | Err(error: E)
}
