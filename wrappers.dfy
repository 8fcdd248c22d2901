/** Small value wrappers shared by the model: an optional value, a success-or-error
    result, and the outcome of Python's int()/float() applied to a JSON value. */
module Wrappers {

  datatype Option<+T> = None | Some(value: T) {
    function GetOr(default: T): T {
      match this
      case Some(v) => v
      case None => default
    }
  }

  datatype Result<+T, +E> = Ok(value: T) | Err(error: E)

  /** What a numeric conversion (`int(x)`, `float(x)`) made of a JSON value:
      a number, or a ValueError. */
  datatype Parse<+T> = Parsed(value: T) | Unparsable
}
