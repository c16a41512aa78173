/** Option and Result, the two wrappers used throughout the model. */
module Wrappers {

  /** A value that may be absent: Python's `None` for an optional field. */
  datatype Option<+T> = None | Some(value: T)

  /** The outcome of a step that may fail with an error of type E. */
  datatype Result<+T, +E> = Ok(value: T) | Err(error: E)

  /** The value when present, else the default. */
  function GetOr<T>(o: Option<T>, default: T): T
  {
    match o
    case Some(v) => v
    case None => default
  }
}
