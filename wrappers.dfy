/** Optional values and results with an error, as used across the model. */
module Wrappers {

  /** A value that may be absent, such as Python's `None`. */
  datatype Option<+T> = None | Some(value: T)
  {
    function GetOr(default: T): T
    {
      match this
      case Some(v) => v
      case None => default
    }
  }

  /** The outcome of an operation that may fail with an error of type E. */
  datatype Result<+T, +E> = Success(value: T) | Failure(error: E)

  /** The elements of an option as a sequence of length zero or one. */
  function OptionToSeq<T>(o: Option<T>): seq<T>
  {
    match o
    case Some(v) => [v]
    case None => []
  }
}
