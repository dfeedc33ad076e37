/** Small failure-carrying datatypes shared by the other modules. */
module Wrappers {

  /** A value that may be absent; also Python's `None` where a field is "str or None". */
  datatype Option<+T> = None | Some(value: T)

  /** Either a normal result or the exception that the modelled code raises. */
  datatype Result<+R, +E> = Success(value: R) | Failure(error: E)
}
