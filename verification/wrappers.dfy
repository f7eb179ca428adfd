/** Small failure-carrying datatypes shared by the other modules. */
module Wrappers {

  /** A value that may be absent, such as a command-line option that was not given. */
  datatype Option<+T> = None | Some(value: T)

  /** Either a value or an error describing why there is none. */
  datatype Result<+T, +E> = Success(value: T) | Failure(error: E)
}
