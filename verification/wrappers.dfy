/** Option and Result, the shapes used for Java's nullable references and thrown exceptions. */
module Wrappers {

  /** A Java reference that may be null. */
  datatype Option<+T> = None | Some(value: T)

  /** Either a returned value or a thrown exception. */
  datatype Result<+T, +E> = Success(value: T) | Failure(error: E)
}
