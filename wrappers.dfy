/** Option and Result, used for Java's nullable values and thrown argument errors. */
module Wrappers {

  /** `None` stands for a Java `null`. */
  datatype Option<+T> = None | Some(value: T)

  /** `Failure` stands for an exception thrown before any work is done. */
  datatype Result<+R, +E> = Success(value: R) | Failure(error: E)
}
