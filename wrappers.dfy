/** Optional values and success-or-error results, used where the Java code passes null or throws. */
module Wrappers {

  /** `None` stands for a Java `null`. */
  datatype Option<+T> = None | Some(value: T)

  /** `Failure` stands for an exception thrown to the caller. */
  datatype Result<+T, +E> = Success(value: T) | Failure(error: E)
}
