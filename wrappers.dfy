/** Failure-carrying results: Java's null returns and thrown exceptions, made explicit. */
module Wrappers {

  /** A value that may be absent: a Java reference that may be null. */
  datatype Option<T> = None | Some(value: T)

  /** A value, or the exception that was thrown instead of returning one. */
  datatype Result<T, E> = Success(value: T) | Failure(error: E)

  /** A void operation that either completes or throws. */
  datatype Outcome<E> = Pass | Fail(error: E)
}
