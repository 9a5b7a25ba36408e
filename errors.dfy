/** The exceptions CubicPath raises, as values. */
module Errors {

  /** IllegalArgumentException (with its message) and the IndexOutOfBoundsException
      that java.util.List.get raises. */
  datatype Error =
    | IllegalArgument(message: string)
    | IndexOutOfBounds(index: int)

  /** A value or the exception thrown instead of producing it. */
  datatype Result<T> = Success(value: T) | Failure(error: Error)

  /** Normal completion or the exception thrown. */
  datatype Outcome = Pass | Fail(error: Error)
}
