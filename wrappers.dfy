/**
 * Option and result types, and the kinds of unchecked exception the library
 * throws. An operation that throws in the source returns `Err`/`Fail` here.
 */
module Wrappers {
  datatype Option<T> = None | Some(value: T)

  /** The Java exception classes the library raises. */
  datatype Failure =
    | NullPointer        // NullPointerException
    | IllegalArgument    // IllegalArgumentException
    | IllegalState       // IllegalStateException
    | IndexOutOfBounds   // ArrayIndexOutOfBoundsException
    | NumberFormat       // NumberFormatException

  datatype Result<T> = Ok(value: T) | Err(error: Failure)

  /** The outcome of a call that returns nothing but may throw. */
  datatype Outcome = Pass | Fail(error: Failure)
}
