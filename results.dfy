/** Failure-compatible wrappers shared by the ledger and the pricing service. */
module Results {

  /** A value that may be missing (a JavaScript `null` or an absent key). */
  datatype Option<+T> = None | Some(value: T)

  /** The value of an operation that may throw. */
  datatype Result<+T, +E> = Success(value: T) | Failure(error: E)

  /** The completion of an operation that returns nothing but may throw. */
  datatype Outcome<+E> = Pass | Fail(error: E)
}
