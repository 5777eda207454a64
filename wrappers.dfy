/** Failure-carrying wrappers shared by the ledger modules. */
module Wrappers {

  /** A value that may be absent: a missing request field or query parameter. */
  datatype Option<+T> = None | Some(value: T)

  /** Either a value or an error that the HTTP layer turns into a 400 response. */
  datatype Result<+R, +E> = Success(value: R) | Failure(error: E)
}
