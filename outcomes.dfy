/** Values shared by the billing and the subscription contracts: the caller
    identity and the tagged result every public call returns. */
module Outcomes {

  /** An account, identified by its principal (an opaque string supplied by the host). */
  type Principal = string

  /** The two error codes the contracts return: "err-insufficient-balance" and "err-not-found". */
  datatype ErrorCode = ErrInsufficientBalance | ErrNotFound

  /** `{ success: true, value }` or `{ success: false, error }`. */
  datatype Result<T> = Success(value: T) | Failure(error: ErrorCode)
}
