/** The application errors the queue worker tells apart (internal/errors/errors.go). */
module Errors {

  datatype ErrorCode =
    | BadRequest | Unauthorized | Forbidden | NotFound | Conflict | Validation | RateLimited
    | Internal | Database | CryptoError | Network | Timeout | Unavailable
    | MessageInvalid | PartnerNotFound | KeyExpired | SignatureInvalid | EncryptionFailed

  datatype AppError = AppError(code: ErrorCode, retryable: bool)

  predicate RetryableCode(code: ErrorCode) {
    match code
    case Timeout | Unavailable | Network | RateLimited => true
    case _ => false
  }

  /** Every constructor of the source goes through this one. */
  function New(code: ErrorCode): AppError {
    AppError(code, RetryableCode(code))
  }
}
