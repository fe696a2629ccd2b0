/**
 * The tagged results every service function returns (`{success, message, error?}`),
 * the machine-readable error codes they carry, and the store faults they map.
 */
module Codes {

  /**
   * The `error` codes of the services, the token gate and the routes; each
   * constructor is its wire code in camel case (`MissingFields` is "MISSING_FIELDS").
   */
  datatype Code =
    | MissingFields | InvalidAmount | InvalidType | InvalidDate
    | ValidationError | InvalidDataFormat | InvalidIdFormat | ServerError
    | TransactionNotFound | EmptyUpdate | TransactionCreationFailed
    | UserExists | DuplicateEmail | InvalidEmail | InvalidCredentials
    | NoToken | InvalidToken | UserNotAuthenticated

  /** A service result: `success: true` with a payload, or `success: false` with an error code. */
  datatype ServiceResult<+T> = Ok(message: string, value: T) | Fail(message: string, code: Code)

  /** The outcome of a chain of input checks: the value built from the input, or the first failing check. */
  datatype Verdict<+T> = Accept(value: T) | Reject(message: string, code: Code)

  /**
   * What a store call may throw: a Mongoose `ValidationError`, a `CastError`,
   * a MongoDB duplicate-key error (code 11000), or anything else.
   */
  datatype StoreFault = SchemaRejected | CastFailed | DuplicateKey | OtherFault
}
