/** The exception classes that the core raises, catches or maps to protocol errors. */
module Errors {

  /**
   * One constructor per exception class that matters to the control flow.
   * `ResponseError`, `ConnectionError` and `DataError` are the three kinds of
   * `RedisError` (the server answered with an error; the server could not be
   * reached; the client refused an argument before sending anything).
   */
  datatype Exception =
    | ValueError(message: string)
    | LookupError(message: string)
    | ValidationError(message: string)
    | ResponseError(message: string)
    | ConnectionError(message: string)
    | DataError(message: string)
    | AttributeError(message: string)
    | TypeError(message: string)
    | IntegrityError(message: string)
  {
    /** `isinstance(e, RedisError)` */
    predicate IsRedisError() { ResponseError? || ConnectionError? || DataError? }
  }
}
