/**
 * The poller's error taxonomy as values, together with the small
 * failure-carrying wrappers the other modules return instead of raising.
 */
module Exceptions {

  datatype Option<+T> = None | Some(value: T)

  /** Every exception the modelled code raises or catches. */
  datatype Error =
    // the project's own exception classes
    | DataValidationError
    | SecurityError
    | PriceIntegrityError
    | DataIntegrityError
    | RateLimitExceeded
    | DatabaseError
    // raised by collaborators: the API library's error, carrying its optional `code` attribute
    | V20Error(code: Option<string>)
    // any other exception out of the API transport (not one the retry decorator catches)
    | TransportError
    // the store refusing a row whose primary key is already taken
    | IntegrityError
    // any other failure of the store (I/O, locking, a full disk)
    | StorageFault
    // a name used in a body but never bound
    | UndefinedName
    // an operation applied to a value of the wrong kind (`len` of a number)
    | TypeError

  datatype Result<+T> = Ok(value: T) | Err(error: Error)

  datatype Outcome = Pass | Fail(error: Error)
}
