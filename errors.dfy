/** The exceptions raised by the modelled components. */
module Errors {
  import opened Wrappers

  /** The error codes of WSSecurityException that the modelled code uses (`GeneralFailure` is FAILURE). */
  datatype ErrorCode = GeneralFailure | FailedSignature | SecurityTokenUnavailable | InvalidSecurity

  /** The cause chained to an exception. */
  datatype Cause =
    | PolicyViolation(message: string)     // PolicyViolationException
    | LibraryException(name: string)       // an exception of an external library, by class name

  /**
   * A WSSecurityException carries a code, an optional message key, its message arguments
   * (an argument may be null) and an optional cause. `NullPointer` is the
   * NullPointerException the code raises when it dereferences a value that is null
   * in the current configuration.
   */
  datatype SecurityError =
    | WSSecurityException(code: ErrorCode, msgKey: Option<string>, args: seq<Option<string>>, cause: Option<Cause>)
    | NullPointer

  /** `new WSSecurityException(code, msgKey)` */
  function Raise(code: ErrorCode, msgKey: string): SecurityError {
    WSSecurityException(code, Some(msgKey), [], None)
  }

  /** `new WSSecurityException(code, msgKey, args)` */
  function RaiseWith(code: ErrorCode, msgKey: string, args: seq<Option<string>>): SecurityError {
    WSSecurityException(code, Some(msgKey), args, None)
  }

  /** `new WSSecurityException(code, null, e)` for a library exception `e` */
  function Wrap(code: ErrorCode, exception: string): SecurityError {
    WSSecurityException(code, None, [], Some(LibraryException(exception)))
  }
}
