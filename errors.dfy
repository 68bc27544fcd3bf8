/**
 * Failures as the dispatch bridge sees them.
 *
 * An exception of the system is modelled directly by its `ErrorDescription`:
 * the record that the error factory of the commons library builds from it,
 * with `None` for a field that is `null`. `WireError` is the `ErrorDescription`
 * message of the commandable wire protocol, whose string fields are never
 * null and default to the empty string.
 */
module Errors {
  import opened Wrappers

  datatype ErrorDescription = ErrorDescription(
    category: Option<string>,
    status: int,
    code: Option<string>,
    message: Option<string>,
    correlationId: Option<string>,
    cause: Option<string>,
    stackTrace: Option<string>)

  datatype WireError = WireError(
    category: string,
    status: int,
    code: string,
    message: string,
    correlationId: string,
    cause: string,
    stackTrace: string)

  /** The wire default: what a reply carries when no error was set on it. */
  const NoWireError := WireError("", 0, "", "", "", "", "")

  /** The wire convention: an error is present exactly when its message is not empty. */
  predicate IsError(e: WireError)
  {
    e.message != ""
  }

  // Categories and status of the commons exceptions that the core raises.
  const FailedInvocation := "FailedInvocation"
  const InvalidState := "InvalidState"
  const InternalStatus := 500

  /** `new InvocationException(correlationId, code, message)`, optionally wrapping a cause. */
  function InvocationError(correlationId: string, code: string, message: string, cause: Option<string>): ErrorDescription
  {
    ErrorDescription(Some(FailedInvocation), InternalStatus, Some(code), Some(message), Some(correlationId), cause, None)
  }

  /** `new InvalidStateException(correlationId, code, message)`. */
  function InvalidStateError(correlationId: Option<string>, code: string, message: string): ErrorDescription
  {
    ErrorDescription(Some(InvalidState), InternalStatus, Some(code), Some(message), correlationId, None, None)
  }
}
