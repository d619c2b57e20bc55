/** The JSON error replies built by `error_response` (src/utils/error.rs). */
module Errors {
  import opened Types

  /** An HTTP status code as axum's `StatusCode` holds it (three digits). */
  type Status = s: nat | 100 <= s <= 999 witness 500

  const BadRequest: Status := 400
  const Unauthorized: Status := 401
  const Forbidden: Status := 403
  const NotFound: Status := 404
  const Conflict: Status := 409
  const InternalServerError: Status := 500

  /** The body `{"error": {"code": …, "message": …}}`. */
  datatype ErrorBody = ErrorBody(code: nat, message: string)

  /** The pair `(StatusCode, Json<Value>)` every handler returns on failure. */
  datatype ErrorResponse = ErrorResponse(status: Status, body: ErrorBody)

  /** The statuses that have a message of their own. */
  predicate HasOwnMessage(status: Status) {
    status == BadRequest || status == Unauthorized || status == Forbidden
    || status == NotFound || status == Conflict || status == InternalServerError
  }

  /** The message used when the caller gives none. */
  function DefaultMessage(status: Status): string {
    match status
    case 400 => "Bad request"
    case 401 => "Unauthorized"
    case 403 => "Forbidden"
    case 404 => "Resource not found"
    case 409 => "Conflict"
    case 500 => "Internal server error"
    case _ => "An error occurred"
  }

  /** `error_response(status, message)`. */
  function ErrorResponseOf(status: Status, message: Option<string>): (r: ErrorResponse)
    ensures r.status == status
    ensures r.body.code == status
    ensures message.Some? ==> r.body.message == message.value
    ensures message.None? ==> r.body.message == DefaultMessage(status)
  {
    var msg := match message case Some(m) => m case None => DefaultMessage(status);
    ErrorResponse(status, ErrorBody(status, msg))
  }

  /** A status with a message of its own is told apart from every other status by its default
      message alone; all remaining statuses share the generic one. */
  lemma DefaultMessagesDistinguishStatus(s1: Status, s2: Status)
    requires HasOwnMessage(s1)
    ensures DefaultMessage(s1) == DefaultMessage(s2) <==> s1 == s2
    ensures !HasOwnMessage(s2) ==> DefaultMessage(s2) == "An error occurred"
  {
  }
}
