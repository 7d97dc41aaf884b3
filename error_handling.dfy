/** The two `GlobalExceptionHandler`s: every exception a controller lets
    escape becomes an HTTP status and an error envelope with a status, a
    code and a message. The socialbanking handler also writes the request's
    trace id; the wallet handler has no trace id and is otherwise the same. */
module ErrorHandling {
  const BAD_REQUEST := 400
  const UNAUTHORIZED := 401
  const INTERNAL_SERVER_ERROR := 500

  const VALIDATION_ERROR := "VALIDATION_ERROR"
  const INTERNAL_ERROR := "INTERNAL_ERROR"
  const VALIDATION_FAILED := "Validation failed"
  const MISSING_HEADER := "Missing required header."
  const UNEXPECTED_ERROR := "Unexpected error."

  /** The exceptions the handlers tell apart. Field-error messages are in
      binding order; constraint violations come in the iteration order of
      their set. */
  datatype Exception =
    | ApiException(status: int, code: string, message: string)
    | MethodArgumentNotValid(fieldErrors: seq<string>)
    | MissingRequestHeader(headerName: string)
    | ConstraintViolation(violations: seq<string>)
    | Other(message: string)

  /** The wallet's error body. */
  datatype ErrorResponse = ErrorResponse(status: int, code: string, message: string)

  /** The socialbanking error body, which adds the trace id. */
  datatype TracedErrorResponse = TracedErrorResponse(status: int, code: string, message: string, traceId: string)

  /** The `{ "error": ... }` wrapper both trees send. */
  datatype ErrorEnvelope<E> = ErrorEnvelope(error: E)

  datatype ResponseEntity<B> = ResponseEntity(httpStatus: int, body: B)

  /** What each handler answers, the trace id aside: an `ApiException`
      keeps its own status, code and message; field validation and
      constraint violations give 400 VALIDATION_ERROR with the first
      message or "Validation failed" when there is none; a missing header
      gives 400 VALIDATION_ERROR "Missing required header."; anything else
      gives 500 INTERNAL_ERROR "Unexpected error." and hides its own
      message. */
  function Classify(ex: Exception): (r: ErrorResponse)
    ensures ex.ApiException? ==> r == ErrorResponse(ex.status, ex.code, ex.message)
    ensures ex.MethodArgumentNotValid? ==>
              r.status == BAD_REQUEST && r.code == VALIDATION_ERROR
              && r.message == (if |ex.fieldErrors| == 0 then VALIDATION_FAILED else ex.fieldErrors[0])
    ensures ex.MissingRequestHeader? ==> r == ErrorResponse(BAD_REQUEST, VALIDATION_ERROR, MISSING_HEADER)
    ensures ex.ConstraintViolation? ==>
              r.status == BAD_REQUEST && r.code == VALIDATION_ERROR
              && (if |ex.violations| == 0 then r.message == VALIDATION_FAILED else r.message in ex.violations)
    ensures ex.Other? ==> r == ErrorResponse(INTERNAL_SERVER_ERROR, INTERNAL_ERROR, UNEXPECTED_ERROR)
  {
    match ex
    case ApiException(status, code, message) => ErrorResponse(status, code, message)
    case MethodArgumentNotValid(errors) =>
      ErrorResponse(BAD_REQUEST, VALIDATION_ERROR, if |errors| == 0 then VALIDATION_FAILED else errors[0])
    case MissingRequestHeader(_) => ErrorResponse(BAD_REQUEST, VALIDATION_ERROR, MISSING_HEADER)
    case ConstraintViolation(violations) =>
      ErrorResponse(BAD_REQUEST, VALIDATION_ERROR, if |violations| == 0 then VALIDATION_FAILED else violations[0])
    case Other(_) => ErrorResponse(INTERNAL_SERVER_ERROR, INTERNAL_ERROR, UNEXPECTED_ERROR)
  }

  /** The wallet handlers: the envelope holds the classification, and
      the HTTP status is the status written in the body. */
  function HandleWallet(ex: Exception): (resp: ResponseEntity<ErrorEnvelope<ErrorResponse>>)
    ensures resp.body.error == Classify(ex)
    ensures resp.httpStatus == resp.body.error.status
  {
    var c := Classify(ex);
    ResponseEntity(c.status, ErrorEnvelope(c))
  }

  /** The socialbanking handlers: the same answer with the current trace
      id in the body, and the HTTP status equal to the body's status. */
  function HandleSocial(ex: Exception, traceId: string): (resp: ResponseEntity<ErrorEnvelope<TracedErrorResponse>>)
    ensures resp.httpStatus == resp.body.error.status
    ensures resp.body.error.traceId == traceId
  {
    var c := Classify(ex);
    ResponseEntity(c.status, ErrorEnvelope(TracedErrorResponse(c.status, c.code, c.message, traceId)))
  }

  /** The two trees answer alike: the socialbanking response is the
      wallet response with the trace id added. */
  lemma SocialIsWalletWithTrace(ex: Exception, traceId: string)
    ensures var w := HandleWallet(ex);
            var s := HandleSocial(ex, traceId);
            && s.httpStatus == w.httpStatus
            && s.body.error == TracedErrorResponse(w.body.error.status, w.body.error.code, w.body.error.message, traceId)
  {
  }

  /** An unexpected exception never shows its message: the answer is the
      same whatever the message was. */
  lemma OtherHidesMessage(m1: string, m2: string, traceId: string)
    ensures HandleSocial(Other(m1), traceId) == HandleSocial(Other(m2), traceId)
    ensures HandleWallet(Other(m1)) == HandleWallet(Other(m2))
  {
  }

  /** Every validation failure is a 400 VALIDATION_ERROR, and only an
      `ApiException` can choose its own status. */
  lemma StatusByKind(ex: Exception)
    ensures !ex.ApiException? ==> Classify(ex).status in {BAD_REQUEST, INTERNAL_SERVER_ERROR}
    ensures Classify(ex).status == INTERNAL_SERVER_ERROR && !ex.ApiException? <==> ex.Other?
  {
  }
}
