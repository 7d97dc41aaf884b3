/** `SuccessResponseAdvice` of the socialbanking tree: every controller
    result is wrapped as `{ "data": ... }` on its way out, except API
    documentation, null, bodies that are already envelopes, and paginated
    responses. */
module ResponseAdvice {
  import opened JavaText
  import ErrorHandling
  import Paging

  /** A response body as the advice sees it: null, one of the envelope
      types it recognises, or any other value (`Plain`). */
  datatype Body =
    | Null
    | SuccessResponse(data: Body)
    | ErrorEnvelope(envelope: ErrorHandling.ErrorEnvelope<ErrorHandling.TracedErrorResponse>)
    | Paginated(items: seq<Body>, pagination: Paging.PageInfo)
    | Plain(json: string)

  /** `supports`: the advice applies to every controller method. */
  function Supports(returnType: string, converterType: string): (r: bool)
    ensures r
  {
    true
  }

  /** The request paths that serve the API documentation. The exact
      "/swagger-ui.html" test is already covered by the "/swagger-ui"
      prefix; it is kept because the source writes it. */
  predicate IsDocsPath(path: string) {
    StartsWith(path, "/v3/api-docs") || StartsWith(path, "/swagger-ui") || path == "/swagger-ui.html"
  }

  /** The bodies that go out as they are on any path. */
  predicate PassesThrough(body: Body) {
    body.Null? || body.SuccessResponse? || body.ErrorEnvelope? || body.Paginated?
  }

  /** `beforeBodyWrite`: the body is left alone exactly on a documentation
      path or when it passes through; otherwise it becomes a
      `SuccessResponse` whose data is the body. */
  function BeforeBodyWrite(body: Body, path: string): (r: Body)
    ensures r == body <==> IsDocsPath(path) || PassesThrough(body)
    ensures r != body ==> r == SuccessResponse(body)
  {
    if IsDocsPath(path) then body
    else if body.Null? || body.SuccessResponse? || body.ErrorEnvelope? then body
    else if body.Paginated? then body
    else SuccessResponse(body)
  }

  /** Applying the advice to its own output changes nothing. */
  lemma Idempotent(body: Body, path: string)
    ensures BeforeBodyWrite(BeforeBodyWrite(body, path), path) == BeforeBodyWrite(body, path)
  {
  }

  /** Outside the documentation paths every non-null body leaves as an
      envelope the client can recognise. */
  lemma AlwaysEnveloped(body: Body, path: string)
    requires !IsDocsPath(path) && !body.Null?
    ensures PassesThrough(BeforeBodyWrite(body, path))
  {
  }
}
