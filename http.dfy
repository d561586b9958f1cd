/** What the HTTP outputs (internal/outputs/splunk.go, elasticsearch.go and
    opensearch.go) see of `net/http`: building a request can fail on its URL,
    and `client.Do` answers with a transport error or a response status.
    Neither is modelled beyond these two facts. */
module Http {

  /** Whether `http.NewRequestWithContext` accepts a URL (it fails on one
      that does not parse, such as one holding a control character). */
  type UrlCheck = string -> bool

  /** What `client.Do` answered: a transport error, or a response status. */
  datatype Outcome = CallError(msg: string) | Response(status: int)

  /** What `send` logs for an outcome. Nothing is retried and nothing reaches
      the caller. */
  datatype Report = Quiet | SendFailed(msg: string) | StatusError(status: int)

  /** One call of `send`: no request when it cannot be built, otherwise the
      request posted and what `client.Do` answered. */
  datatype Attempt<+R> = NotBuilt | Posted(req: R, outcome: Outcome)

  const ContextCanceled := "context canceled"

  /** `client.Do` with the request's context: once that context is cancelled
      the call fails before anything is sent; otherwise the server's answer. */
  function Do(ctxDone: bool, answer: Outcome): (r: Outcome)
    ensures ctxDone ==> r == CallError(ContextCanceled)
    ensures !ctxDone ==> r == answer
  {
    if ctxDone then CallError(ContextCanceled) else answer
  }
}
