/** Upstream responses as the handlers see them, and the replies they send. */
module Http {
  import opened JsValues

  /** A response from an upstream call: its status, its raw text, and what
      `JSON.parse` makes of that text (`None`: the text is not JSON). */
  datatype Response = Response(status: int, text: string, parsed: Option<Json>)

  /** Why a handler answers 400. */
  datatype Rejection = MissingOrderIdOrTrackingNumber | NoOrderItems

  /** What a handler sends back:
      - `Success`: 200 with the handler's payload;
      - `BadRequest`: 400 with an `error` message;
      - `UpstreamError`: the upstream status, with `{error, status, body}`
        echoing the upstream's raw text;
      - `ServerError`: the catch-all 500 for anything that threw. */
  datatype Reply<+T> =
    | Success(value: T)
    | BadRequest(reason: Rejection)
    | UpstreamError(error: string, status: int, body: string)
    | ServerError

  /** fetch's `Response.ok`. */
  predicate IsOk(status: int) {
    200 <= status <= 299
  }

  /** `text ? JSON.parse(text) : {}`: an empty body reads as an empty object,
      so that an endpoint answering with no content is not a parse error. */
  function ParseBody(r: Response): Eval<Json> {
    if r.text == "" then Value(JObj(map[]))
    else if r.parsed.Some? then Value(r.parsed.value)
    else Threw
  }
}
