/**
 * The HTTP client the agents' tools call. `fetch` is foreign to the model: a
 * tool receives it as a function from the request it would send to the
 * outcome, so a tool that never looks at it sends nothing.
 */
module Fetch {
  import opened JsValues

  /**
   * The requests the agents' tools send to the application's own API routes,
   * and the one the search route sends on to the Gardners search service
   * (Basic authentication from the two credentials, the payload as JSON).
   */
  datatype Request =
    | GetProduct(ean: string, username: string, password: string)
    | SearchProducts(query: seq<(string, string)>)
    | ListReports
    | RunReport(body: Value)
    | GetFacts
    | PostFact(body: Value)
    | UpstreamSearch(username: string, password: string, payload: Value)

  /** A response: `ok`, the status, and what `response.json()` resolves to or the SyntaxError it rejects with. */
  datatype Response = Response(ok: bool, status: int, body: ParseResult)

  datatype FetchOutcome = Responded(response: Response) | Rejected(message: string)

  type Fetcher = Request -> FetchOutcome

  /** The message of the TypeError raised by reading a property of `null` or `undefined`; its exact text is the engine's. */
  const TypeErrorMessage := "Cannot read properties of null"
}
