/** The requests the core hands to `fetch` and the outcomes it gets back. The
    network itself is not modelled: every operation that sends a request takes
    the `Outcome` of that request as a parameter. */
module Http {
  import opened Wrappers
  import opened Json
  import Text

  /** The `credentials` mode of a fetch; `SameOrigin` is fetch's default when
      the option is not given. */
  datatype Credentials = Omit | Include | SameOrigin

  datatype Body =
    | NoBody
    | JsonBody(json: Json)          // `JSON.stringify(value)`
    | FileForm(fileName: string)    // a `FormData` holding one file under "file"

  type Headers = map<string, string>

  datatype Request = Request(
    url: string,
    verb: string,   // the `method` option, as given
    headers: Headers,
    body: Body,
    credentials: Credentials)

  /** A response: its status line, its body as text, and its body as parsed
      JSON (`Failure` with the parser's message when it is not JSON). */
  datatype Response = Response(
    status: int,
    statusText: string,
    text: string,
    json: Result<Json, string>)
  {
    /** `response.ok` */
    predicate Ok() {
      200 <= status <= 299
    }
  }

  /** What `await fetch(…)` yields: a response, or a rejection (offline, DNS,
      CORS) with its message. */
  datatype Outcome = Delivered(response: Response) | NetworkFailure(message: string)

  /** `JSON.stringify(value)` as a body: `undefined` serialises to no body. */
  function BodyOf(value: Option<Json>): (b: Body)
    ensures b.NoBody? <==> value.None?
  {
    match value
    case None => NoBody
    case Some(j) => JsonBody(j)
  }

  /** The methods `fetch` will not send with a body. fetch upper-cases the
      method before comparing, so "get" and "Head" count as well. */
  predicate ForbidsBody(verb: string) {
    Text.ToUpper(verb) == "GET" || Text.ToUpper(verb) == "HEAD"
  }

  /** The message of the TypeError `fetch` rejects with for such a request
      (section 5.4 of the Fetch Standard; browsers word it differently). */
  const BodyForbiddenMessage := "Request with GET/HEAD method cannot have body."

  /** What `await fetch(request)` yields when the network would answer it with
      `outcome`: a GET or HEAD request that carries a body is rejected before
      anything is sent, and every other request gets `outcome`. */
  function Fetch(request: Request, outcome: Outcome): (r: Outcome)
    ensures ForbidsBody(request.verb) && !request.body.NoBody? ==>
      r == NetworkFailure(BodyForbiddenMessage)
    ensures !ForbidsBody(request.verb) || request.body.NoBody? ==> r == outcome
  {
    if ForbidsBody(request.verb) && !request.body.NoBody? then NetworkFailure(BodyForbiddenMessage)
    else outcome
  }

  /** `fetch`, then `if (!response.ok) throw new Error(notOk(response))`, then
      `await response.json()`: the parsed body, or the message of whatever was
      thrown on the way. */
  function Settle(outcome: Outcome, notOk: Response -> string): (r: Result<Json, string>)
    ensures r.Success? <==>
      outcome.Delivered? && outcome.response.Ok() && outcome.response.json.Success?
    ensures outcome.Delivered? && !outcome.response.Ok() ==>
      r == Failure(notOk(outcome.response))
    ensures outcome.NetworkFailure? ==> r == Failure(outcome.message)
  {
    match outcome
    case NetworkFailure(m) => Failure(m)
    case Delivered(resp) =>
      if !resp.Ok() then Failure(notOk(resp)) else resp.json
  }
}
