/** The HTTP boundary between the browser components and the server: the
    response the server writes, what `fetch` hands back to the browser, and
    the error message both components derive from a failed reply. */
module Http {

  /** A response written with `res.status(status).json(body)`; every body the
      server writes is an object of strings. */
  datatype Response = Response(status: int, body: map<string, string>)

  /** The body of a reply as `response.json()` sees it: a parsed object, or
      text that is not JSON, for which `response.json()` throws. */
  datatype ReplyBody = Parsed(members: map<string, string>) | Unparsable(parseError: string)

  /** The settled result of one `fetch`: it rejects (network failure, CORS
      refusal) or it resolves with a status flag and a body. */
  datatype FetchResult = NetworkError(message: string) | Reply(ok: bool, body: ReplyBody)

  /** How one submission ends as far as a component is concerned: done, or
      an `Error` whose message the component shows. */
  datatype Outcome = Done | Failed(message: string)

  /** The fallback both components use when a failed reply has no `details`. */
  const FallbackMessage := "Failed to send meeting link"

  /** What the browser receives for a response the server wrote:
      `response.ok` holds for the 2xx statuses, and the JSON body parses. */
  function Deliver(r: Response): (f: FetchResult)
    ensures f.Reply? && f.body == Parsed(r.body)
    ensures f.ok <==> 200 <= r.status < 300
  {
    Reply(200 <= r.status < 300, Parsed(r.body))
  }

  /** `new Error(errorData.details || 'Failed to send meeting link').message`:
      the reply's `details` when it is a non-empty string, the fallback text
      otherwise. */
  function FailureMessage(errorData: map<string, string>): (m: string)
    ensures m != ""
    ensures "details" in errorData && errorData["details"] != "" ==> m == errorData["details"]
    ensures "details" !in errorData || errorData["details"] == "" ==> m == FallbackMessage
  {
    if "details" in errorData && errorData["details"] != "" then errorData["details"]
    else FallbackMessage
  }
}
