/** The request/response wrapper every API method repeats, with the network
    replaced by what one call yields (`Reply`), and the error classifier
    `handleError` (src/ElnkProShortener.js:515-537). */
module Http {
  import opened Wrappers
  import opened Text

  /** The parts of a response body the client looks at: the JSON payload
      (kept opaque) and the optional `message` field. */
  datatype Body = Body(json: string, message: Option<string>)

  /** Why an axios call was rejected: the server answered with an error
      status (`error.response`), the request went out but nothing came back
      (`error.request`), or the request was never sent (anything else). */
  datatype CallError =
    | ServerError(status: nat, message: Option<string>)
    | NoResponse
    | SetupError(message: Option<string>)

  /** What awaiting one axios call yields: a resolved response with any
      status, or a rejection. */
  datatype Reply = Ok(status: nat, body: Body) | Threw(error: CallError)

  /** What a successful envelope carries. */
  datatype Data = Json(text: string) | Notice(text: string)

  /** The uniform result shape `{ success, data | message, statusCode? }`. */
  datatype Envelope =
    | Succeeded(data: Data)
    | Failed(message: string, statusCode: Option<nat>)

  function StatusMessage(status: nat): string {
    "API request failed with status code: " + NatToString(status)
  }

  const NoResponseMessage := "No response received from API server"
  const UnknownErrorMessage := "Unknown error occurred"

  predicate IsSuccessStatus(status: nat) {
    200 <= status < 300
  }

  /** `handleError`: every rejection becomes a failed envelope, and only a
      server answer carries a status code. */
  function HandleError(e: CallError): (r: Envelope)
    ensures r.Failed?
    ensures r.statusCode.Some? <==> e.ServerError?
    ensures e.ServerError? ==> r.statusCode == Some(e.status)
    ensures e.ServerError? ==> r.message == StringOr(e.message, StatusMessage(e.status))
    ensures e.NoResponse? ==> r.message == NoResponseMessage
    ensures e.SetupError? ==> r.message == StringOr(e.message, UnknownErrorMessage)
    ensures r.message != ""
  {
    match e
    case ServerError(status, message) => Failed(StringOr(message, StatusMessage(status)), Some(status))
    case NoResponse => Failed(NoResponseMessage, None)
    case SetupError(message) => Failed(StringOr(message, UnknownErrorMessage), None)
  }

  /** The try-block of every API method: a 2xx response succeeds with its
      body, a resolved non-2xx response fails WITHOUT a status code, and a
      rejection goes through HandleError. */
  function Interpret(reply: Reply): (r: Envelope)
    ensures r.Succeeded? <==> reply.Ok? && IsSuccessStatus(reply.status)
    ensures r.Succeeded? ==> r.data == Json(reply.body.json)
    ensures r.Failed? ==> r.message != ""
    ensures r.Failed? && r.statusCode.Some? <==> reply.Threw? && reply.error.ServerError?
    ensures reply.Ok? && !IsSuccessStatus(reply.status) ==>
      r == Failed(StringOr(reply.body.message, StatusMessage(reply.status)), None)
    ensures reply.Threw? ==> r == HandleError(reply.error)
  {
    match reply
    case Ok(status, body) =>
      if IsSuccessStatus(status) then Succeeded(Json(body.json))
      else Failed(StringOr(body.message, StatusMessage(status)), None)
    case Threw(e) => HandleError(e)
  }
}
