/** What every client of the Metis HTTP API shares: the outcome of one
    request as the code sees it, `raise_for_status` and `response.json()`,
    and the `{error, plants}` dictionary the analysers return.
 */
module Metis {
  import opened PyJson

  /** One `requests.post`: either the transport raised, or a response came
      back with a status code and a body that did or did not decode as JSON. */
  datatype HttpOutcome =
    | TransportFailure
    | Response(status: int, body: Option<Json>)

  /** The statuses for which `Response.raise_for_status` raises `HTTPError`:
      client errors (4xx) and server errors (5xx), and nothing else. */
  predicate IsErrorStatus(status: int) {
    400 <= status < 600
  }

  /** `requests.post(...)`, then `raise_for_status()`, then `response.json()`.
      All three failures are `RequestException`s: a body that is not JSON
      raises `requests.exceptions.JSONDecodeError`, which is one. */
  function CheckedJson(o: HttpOutcome): (r: Py<Json>)
    ensures r.Ok? <==> Succeeds(o)
    ensures r.Ok? ==> r.value == o.body.value
    ensures r.Raise? ==> r.exc.RequestException?
  {
    match o
    case TransportFailure => Raise(RequestException(Transport))
    case Response(status, body) =>
      if IsErrorStatus(status) then Raise(RequestException(HttpError))
      else match body
        case None => Raise(RequestException(InvalidJson))
        case Some(j) => Ok(j)
  }

  /** The request went through, `raise_for_status` was quiet and the body decoded. */
  predicate Succeeds(o: HttpOutcome) {
    o.Response? && !IsErrorStatus(o.status) && o.body.Some?
  }

  /** The dictionary `{"error": ..., "plants": ...}` every analyser returns. */
  datatype Analysis = Analysis(error: Json, plants: Json)

  const MsgClearerImages := "Please provide clearer images of your space."
  const MsgNoPlants := "No suitable plants found for the provided image."
  const MsgRetrieve := "Unable to retrieve plant recommendations at this time."
  const MsgNoSession := "Unable to initiate Metis session."
  const MsgUnexpected := "An unexpected error occurred during processing."
  const MsgDueToError := "Unable to retrieve plant recommendations due to an error."

  /** `{"error": message, "plants": []}`. */
  function Failure(message: string): (a: Analysis)
    ensures a.error.JStr? && a.plants == JArr([])
  {
    Analysis(JStr(message), JArr([]))
  }

  /** The messages the two session-based analysers report a failure with. */
  predicate IsSessionFailureMessage(error: Json) {
    error in {JStr(MsgClearerImages), JStr(MsgNoPlants), JStr(MsgRetrieve),
              JStr(MsgNoSession), JStr(MsgUnexpected)}
  }

  /** The messages any analyser reports a failure with. */
  predicate IsFailureMessage(error: Json) {
    IsSessionFailureMessage(error) || error == JStr(MsgDueToError)
  }

  /** The object `json.loads(...) or {...}` substitutes for a falsy reply. */
  const NoPlantObject := JObj(map["error" := JStr("noPlant"), "plants" := JArr([])])
}
