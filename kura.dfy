/**
 * The gateway client (src/api/kura.js): the request each export builds and
 * how a fetch response becomes a value or a thrown error. `fetch` itself is
 * not modelled: a request is described, and the response is an input.
 */
module Kura {
  import opened Wrappers
  import opened JsValue
  import Api

  type Headers = map<string, string>

  /** `jsonHeaders(token)`: the JSON content type plus, for a non-empty token, the Basic authorisation header. */
  function JsonHeaders(token: string): (h: Headers)
    ensures "Content-Type" in h && h["Content-Type"] == "application/json"
    ensures "Authorization" in h <==> token != ""
    ensures "Authorization" in h ==> h["Authorization"] == "Basic " + token
    ensures h.Keys <= {"Content-Type", "Authorization"}
  {
    map["Content-Type" := "application/json"] + Api.ApiHeaders(token).GetOr(map[])
  }

  /** `apiHeaders(token) || {}`: the headers of the requests without a body. */
  function PlainHeaders(token: string): (h: Headers)
    ensures "Authorization" in h <==> token != ""
    ensures "Authorization" in h ==> h["Authorization"] == "Basic " + token
    ensures h.Keys <= {"Authorization"}
  {
    Api.ApiHeaders(token).GetOr(map[])
  }

  /** What the client needs of a fetch response; `json` is what `res.json()` would resolve to. */
  datatype Response = Response(status: int, statusText: string, text: string, json: Value)

  /** `res.ok`: a 2xx status. */
  predicate Ok(res: Response) {
    200 <= res.status <= 299
  }

  /** `text || statusText || fallback`. */
  function FailureText(res: Response, fallback: string): (m: string)
    requires fallback != ""
    ensures m != ""
    ensures res.text != "" ==> m == res.text
    ensures res.text == "" && res.statusText != "" ==> m == res.statusText
    ensures res.text == "" && res.statusText == "" ==> m == fallback
  {
    if res.text != "" then res.text else if res.statusText != "" then res.statusText else fallback
  }

  /**
   * `handleResponse(res)`: a non-2xx response throws with a message that is
   * never empty; a 204 yields null; any other 2xx yields the parsed body.
   */
  function HandleResponse(res: Response): (r: Result<Value, string>)
    ensures r.Failure? <==> !Ok(res)
    ensures r.Failure? ==> r.error != "" && r.error == FailureText(res, "Request failed")
    ensures Ok(res) && res.status == 204 ==> r == Success(Null)
    ensures Ok(res) && res.status != 204 ==> r == Success(res.json)
  {
    if !Ok(res) then Failure(FailureText(res, "Request failed"))
    else if res.status == 204 then Success(Null)
    else Success(res.json)
  }

  /** A 204 is settled without reading the body: whatever the body, the result is the same. */
  lemma NoContentIgnoresBody(res: Response, body: Value)
    requires res.status == 204
    ensures HandleResponse(res.(json := body)) == HandleResponse(res)
  {
  }

  /** `deleteThread`'s own response check: true for any 2xx, its own fallback message otherwise. */
  function DeleteResponse(res: Response): (r: Result<Value, string>)
    ensures r.Success? <==> Ok(res)
    ensures r.Success? ==> r.value == Bool(true)
    ensures r.Failure? ==> r.error == FailureText(res, "Failed to delete thread")
  {
    if !Ok(res) then Failure(FailureText(res, "Failed to delete thread")) else Success(Bool(true))
  }

  /** A delete never parses a body: its result does not depend on it. */
  lemma DeleteIgnoresBody(res: Response, body: Value)
    ensures DeleteResponse(res.(json := body)) == DeleteResponse(res)
  {
  }

  /** Which export is called, with which arguments. */
  datatype Call =
    | GetThreads(token: string)
    | CreateThread(title: string, token: string)
    | DeleteThread(id: Value, token: string)
    | GetMessages(threadId: Value, token: string)
    | SendMessage(threadId: Value, question: string, token: string)

  datatype HttpMethod = GET | POST | DELETE

  /**
   * A request as `fetch` receives it; `path` is the argument given to
   * `buildApiUrl`, and `body` the value given to `JSON.stringify`.
   */
  datatype Request = Request(verb: HttpMethod, path: string, headers: Headers, body: Option<Value>)

  /** The request each export issues. */
  function RequestOf(call: Call): (r: Request)
    ensures r.verb == POST <==> call.CreateThread? || call.SendMessage?
    ensures r.verb == POST ==> r.headers == JsonHeaders(call.token) && r.body.Some?
    ensures r.verb != POST ==> r.headers == PlainHeaders(call.token) && r.body.None?
    ensures "Authorization" in r.headers <==> call.token != ""
  {
    match call
    case GetThreads(token) => Request(GET, "/threads", PlainHeaders(token), None)
    case CreateThread(title, token) =>
      Request(POST, "/threads", JsonHeaders(token), Some(Obj(map["title" := Str(title)])))
    case DeleteThread(id, token) => Request(DELETE, "/threads/" + ToText(id), PlainHeaders(token), None)
    case GetMessages(threadId, token) => Request(GET, "/messages/" + ToText(threadId), PlainHeaders(token), None)
    case SendMessage(threadId, question, token) =>
      Request(POST, "/ask", JsonHeaders(token),
              Some(Obj(map["thread_id" := threadId, "question" := Str(question)])))
  }

  /** The endpoints: GET /threads, POST /threads, DELETE /threads/{id}, GET /messages/{threadId}, POST /ask. */
  lemma Endpoints(token: string, title: string, id: Value, question: string)
    ensures var r := RequestOf(GetThreads(token)); r.verb == GET && r.path == "/threads"
    ensures var r := RequestOf(CreateThread(title, token));
      r.verb == POST && r.path == "/threads" && r.body == Some(Obj(map["title" := Str(title)]))
    ensures var r := RequestOf(DeleteThread(id, token)); r.verb == DELETE && r.path == "/threads/" + ToText(id)
    ensures var r := RequestOf(GetMessages(id, token)); r.verb == GET && r.path == "/messages/" + ToText(id)
    ensures var r := RequestOf(SendMessage(id, question, token)); r.verb == POST && r.path == "/ask"
  {
  }

  /** A send carries exactly `thread_id` and `question`: no model and no retrieval parameter. */
  lemma SendBodyHasOnlyThreadAndQuestion(threadId: Value, question: string, token: string)
    ensures var b := RequestOf(SendMessage(threadId, question, token)).body;
      && b.Some? && b.value.Obj?
      && b.value.fields.Keys == {"thread_id", "question"}
      && b.value.fields["thread_id"] == threadId
      && b.value.fields["question"] == Str(question)
  {
  }

  /** How the export that made `call` settles `res`: the value it resolves to, or the message it throws. */
  function Settle(call: Call, res: Response): (r: Result<Value, string>)
    ensures r.Success? <==> Ok(res)
    ensures r.Failure? ==> r.error != ""
  {
    if call.DeleteThread? then DeleteResponse(res) else HandleResponse(res)
  }
}
