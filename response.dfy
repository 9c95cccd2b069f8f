/**
 * server/utils/response.js: the JSON envelope every controller answers with, and
 * the two ways a controller can finish: answering through `response`, or handing
 * an error to `next` (the error middleware of server.js).
 */
module Response {
  import opened Wrappers
  import opened Js
  import opened NormalizeError

  /** The body `response` sends (its `timestamp` is not modelled). */
  datatype Envelope = Envelope(success: bool, message: string, statusCode: int,
                               data: Option<Val>, error: Option<Val>)

  /** What goes over the wire: the HTTP status and the body. */
  datatype Sent = Sent(status: int, body: Envelope)

  /**
   * `response(res, statusCode, success, message, data, error)` (callers that omit
   * `data` or `error` pass `Null`, their default). The envelope carries success,
   * message and status exactly as given, `data` and `error` only when truthy, and
   * the HTTP status equals the recorded one.
   */
  function Respond(statusCode: int, success: bool, message: string, data: Val, error: Val): (r: Sent)
    ensures r.status == r.body.statusCode == statusCode
    ensures r.body.success == success && r.body.message == message
    ensures r.body.data.Some? <==> Truthy(data)
    ensures r.body.error.Some? <==> Truthy(error)
    ensures r.body.data.Some? ==> r.body.data.value == data
    ensures r.body.error.Some? ==> r.body.error.value == error
  {
    var base := Envelope(success, message, statusCode, None, None);
    var withData := if Truthy(data) then base.(data := Some(data)) else base;
    Sent(statusCode, if Truthy(error) then withData.(error := Some(error)) else withData)
  }

  /** The envelope as the JSON object a client receives. */
  function Json(e: Envelope): Val {
    var fields := map["success" := Bool(e.success), "message" := Str(e.message),
                      "statusCode" := Num(e.statusCode)];
    var withData := if e.data.Some? then fields["data" := e.data.value] else fields;
    Obj(if e.error.Some? then withData["error" := e.error.value] else withData)
  }

  /**
   * What a client reading `res.data.data` / `res.data.error` / `res.data.statusCode`
   * gets back: the data and error it was given when truthy, `undefined` otherwise,
   * and the HTTP status; the body never has a `response` property.
   */
  lemma ReadBack(statusCode: int, success: bool, message: string, data: Val, error: Val)
    ensures var body := Json(Respond(statusCode, success, message, data, error).body);
            && body.Obj?
            && Get(body.fields, "data") == (if Truthy(data) then data else Undefined)
            && Get(body.fields, "error") == (if Truthy(error) then error else Undefined)
            && Get(body.fields, "statusCode") == Num(statusCode)
            && "response" !in body.fields
  {
  }

  /** How a controller finishes. */
  datatype Answer =
    | Replied(sent: Sent)     // through `response(...)`
    | Forwarded(err: ErrorObj)  // through `next(err)`

  /** Shorthand for a controller's `response(res, status, success, message)` without data. */
  function Reply(status: int, success: bool, message: string): Answer {
    Replied(Respond(status, success, message, Null, Null))
  }
}
