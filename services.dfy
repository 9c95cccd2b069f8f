/**
 * client/src/services/userService.jsx and client/src/services/notificationService.jsx:
 * the shared `handleError` classification of a failed axios call, the value the
 * services throw in its place, and the missing-id guard of the notification
 * service's `markAsRead`.
 */
module Services {
  import opened Wrappers
  import opened Js

  /**
   * A failed axios call, as far as `handleError` inspects it: `response` holds
   * `err.response.data` when the server answered, `request` says whether a
   * request went out, and `message` is `err.message`.
   */
  datatype AxiosError = AxiosError(response: Option<Val>, request: bool, message: Val)

  const UnknownServerError := "Unknown server error"
  const NoResponse := "No response from server"

  function MessageObj(m: Val): Val {
    Obj(map["message" := m])
  }

  /**
   * `handleError(err)`: when the server answered, its data if truthy and
   * otherwise `{ message: 'Unknown server error' }`; when only the request went
   * out, `{ message: 'No response from server' }`; otherwise `{ message: err.message }`.
   * The response case is checked first.
   */
  function HandleError(err: AxiosError): (r: Val)
    ensures err.response.Some? && Truthy(err.response.value) ==> r == err.response.value
    ensures err.response.Some? && !Truthy(err.response.value) ==> r == MessageObj(Str(UnknownServerError))
    ensures err.response.None? && err.request ==> r == MessageObj(Str(NoResponse))
    ensures err.response.None? && !err.request ==> r == MessageObj(err.message)
    ensures Truthy(r)
  {
    match err.response
    case Some(data) => if Truthy(data) then data else MessageObj(Str(UnknownServerError))
    case None => if err.request then MessageObj(Str(NoResponse)) else MessageObj(err.message)
  }

  /** `x?.response?.data` (and `x.response?.data` on a non-nullish `x`) on a thrown value. */
  function ResponseData(thrown: Val): Val {
    if !thrown.Obj? then Undefined
    else
      var response := Get(thrown.fields, "response");
      if response.Obj? then Get(response.fields, "data") else Undefined
  }

  /** A JSON body that has no `response` property at its top level. */
  predicate NoResponseKey(body: Val) {
    body.Obj? ==> "response" !in body.fields
  }

  /**
   * What the services throw never carries a `response` property unless the
   * server's own body had one, so a caller that reads `err?.response?.data` from
   * it finds `undefined`.
   */
  lemma ThrownHasNoResponseData(err: AxiosError)
    requires err.response.Some? ==> NoResponseKey(err.response.value)
    ensures ResponseData(HandleError(err)) == Undefined
  {
  }

  /** `notificationService.markAsRead(id)` sends its request only for a truthy id. */
  function MarkAsReadSends(id: Val): (sends: bool)
    ensures sends <==> Truthy(id)
    ensures id == Undefined || id == Null || id == Str("") ==> !sends
  {
    Truthy(id)
  }
}
