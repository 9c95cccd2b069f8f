/**
 * server/config/jwt.config.js: the `authenticate` middleware. The outcome of
 * `jwt.verify` is a parameter; the request is an object whose `userId` the
 * middleware sets before calling `next`.
 */
module JwtConfig {
  import opened Wrappers
  import opened Js
  import opened Response

  const NoToken := "❌ Unauthorized: No token provided"
  const Expired := "❌ Unauthorized: Token expired"
  const Invalid := "❌ Unauthorized: Invalid token"

  /** What `jwt.verify` hands its callback: an error with a name, or the payload's `id`. */
  datatype Verified = VerifyError(name: string) | Payload(id: Id)

  /** How the middleware ends: an answer to the client, or `next()` with the caller's id. */
  datatype Outcome = Refused(a: Answer) | Next(userId: Id)

  /**
   * The decision: no (or an empty) token cookie is 401 "No token provided"; an
   * expired token is 401 "Token expired"; any other verify error is 401 "Invalid
   * token"; a verified token passes the payload's id on.
   */
  function Decide(token: Option<string>, verify: string -> Verified): (r: Outcome)
    ensures !Present(token) ==> r == Refused(Reply(401, false, NoToken))
    ensures Present(token) && verify(token.value) == VerifyError("TokenExpiredError") ==>
              r == Refused(Reply(401, false, Expired))
    ensures Present(token) && verify(token.value).VerifyError? && verify(token.value).name != "TokenExpiredError" ==>
              r == Refused(Reply(401, false, Invalid))
    ensures r.Next? <==> Present(token) && verify(token.value).Payload?
    ensures r.Next? ==> r.userId == verify(token.value).id
    ensures r.Refused? ==> r.a.Replied? && r.a.sent.status == 401
  {
    if !Present(token) then Refused(Reply(401, false, NoToken))
    else match verify(token.value)
      case VerifyError(name) =>
        if name == "TokenExpiredError" then Refused(Reply(401, false, Expired))
        else Refused(Reply(401, false, Invalid))
      case Payload(id) => Next(id)
  }

  /** The request as the middleware sees it: the id it records and how often `next` ran. */
  class Request {
    var userId: Option<Id>
    var nextCalls: nat

    constructor ()
      ensures userId.None? && nextCalls == 0
    {
      userId, nextCalls := None, 0;
    }

    /**
     * `authenticate`: on success `req.userId` becomes the payload's id and `next`
     * runs exactly once; otherwise the 401 answer is returned and the request is
     * untouched, `next` never running.
     */
    method Authenticate(token: Option<string>, verify: string -> Verified) returns (answer: Option<Answer>)
      modifies this
      ensures Decide(token, verify).Next? ==>
                answer.None? && userId == Some(Decide(token, verify).userId) && nextCalls == old(nextCalls) + 1
      ensures Decide(token, verify).Refused? ==>
                answer == Some(Decide(token, verify).a) && userId == old(userId) && nextCalls == old(nextCalls)
    {
      if !Present(token) {
        return Some(Reply(401, false, NoToken));
      }
      var v := verify(token.value);
      if v.VerifyError? {
        if v.name == "TokenExpiredError" {
          return Some(Reply(401, false, Expired));
        }
        return Some(Reply(401, false, Invalid));
      }
      userId := Some(v.id);
      nextCalls := nextCalls + 1;
      answer := None;
    }
  }
}
