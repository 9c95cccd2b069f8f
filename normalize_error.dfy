/**
 * server/utils/normalizeError.js: the error-handling middleware of server.js turns
 * every error a controller forwards with `next(err)` into this record and answers
 * with its `statusCode`.
 */
module NormalizeError {
  import opened Js

  /** The properties of a thrown error that `normalizeError` reads. */
  datatype ErrorObj = ErrorObj(name: Val, statusCode: Val, message: Val)

  /** The record `normalizeError` builds; `validations` maps a field to its message. */
  datatype Normalized = Normalized(name: Val, statusCode: Val, message: Val, validations: map<string, string>)

  const ValidationErrorName := Str("ValidationError")
  const DefaultName := Str("Server Error")
  const DefaultStatus := Num(500)
  const DefaultMessage := Str("Something went wrong")

  /** A Mongoose validation failure, as it reaches `next`. */
  function ValidationError(message: string): ErrorObj {
    ErrorObj(ValidationErrorName, Undefined, Str(message))
  }

  /**
   * A caught error handed to `response` as its data: an object, so always
   * truthy, which is all the controllers rely on. The `{name, message}` shape is
   * what a Mongoose ValidationError serialises to; for a plain `Error` or a
   * MongoServerError those two properties are not enumerable, and the JSON
   * sent carries neither.
   */
  function ErrorVal(e: ErrorObj): (r: Val)
    ensures Truthy(r)
  {
    Obj(map["name" := e.name, "message" := e.message])
  }

  /**
   * `normalizeError(err)`, where `extracted` is what `extractValidationErrors(err)`
   * returns (that helper is not part of this model). Falsy name, status and message
   * fall back to their defaults; a ValidationError always answers 400 and carries
   * the extracted field messages when there are any; every other error keeps its
   * own status (or 500) and has no field messages.
   */
  function Normalize(err: ErrorObj, extracted: map<string, string>): (r: Normalized)
    ensures Truthy(r.name) && Truthy(r.statusCode) && Truthy(r.message)
    ensures r.name == (if Truthy(err.name) then err.name else DefaultName)
    ensures r.message == (if Truthy(err.message) then err.message else DefaultMessage)
    ensures err.name == ValidationErrorName ==> r.statusCode == Num(400)
    ensures err.name != ValidationErrorName ==>
              r.statusCode == (if Truthy(err.statusCode) then err.statusCode else DefaultStatus)
    ensures r.validations != map[] <==> err.name == ValidationErrorName && extracted != map[]
    ensures r.validations != map[] ==> r.validations == extracted
  {
    var base := Normalized(Or(err.name, DefaultName), Or(err.statusCode, DefaultStatus),
                           Or(err.message, DefaultMessage), map[]);
    if err.name == ValidationErrorName then
      var withStatus := base.(statusCode := Num(400));
      if |extracted.Keys| != 0 then withStatus.(validations := extracted) else withStatus
    else
      base
  }

  /** The status the error middleware sends for a forwarded error. */
  function MiddlewareStatus(err: ErrorObj, extracted: map<string, string>): Val {
    Normalize(err, extracted).statusCode
  }

  /**
   * Normalizing is idempotent on name, status and message: feeding the normalized
   * record back in changes none of the three, whatever is extracted the second time.
   */
  lemma NormalizeIdempotent(err: ErrorObj, first: map<string, string>, second: map<string, string>)
    ensures var n := Normalize(err, first);
            var m := Normalize(ErrorObj(n.name, n.statusCode, n.message), second);
            m.name == n.name && m.statusCode == n.statusCode && m.message == n.message
  {
  }
}
