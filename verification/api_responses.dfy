/**
 * `ApiResponseBuilder`: the uniform `{ success, data?, message, code?, errors?, timestamp }`
 * envelope and the status each kind of outcome is sent with.  The ISO timestamp is a parameter.
 */
module Responses {
  import opened Wrappers
  import opened Json
  import opened Http

  /** The envelope every builder fills in; `None` members are left out of the JSON text. */
  datatype Envelope = Envelope(
    success: bool, data: Option<Value>, message: string, code: Option<string>,
    errors: Option<Value>, timestamp: string)

  /** `{ success, data, message, code, errors, timestamp }` in that order. */
  function EnvelopeMembers(e: Envelope): seq<(string, Option<Value>)> {
    [("success", Some(Bool(e.success))),
     ("data", e.data),
     ("message", Some(Str(e.message))),
     ("code", StrOpt(e.code)),
     ("errors", e.errors),
     ("timestamp", Some(Str(e.timestamp)))]
  }

  function EnvelopeBody(e: Envelope): Value {
    Obj(Literal(EnvelopeMembers(e)))
  }

  /** Each member of the envelope reads back as filled in. */
  lemma EnvelopeFields(e: Envelope)
    ensures Member(Some(EnvelopeBody(e)), "success") == Some(Bool(e.success))
    ensures Member(Some(EnvelopeBody(e)), "data") == e.data
    ensures Member(Some(EnvelopeBody(e)), "message") == Some(Str(e.message))
    ensures Member(Some(EnvelopeBody(e)), "code") == StrOpt(e.code)
    ensures Member(Some(EnvelopeBody(e)), "errors") == e.errors
    ensures Member(Some(EnvelopeBody(e)), "timestamp") == Some(Str(e.timestamp))
  {
    var m := EnvelopeMembers(e);
    LookupLiteral(m, 0);
    LookupLiteral(m, 1);
    LookupLiteral(m, 2);
    LookupLiteral(m, 3);
    LookupLiteral(m, 4);
    LookupLiteral(m, 5);
  }

  /** `ApiResponseBuilder.success(data, message = "Success", code)`: status 200, `success: true`. */
  function Success(data: Option<Value>, message: Option<string>, code: Option<string>, timestamp: string): (r: Response)
    ensures r.status == 200
  {
    LiteralResponse(EnvelopeMembers(Envelope(true, data, message.GetOr("Success"), code, None, timestamp)), 200)
  }

  /** A success envelope carries the data, the message (by default "Success") and the code, and no errors. */
  lemma SuccessFields(data: Option<Value>, message: Option<string>, code: Option<string>, timestamp: string)
    ensures var r := Success(data, message, code, timestamp);
      && Field(r, "success") == Some(Bool(true))
      && Field(r, "data") == data
      && Field(r, "message") == Some(Str(message.GetOr("Success")))
      && Field(r, "code") == StrOpt(code)
      && Field(r, "errors") == None
      && Field(r, "timestamp") == Some(Str(timestamp))
  {
    EnvelopeFields(Envelope(true, data, message.GetOr("Success"), code, None, timestamp));
  }

  /** The `errors` member of an error envelope. */
  function ErrorList(errors: Option<seq<string>>): Option<Value> {
    if errors.Some? then Some(Strings(errors.value)) else None
  }

  /** `ApiResponseBuilder.error(message, status = 500, code, errors)`: `success: false`, no data. */
  function Error(message: string, status: Option<int>, code: Option<string>, errors: Option<seq<string>>, timestamp: string): (r: Response)
    ensures r.status == status.GetOr(500)
  {
    LiteralResponse(EnvelopeMembers(Envelope(false, None, message, code, ErrorList(errors), timestamp)), status.GetOr(500))
  }

  /** An error envelope carries the message, the code and the listed errors, and no data. */
  lemma ErrorFields(message: string, status: Option<int>, code: Option<string>, errors: Option<seq<string>>, timestamp: string)
    ensures var r := Error(message, status, code, errors, timestamp);
      && Field(r, "success") == Some(Bool(false))
      && Field(r, "data") == None
      && Field(r, "message") == Some(Str(message))
      && Field(r, "code") == StrOpt(code)
      && Field(r, "errors") == ErrorList(errors)
      && Field(r, "timestamp") == Some(Str(timestamp))
  {
    EnvelopeFields(Envelope(false, None, message, code, ErrorList(errors), timestamp));
  }

  /** `validationError(errors)`: 400, "Validation failed", `VALIDATION_ERROR`, with the errors listed. */
  function ValidationError(errors: seq<string>, timestamp: string): (r: Response)
    ensures r.status == 400
  {
    Error("Validation failed", Some(400), Some("VALIDATION_ERROR"), Some(errors), timestamp)
  }

  /** `unauthorizedError(message = "Unauthorized")`: 401, `UNAUTHORIZED`. */
  function Unauthorized(message: Option<string>, timestamp: string): (r: Response)
    ensures r.status == 401
  {
    Error(message.GetOr("Unauthorized"), Some(401), Some("UNAUTHORIZED"), None, timestamp)
  }

  /** `forbiddenError(message = "Forbidden")`: 403, `FORBIDDEN`. */
  function Forbidden(message: Option<string>, timestamp: string): (r: Response)
    ensures r.status == 403
  {
    Error(message.GetOr("Forbidden"), Some(403), Some("FORBIDDEN"), None, timestamp)
  }

  /** `notFoundError(message = "Not found")`: 404, `NOT_FOUND`. */
  function NotFound(message: Option<string>, timestamp: string): (r: Response)
    ensures r.status == 404
  {
    Error(message.GetOr("Not found"), Some(404), Some("NOT_FOUND"), None, timestamp)
  }

  const RateLimitMessage: string := "Too many requests. Please try again later."

  /** `rateLimitError()`: 429, `RATE_LIMIT_EXCEEDED`. */
  function RateLimited(timestamp: string): (r: Response)
    ensures r.status == 429
  {
    Error(RateLimitMessage, Some(429), Some("RATE_LIMIT_EXCEEDED"), None, timestamp)
  }

  /** Each shorthand fills in its own message (or the default) and code, with `success: false`;
      a validation error lists the validator's messages. */
  lemma ShorthandFields(message: Option<string>, errors: seq<string>, timestamp: string)
    ensures var r := ValidationError(errors, timestamp);
      Field(r, "success") == Some(Bool(false)) && Field(r, "message") == Some(Str("Validation failed"))
      && Field(r, "code") == Some(Str("VALIDATION_ERROR")) && Field(r, "errors") == Some(Strings(errors))
    ensures var r := Unauthorized(message, timestamp);
      Field(r, "success") == Some(Bool(false)) && Field(r, "message") == Some(Str(message.GetOr("Unauthorized")))
      && Field(r, "code") == Some(Str("UNAUTHORIZED"))
    ensures var r := Forbidden(message, timestamp);
      Field(r, "success") == Some(Bool(false)) && Field(r, "message") == Some(Str(message.GetOr("Forbidden")))
      && Field(r, "code") == Some(Str("FORBIDDEN"))
    ensures var r := NotFound(message, timestamp);
      Field(r, "success") == Some(Bool(false)) && Field(r, "message") == Some(Str(message.GetOr("Not found")))
      && Field(r, "code") == Some(Str("NOT_FOUND"))
    ensures var r := RateLimited(timestamp);
      Field(r, "success") == Some(Bool(false)) && Field(r, "message") == Some(Str(RateLimitMessage))
      && Field(r, "code") == Some(Str("RATE_LIMIT_EXCEEDED"))
  {
    ErrorFields("Validation failed", Some(400), Some("VALIDATION_ERROR"), Some(errors), timestamp);
    ErrorFields(message.GetOr("Unauthorized"), Some(401), Some("UNAUTHORIZED"), None, timestamp);
    ErrorFields(message.GetOr("Forbidden"), Some(403), Some("FORBIDDEN"), None, timestamp);
    ErrorFields(message.GetOr("Not found"), Some(404), Some("NOT_FOUND"), None, timestamp);
    ErrorFields(RateLimitMessage, Some(429), Some("RATE_LIMIT_EXCEEDED"), None, timestamp);
  }
}
