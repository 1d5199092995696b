/**
 * The error taxonomy: a closed set of kinds, the `AppError` record every kind is an instance
 * of, one constructor function per subclass (each fixing its status, code and retryable flag),
 * and `ErrorHandler.handle`, which turns anything thrown into a `{ success: false, ... }`
 * response whose status is the error's.
 */
module Errors {
  import opened Wrappers
  import opened Text
  import opened Json
  import opened Http

  /** `ErrorType`. */
  datatype ErrorType =
    | ValidationKind
    | AuthenticationKind
    | AuthorizationKind
    | NotFoundKind
    | RateLimitKind
    | WordPressApiKind
    | SupabaseKind
    | NetworkKind
    | InternalKind
    | ExternalServiceKind

  /** The string each `ErrorType` member stands for. */
  function TypeName(t: ErrorType): string {
    match t
    case ValidationKind => "VALIDATION_ERROR"
    case AuthenticationKind => "AUTHENTICATION_ERROR"
    case AuthorizationKind => "AUTHORIZATION_ERROR"
    case NotFoundKind => "NOT_FOUND_ERROR"
    case RateLimitKind => "RATE_LIMIT_ERROR"
    case WordPressApiKind => "WORDPRESS_API_ERROR"
    case SupabaseKind => "SUPABASE_ERROR"
    case NetworkKind => "NETWORK_ERROR"
    case InternalKind => "INTERNAL_ERROR"
    case ExternalServiceKind => "EXTERNAL_SERVICE_ERROR"
  }

  /** Distinct kinds are reported under distinct names, so the `type` field identifies the kind. */
  lemma TypeNameInjective(a: ErrorType, b: ErrorType)
    requires TypeName(a) == TypeName(b)
    ensures a == b
  {
    assert |TypeName(a)| == |TypeName(b)|;
    assert TypeName(a)[0] == TypeName(b)[0];
    assert TypeName(a)[1] == TypeName(b)[1];
  }

  // The messages shown to the caller in place of the internal one.
  const ValidationUserMessage: string := "Please check your input and try again."
  const AuthenticationUserMessage: string := "Please log in to continue."
  const AuthorizationUserMessage: string := "You do not have permission to perform this action."
  const NotFoundUserMessage: string := "The requested item could not be found."
  const RateLimitUserMessage: string := "Too many requests. Please try again later."
  const WordPressUserMessage: string := "There was an issue with the content management system. Please try again."
  const SupabaseUserMessage: string := "There was a database issue. Please try again."
  const UnexpectedUserMessage: string := "An unexpected error occurred. Please try again."

  /** An `AppError` (the stack is supplied when the error is reported). */
  datatype AppError = AppError(
    kind: ErrorType,
    message: string,
    statusCode: int,
    code: Option<string>,
    context: Option<Value>,
    retryable: bool,
    userMessage: Option<string>)

  /** `new ValidationError(message, fields, context)`. */
  function ValidationError(message: string, fields: Option<seq<string>>, context: seq<Prop>): (e: AppError)
    ensures e.kind == ValidationKind && e.statusCode == 400 && e.code == Some("VALIDATION_FAILED") && !e.retryable
    ensures e.message == message
    ensures e.userMessage == Some(ValidationUserMessage)
    ensures Member(e.context, "invalidFields") == (if fields.Some? then Some(Strings(fields.value)) else None)
  {
    AppError(ValidationKind, message, 400, Some("VALIDATION_FAILED"),
      Some(Obj(Put(context, "invalidFields", if fields.Some? then Some(Strings(fields.value)) else None))),
      false, Some(ValidationUserMessage))
  }

  /** `new AuthenticationError(message = "Authentication required", context)`. */
  function AuthenticationError(message: Option<string>, context: Option<Value>): (e: AppError)
    ensures e.kind == AuthenticationKind && e.statusCode == 401 && e.code == Some("AUTH_REQUIRED") && !e.retryable
    ensures e.message == message.GetOr("Authentication required") && e.context == context
    ensures e.userMessage == Some(AuthenticationUserMessage)
  {
    AppError(AuthenticationKind, message.GetOr("Authentication required"), 401, Some("AUTH_REQUIRED"),
      context, false, Some(AuthenticationUserMessage))
  }

  /** `new AuthorizationError(message = "Insufficient permissions", context)`. */
  function AuthorizationError(message: Option<string>, context: Option<Value>): (e: AppError)
    ensures e.kind == AuthorizationKind && e.statusCode == 403 && e.code == Some("INSUFFICIENT_PERMISSIONS") && !e.retryable
    ensures e.message == message.GetOr("Insufficient permissions") && e.context == context
    ensures e.userMessage == Some(AuthorizationUserMessage)
  {
    AppError(AuthorizationKind, message.GetOr("Insufficient permissions"), 403, Some("INSUFFICIENT_PERMISSIONS"),
      context, false, Some(AuthorizationUserMessage))
  }

  /** `` `${resource}${id ? ` with id '${id}'` : ""} not found` ``. */
  function NotFoundMessage(resource: string, id: Option<string>): (m: string)
    ensures id.None? || id.value == [] ==> m == resource + " not found"
    ensures id.Some? && id.value != [] ==> m == resource + " with id '" + id.value + "' not found"
  {
    resource + (if id.Some? && id.value != [] then " with id '" + id.value + "'" else "") + " not found"
  }

  /** `new NotFoundError(resource = "Resource", id, context)`. */
  function NotFoundError(resource: Option<string>, id: Option<string>, context: seq<Prop>): (e: AppError)
    ensures e.kind == NotFoundKind && e.statusCode == 404 && e.code == Some("NOT_FOUND") && !e.retryable
    ensures e.message == NotFoundMessage(resource.GetOr("Resource"), id)
    ensures e.userMessage == Some(NotFoundUserMessage)
    ensures Member(e.context, "resource") == Some(Str(resource.GetOr("Resource")))
    ensures Member(e.context, "id") == StrOpt(id)
  {
    var withResource := Put(context, "resource", Some(Str(resource.GetOr("Resource"))));
    PutOther(withResource, "id", StrOpt(id), "resource");
    AppError(NotFoundKind, NotFoundMessage(resource.GetOr("Resource"), id), 404, Some("NOT_FOUND"),
      Some(Obj(Put(withResource, "id", StrOpt(id)))), false, Some(NotFoundUserMessage))
  }

  /** `new RateLimitError(limit, window, context)`. */
  function RateLimitError(limit: int, window: int, context: seq<Prop>): (e: AppError)
    ensures e.kind == RateLimitKind && e.statusCode == 429 && e.code == Some("RATE_LIMIT_EXCEEDED") && e.retryable
    ensures e.message == "Rate limit exceeded: " + IntToString(limit) + " requests per " + IntToString(window) + "ms"
    ensures e.userMessage == Some(RateLimitUserMessage)
    ensures Member(e.context, "limit") == Some(Num(limit)) && Member(e.context, "window") == Some(Num(window))
  {
    var withLimit := Put(context, "limit", Some(Num(limit)));
    PutOther(withLimit, "window", Some(Num(window)), "limit");
    AppError(RateLimitKind, "Rate limit exceeded: " + IntToString(limit) + " requests per " + IntToString(window) + "ms",
      429, Some("RATE_LIMIT_EXCEEDED"), Some(Obj(Put(withLimit, "window", Some(Num(window))))), true,
      Some(RateLimitUserMessage))
  }

  /** `new WordPressApiError(message, wpStatusCode, context)`: 404 passes through, every other
      upstream status becomes 502; an absent or zero upstream status counts as retryable. */
  function WordPressApiError(message: string, wpStatusCode: Option<int>, context: seq<Prop>): (e: AppError)
    ensures e.kind == WordPressApiKind && e.code == Some("WORDPRESS_API_ERROR")
    ensures e.statusCode == 404 <==> wpStatusCode == Some(404)
    ensures e.statusCode == 404 || e.statusCode == 502
    ensures e.retryable <==> wpStatusCode.None? || wpStatusCode.value == 0 || wpStatusCode.value >= 500
    ensures e.message == "WordPress API Error: " + message
    ensures e.userMessage == Some(WordPressUserMessage)
  {
    var wp := if wpStatusCode.Some? then Some(Num(wpStatusCode.value)) else None;
    AppError(WordPressApiKind, "WordPress API Error: " + message,
      if wpStatusCode == Some(404) then 404 else 502, Some("WORDPRESS_API_ERROR"),
      Some(Obj(Put(context, "wpStatusCode", wp))),
      if wpStatusCode.Some? && wpStatusCode.value != 0 then wpStatusCode.value >= 500 else true,
      Some(WordPressUserMessage))
  }

  /** `new SupabaseError(message, originalError, context)`; `originalMessage` is `originalError?.message`. */
  function SupabaseError(message: string, originalMessage: Option<Value>, context: seq<Prop>): (e: AppError)
    ensures e.kind == SupabaseKind && e.statusCode == 500 && e.code == Some("DATABASE_ERROR") && e.retryable
    ensures e.message == "Database Error: " + message
    ensures e.userMessage == Some(SupabaseUserMessage)
    ensures Member(e.context, "originalError") == originalMessage
  {
    AppError(SupabaseKind, "Database Error: " + message, 500, Some("DATABASE_ERROR"),
      Some(Obj(Put(context, "originalError", originalMessage))), true,
      Some(SupabaseUserMessage))
  }

  /** `data?.message || data?.code || `HTTP ${status}``: the first truthy of the three. */
  function WordPressMessage(status: int, data: Option<Value>): (m: Value)
    ensures Present(Member(data, "message")) ==> m == Member(data, "message").value
    ensures !Present(Member(data, "message")) && Present(Member(data, "code")) ==> m == Member(data, "code").value
    ensures !Present(Member(data, "message")) && !Present(Member(data, "code")) ==> m == Str("HTTP " + IntToString(status))
  {
    Or(Member(data, "message"), Or(Member(data, "code"), Str("HTTP " + IntToString(status))))
  }

  /** `createErrorFromWordPressResponse(response, data)`: a CMS error named after the CMS's own
      message, keeping the CMS status for the 404 and retry decisions. */
  function ErrorFromWordPressResponse(status: int, data: Option<Value>): (e: AppError)
    ensures e.kind == WordPressApiKind && (e.statusCode == 404 <==> status == 404)
    ensures e.retryable <==> status == 0 || status >= 500
    ensures e.message == "WordPress API Error: " + Stringify(WordPressMessage(status, data))
    ensures Member(e.context, "responseData") == data
  {
    WordPressApiError(Stringify(WordPressMessage(status, data)), Some(status), Put([], "responseData", data))
  }

  /** `error.message || "Database operation failed"`. */
  function SupabaseMessage(error: Value): (m: Value)
    ensures Present(Member(Some(error), "message")) ==> m == Member(Some(error), "message").value
    ensures !Present(Member(Some(error), "message")) ==> m == Str("Database operation failed")
  {
    Or(Member(Some(error), "message"), Str("Database operation failed"))
  }

  /** `createErrorFromSupabaseError(error)` for the error object `error` the identity provider returned. */
  function ErrorFromSupabaseError(error: Value): (e: AppError)
    ensures e.kind == SupabaseKind && e.statusCode == 500 && e.retryable
    ensures e.message == "Database Error: " + Stringify(SupabaseMessage(error))
    ensures Member(e.context, "originalError") == Member(Some(error), "message")
    ensures Member(e.context, "code") == Member(Some(error), "code")
    ensures Member(e.context, "details") == Member(Some(error), "details")
  {
    var context := Put(Put([], "code", Member(Some(error), "code")), "details", Member(Some(error), "details"));
    PutOther(Put([], "code", Member(Some(error), "code")), "details", Member(Some(error), "details"), "code");
    PutOther(context, "originalError", Member(Some(error), "message"), "code");
    PutOther(context, "originalError", Member(Some(error), "message"), "details");
    SupabaseError(Stringify(SupabaseMessage(error)), Member(Some(error), "message"), context)
  }

  /** Anything a handler can throw: an `AppError`, another `Error` (its `name` and `message`),
      or a value that is not an `Error` at all. */
  datatype Thrown = App(error: AppError) | Plain(name: string, message: string) | NonError(value: Option<Value>)

  /** The first step of `ErrorHandler.handle`: every thrown value as an `AppError`. */
  function Normalize(t: Thrown): (e: AppError)
    ensures t.App? ==> e == t.error
    ensures t.Plain? ==>
      e.kind == InternalKind && e.statusCode == 500 && e.code == Some("INTERNAL_ERROR")
      && e.message == t.message && !e.retryable && Member(e.context, "originalError") == Some(Str(t.name))
    ensures t.NonError? ==>
      e.kind == InternalKind && e.statusCode == 500 && e.code == Some("UNKNOWN_ERROR")
      && e.message == "Unknown error occurred" && !e.retryable
      && Member(e.context, "error") == Some(Str(ToJsString(t.value)))
    ensures !t.App? ==> e.userMessage == Some(UnexpectedUserMessage)
  {
    match t
    case App(error) => error
    case Plain(name, message) =>
      AppError(InternalKind, message, 500, Some("INTERNAL_ERROR"), Some(Obj(Put([], "originalError", Some(Str(name))))),
        false, Some(UnexpectedUserMessage))
    case NonError(value) =>
      AppError(InternalKind, "Unknown error occurred", 500, Some("UNKNOWN_ERROR"),
        Some(Obj(Put([], "error", Some(Str(ToJsString(value)))))),
        false, Some(UnexpectedUserMessage))
  }

  /** `appError.userMessage || appError.message`. */
  function ShownMessage(e: AppError): string {
    if e.userMessage.Some? && e.userMessage.value != [] then e.userMessage.value else e.message
  }

  /** The members of the body `handle` sends; the last two only in development mode. */
  function HandlerMembers(e: AppError, development: bool, timestamp: string, stack: string): seq<(string, Option<Value>)> {
    [("success", Some(Bool(false))),
     ("message", Some(Str(ShownMessage(e)))),
     ("code", StrOpt(e.code)),
     ("type", Some(Str(TypeName(e.kind)))),
     ("timestamp", Some(Str(timestamp))),
     ("retryable", Some(Bool(e.retryable))),
     ("stack", if development then Some(Str(stack)) else None),
     ("context", if development then e.context else None)]
  }

  /** Every member `handle` writes reads back from the body as written. */
  lemma HandlerBodyFields(e: AppError, development: bool, timestamp: string, stack: string)
    ensures var body := Some(Obj(Literal(HandlerMembers(e, development, timestamp, stack))));
      Member(body, "success") == Some(Bool(false))
      && Member(body, "message") == Some(Str(ShownMessage(e)))
      && Member(body, "code") == StrOpt(e.code)
      && Member(body, "type") == Some(Str(TypeName(e.kind)))
      && Member(body, "retryable") == Some(Bool(e.retryable))
      && Member(body, "stack") == (if development then Some(Str(stack)) else None)
      && Member(body, "context") == (if development then e.context else None)
  {
    var m := HandlerMembers(e, development, timestamp, stack);
    LookupLiteral(m, 0);
    LookupLiteral(m, 1);
    LookupLiteral(m, 2);
    LookupLiteral(m, 3);
    LookupLiteral(m, 5);
    LookupLiteral(m, 6);
    LookupLiteral(m, 7);
  }

  /** `ErrorHandler.handle(error)`: `development` is `NODE_ENV === "development"`, `timestamp` the
      ISO time of the call and `stack` the error's stack trace. */
  function Handle(t: Thrown, development: bool, timestamp: string, stack: string): (r: Response)
    ensures r.status == Normalize(t).statusCode
    ensures Field(r, "success") == Some(Bool(false))
    ensures Field(r, "message") == Some(Str(ShownMessage(Normalize(t))))
    ensures Field(r, "code") == StrOpt(Normalize(t).code)
    ensures Field(r, "type") == Some(Str(TypeName(Normalize(t).kind)))
    ensures Field(r, "retryable") == Some(Bool(Normalize(t).retryable))
    ensures Field(r, "stack").Some? <==> development
    ensures !development ==> Field(r, "context") == None
  {
    var e := Normalize(t);
    HandlerBodyFields(e, development, timestamp, stack);
    LiteralResponse(HandlerMembers(e, development, timestamp, stack), e.statusCode)
  }

  /** A handler's outcome: the response it returned, or what it threw. */
  type Outcome = Result<Response, Thrown>

  /** `ErrorHandler.wrap(handler)` applied to one outcome of `handler`. */
  function Wrap(o: Outcome, development: bool, timestamp: string, stack: string): (r: Response)
    ensures o.Success? ==> r == o.value
    ensures o.Failure? ==> r == Handle(o.error, development, timestamp, stack)
  {
    match o
    case Success(resp) => resp
    case Failure(t) => Handle(t, development, timestamp, stack)
  }

  /** An error built by one of the subclasses is shown to the caller by its user message, never by
      its internal message. */
  lemma HandleShowsUserMessage(e: AppError, development: bool, timestamp: string, stack: string)
    requires e.userMessage.Some? && e.userMessage.value != []
    ensures Field(Handle(App(e), development, timestamp, stack), "message") == Some(Str(e.userMessage.value))
    ensures Handle(App(e), development, timestamp, stack).status == e.statusCode
  {
  }

  /** `isRetryableError(error)` for an `Error` or `AppError`: the `AppError`'s own flag, and
      otherwise only a `TypeError` that mentions `fetch`. */
  function IsRetryableError(t: Thrown): (b: bool)
    requires !t.NonError?
    ensures t.App? ==> (b <==> t.error.retryable)
    ensures t.Plain? ==> (b <==> t.name == "TypeError" && Contains(t.message, "fetch"))
  {
    if t.App? then t.error.retryable else t.name == "TypeError" && Contains(t.message, "fetch")
  }
}
