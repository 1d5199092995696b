/**
 * The create route (`POST /api/posts/create`): authenticate the caller, charge the shared
 * limiter's `create` budget, parse, check, sanitise and validate the body, then ask the CMS for
 * a new post in `pending` status whose custom fields name the caller as owner.  Every answer is
 * an `ApiResponseBuilder` envelope; whatever the handler throws ends in a 500 envelope.
 */
module CreateRoute {
  import opened Wrappers
  import opened Json
  import opened Http
  import opened RateLimit
  import opened Records
  import opened FormValidation
  import opened Validator
  import Responses
  import WpOptimizer

  const MissingTokenMessage: string := "Authentication token required"
  const InvalidUserMessage: string := "Invalid authentication token"
  const InvalidJsonMessage: string := "Invalid JSON format"
  const InvalidJsonCode: string := "INVALID_JSON"
  const InvalidSlugMessage: string := "Invalid content type format"
  const InvalidSlugCode: string := "INVALID_CPT_SLUG"
  const MismatchMessage: string := "User ID mismatch"
  const ServerAuthMessage: string := "Server authentication failed"
  const CreateFailedMessage: string := "Failed to create post in WordPress"
  const InternalMessage: string := "Internal server error"
  const InternalCode: string := "INTERNAL_ERROR"
  const CreatedMessage: string := "Post created successfully"
  const CreatedCode: string := "CREATE_SUCCESS"
  const Pending: string := "pending"

  // ---------------------------------------------------------------------------------------
  // Responses

  /** The `catch` clause: `error(error.message || "Internal server error", 500, "INTERNAL_ERROR")`. */
  function Crash(message: string, timestamp: string): Response {
    Responses.Error(if message != [] then message else InternalMessage, Some(500), Some(InternalCode), None, timestamp)
  }

  /** A thrown error always ends in a 500 envelope with `success: false` and `INTERNAL_ERROR`,
      carrying the error's message when it has one. */
  lemma CrashFields(message: string, timestamp: string)
    ensures var r := Crash(message, timestamp);
      && r.status == 500 && Field(r, "success") == Some(Bool(false))
      && Field(r, "code") == Some(Str(InternalCode))
      && Field(r, "message") == Some(Str(if message != [] then message else InternalMessage))
  {
    Responses.ErrorFields(if message != [] then message else InternalMessage, Some(500), Some(InternalCode), None, timestamp);
  }

  /** The `data` of the success envelope: the new post's id, title, slug, status and date. */
  function Summary(post: Value): seq<(string, Option<Value>)> {
    [("id", Member(Some(post), "id")), ("title", Member(Some(post), "title")),
     ("slug", Member(Some(post), "slug")), ("status", Member(Some(post), "status")),
     ("created", Member(Some(post), "date"))]
  }

  function Created(post: Value, timestamp: string): Response {
    Responses.Success(Some(Obj(Literal(Summary(post)))), Some(CreatedMessage), Some(CreatedCode), timestamp)
  }

  /** The success envelope copies the CMS's id, title, slug, status and date of the new post. */
  lemma CreatedFields(post: Value, timestamp: string)
    ensures var r := Created(post, timestamp);
      && r.status == 200 && Field(r, "success") == Some(Bool(true)) && Field(r, "code") == Some(Str(CreatedCode))
      && Member(Field(r, "data"), "id") == Member(Some(post), "id")
      && Member(Field(r, "data"), "title") == Member(Some(post), "title")
      && Member(Field(r, "data"), "slug") == Member(Some(post), "slug")
      && Member(Field(r, "data"), "status") == Member(Some(post), "status")
      && Member(Field(r, "data"), "created") == Member(Some(post), "date")
  {
    Responses.SuccessFields(Some(Obj(Literal(Summary(post)))), Some(CreatedMessage), Some(CreatedCode), timestamp);
    var m := Summary(post);
    LookupLiteral(m, 0);
    LookupLiteral(m, 1);
    LookupLiteral(m, 2);
    LookupLiteral(m, 3);
    LookupLiteral(m, 4);
  }

  // ---------------------------------------------------------------------------------------
  // The request body

  /** The keys destructured out of the body; the rest are the custom fields. */
  const Taken: set<string> := {"title", "userId", "cptSlug"}

  /** `{ title, ...acfData }`: the title first, then every key the handler did not destructure. */
  function Submitted(body: Value): seq<Prop> {
    Prepend("title", Member(Some(body), "title"), if body.Obj? then Without(body.props, Taken) else [])
  }

  /** `${cptSlug}` as the slug check, the schema lookup and the CMS path see it. */
  function Slug(body: Value): string {
    ToJsString(Member(Some(body), "cptSlug"))
  }

  /** The sanitised record of a parsed body. */
  function Record(body: Body): seq<Prop> {
    if body.Parsed? then Sanitized(Submitted(body.json)) else []
  }

  /** How `validatePostData(cptSlug, sanitizedData)` ends for a parsed body. */
  function Validation(body: Body): Verdict {
    if body.Parsed? then PostVerdict(Slug(body.json), Record(body)) else Verdict(true, [])
  }

  /** `{ title: sanitizedData.title, status: "pending", fields: acfFields }`. */
  function Draft(data: seq<Prop>, user: string): Value {
    Obj(Literal([("title", Lookup(data, "title")), ("status", Some(Str(Pending))),
                 ("fields", Some(Obj(AcfFields(data, user))))]))
  }

  /** The post asked for is always pending, owned by the caller whatever the client sent, and
      titled with the sanitised title. */
  lemma DraftFields(data: seq<Prop>, user: string)
    ensures Member(Some(Draft(data, user)), "status") == Some(Str(Pending))
    ensures Member(Member(Some(Draft(data, user)), "fields"), OwnerField) == Some(Str(user))
    ensures Member(Some(Draft(data, user)), "title") == Lookup(data, "title")
  {
    var members := [("title", Lookup(data, "title")), ("status", Some(Str(Pending))),
                    ("fields", Some(Obj(AcfFields(data, user))))];
    LookupLiteral(members, 0);
    LookupLiteral(members, 1);
    LookupLiteral(members, 2);
  }

  /** The refusal the body earns, if any, from steps 3 to 5, in the handler's order, where
      `verdict` is how the validator ended on the sanitised record. */
  function Checked(body: Body, user: string, verdict: Verdict, timestamp: string): (r: Option<Response>)
    ensures r.None? <==> Acceptable(body, user, verdict)
  {
    if body.Malformed? then Some(Responses.Error(InvalidJsonMessage, Some(400), Some(InvalidJsonCode), None, timestamp))
    else if body.json.Null? then Some(Crash(NullDestructure("title"), timestamp))
    else if !ValidateSlug(Slug(body.json)) then
      Some(Responses.Error(InvalidSlugMessage, Some(400), Some(InvalidSlugCode), None, timestamp))
    else if Member(Some(body.json), "userId") != Some(Str(user)) then Some(Responses.Forbidden(Some(MismatchMessage), timestamp))
    else if verdict.Threw? then Some(Crash(verdict.message, timestamp))
    else if !verdict.isValid then Some(Responses.ValidationError(verdict.errors, timestamp))
    else None
  }

  /** The body passes every local check: it is JSON, its content type is a well-formed slug, it
      names the caller as its owner, and the validator returned and found it valid. */
  predicate Acceptable(body: Body, user: string, verdict: Verdict) {
    body.Parsed? && !body.json.Null? && ValidateSlug(Slug(body.json))
    && Member(Some(body.json), "userId") == Some(Str(user)) && verdict.Verdict? && verdict.isValid
  }

  /** Steps 3 to 6: parse, check, sanitise and validate the body, then build the custom fields. */
  method Prepare(body: Body, user: string, timestamp: string) returns (refusal: Option<Response>, path: string, payload: Value)
    ensures refusal == Checked(body, user, Validation(body), timestamp)
    ensures refusal.None? ==> path == WpRoot + Slug(body.json) && payload == Draft(Record(body), user)
  {
    path, payload := "", Null;
    if body.Malformed? {
      return Some(Responses.Error(InvalidJsonMessage, Some(400), Some(InvalidJsonCode), None, timestamp)), path, payload;
    }
    var json := body.json;
    if json.Null? {
      return Some(Crash(NullDestructure("title"), timestamp)), path, payload;
    }
    var cptSlug := Slug(json);
    if !ValidateSlug(cptSlug) {
      return Some(Responses.Error(InvalidSlugMessage, Some(400), Some(InvalidSlugCode), None, timestamp)), path, payload;
    }
    if Member(Some(json), "userId") != Some(Str(user)) {
      return Some(Responses.Forbidden(Some(MismatchMessage), timestamp)), path, payload;
    }
    var sanitizedData := SanitizeRecord(Submitted(json));
    var validation := ValidatePostData(cptSlug, sanitizedData);
    if validation.Threw? {
      return Some(Crash(validation.message, timestamp)), path, payload;
    }
    if !validation.isValid {
      return Some(Responses.ValidationError(validation.errors, timestamp)), path, payload;
    }
    var acfFields := BuildAcfFields(sanitizedData, user);
    refusal := None;
    path := WpRoot + cptSlug;
    payload := Obj(Literal([("title", Lookup(sanitizedData, "title")), ("status", Some(Str(Pending))),
                            ("fields", Some(Obj(acfFields)))]));
  }

  // ---------------------------------------------------------------------------------------
  // The CMS

  /** Steps 7 to 9, given the token `getOptimizedToken` returned and the CMS's reply to the
      creation request. */
  function Committed(path: string, payload: Value, wpToken: Option<string>, reply: Reply, timestamp: string): (result: (Response, seq<Call>))
    ensures var (response, calls) := result;
      && (calls == [] <==> !WpOptimizer.Truthy(wpToken))
      && (calls != [] ==> calls == [Cms(POST, path, Some(payload))])
      && (!WpOptimizer.Truthy(wpToken) ==> response == Crash(ServerAuthMessage, timestamp))
      && (response.status == 200 ==> calls != [] && reply.Reply? && Ok(reply.status))
      && response.status in {200, 500}
  {
    if !WpOptimizer.Truthy(wpToken) then (Crash(ServerAuthMessage, timestamp), [])
    else
      var calls := [Cms(POST, path, Some(payload))];
      match reply
      case Unreachable(message) => (Crash(message, timestamp), calls)
      case Reply(status, body) =>
        if body.NotJson? then (Crash(body.parseError, timestamp), calls)
        else
          var responseData := body.value;
          if !Ok(status) then
            if responseData.Null? then (Crash(NullRead("message"), timestamp), calls)
            else (Crash(Stringify(Or(Member(Some(responseData), "message"), Str(CreateFailedMessage))), timestamp), calls)
          else if responseData.Null? then (Crash(NullRead("id"), timestamp), calls)
          else (Created(responseData, timestamp), calls)
  }

  /** A failed creation shows the CMS's own message when it sent one. */
  lemma CommittedShowsCmsMessage(path: string, payload: Value, wpToken: Option<string>, status: int, data: Value, timestamp: string)
    requires WpOptimizer.Truthy(wpToken) && !Ok(status) && data.Obj?
    requires Lookup(data.props, "message") == Some(Str("x"))
    ensures Field(Committed(path, payload, wpToken, Reply(status, Json(data)), timestamp).0, "message") == Some(Str("x"))
  {
    CrashFields("x", timestamp);
  }

  // ---------------------------------------------------------------------------------------
  // The handler

  /** The caller is authenticated and within the `create` budget of the store `store`. */
  predicate Admitted(store: map<string, seq<int>>, authorization: Option<string>, identity: Identity, now: int) {
    var u := Caller(authorization, identity);
    u.Some? && Admit(Stored(store, StoreKey(u.value, Create)), LimitOf(Create), now).allowed
  }

  /** The request after the identity lookup went to the token issuer. */
  predicate AskedIssuer(calls: seq<Call>) {
    |calls| >= 2 && calls[1] == IssueToken
  }

  /** Steps 3 to 9 for an admitted caller `user`: the answer and the requests sent after the
      identity lookup, given the token slot before the request, the sanitised record `data` and
      the validator's `verdict`. */
  function Proceeded(slot: Option<WpOptimizer.CachedToken>, now: int, body: Body, user: string, data: seq<Prop>,
                     verdict: Verdict, issued: Option<string>, reply: Reply, timestamp: string): (Response, seq<Call>)
  {
    var checked := Checked(body, user, verdict, timestamp);
    if checked.Some? then (checked.value, [])
    else
      var asked := if WpOptimizer.Fresh(slot, now) then [] else [IssueToken];
      var (response, upstream) := Committed(WpRoot + Slug(body.json), Draft(data, user), WpOptimizer.TokenFor(slot, now, issued), reply, timestamp);
      (response, asked + upstream)
  }

  /** Steps 2 to 9 for an authenticated caller `user`, given the limiter's store and the token slot
      before the request: a caller over the `create` budget is refused before the body is read. */
  function Throttled(store: map<string, seq<int>>, slot: Option<WpOptimizer.CachedToken>, user: string, now: int,
                     body: Body, issued: Option<string>, reply: Reply, timestamp: string): (Response, seq<Call>)
  {
    if !Admit(Stored(store, StoreKey(user, Create)), LimitOf(Create), now).allowed then (Responses.RateLimited(timestamp), [])
    else Proceeded(slot, now, body, user, Record(body), Validation(body), issued, reply, timestamp)
  }

  /** What the handler answers and which upstream requests it sends, given the limiter's store and
      the token slot before the request. */
  function Respond(store: map<string, seq<int>>, slot: Option<WpOptimizer.CachedToken>, authorization: Option<string>,
                   identity: Identity, now: int, body: Body, issued: Option<string>, reply: Reply, timestamp: string)
    : (Response, seq<Call>)
  {
    var token := BearerToken(authorization);
    if token.None? then (Responses.Unauthorized(Some(MissingTokenMessage), timestamp), [])
    else
      var calls := [LookupUser(token.value)];
      if Caller(authorization, identity).None? then (Responses.Unauthorized(Some(InvalidUserMessage), timestamp), calls)
      else
        var (response, rest) := Throttled(store, slot, Caller(authorization, identity).value, now, body, issued, reply, timestamp);
        (response, calls + rest)
  }

  /**
   * `POST(request)`, with the shared limiter and token cache it touches.  The upstream answers
   * are parameters: the `Authorization` header, the identity provider's answer, the clock, the
   * parsed body, the token issuer's answer (and when it came), and the CMS's reply.
   */
  method Post(limiter: RateLimiter, tokens: WpOptimizer.TokenCache, authorization: Option<string>, identity: Identity,
              now: int, body: Body, issued: Option<string>, issuedAt: int, reply: Reply, timestamp: string)
    returns (response: Response, calls: seq<Call>)
    modifies limiter, tokens
    ensures limiter.store == if Caller(authorization, identity).Some?
      then Charged(old(limiter.store), Caller(authorization, identity).value, Create, now) else old(limiter.store)
    ensures tokens.slot == if AskedIssuer(calls) then WpOptimizer.Refilled(old(tokens.slot), issued, issuedAt) else old(tokens.slot)
    ensures (response, calls) == Respond(old(limiter.store), old(tokens.slot), authorization, identity, now, body,
                                         issued, reply, timestamp)
  {
    // 1. Authentication
    var token := BearerToken(authorization);
    if token.None? {
      return Responses.Unauthorized(Some(MissingTokenMessage), timestamp), [];
    }
    calls := [LookupUser(token.value)];
    if identity.error.Some? || identity.user.None? {
      assert Caller(authorization, identity).None?;
      return Responses.Unauthorized(Some(InvalidUserMessage), timestamp), calls;
    }
    var user := identity.user.value;
    assert Caller(authorization, identity) == Some(user);

    // 2-9. The budget, the body and the CMS
    var rest;
    response, rest := Throttle(limiter, tokens, user, now, body, issued, issuedAt, reply, timestamp);
    calls := calls + rest;
  }

  /** Steps 2 to 9 of `POST` for an authenticated caller `user`. */
  method Throttle(limiter: RateLimiter, tokens: WpOptimizer.TokenCache, user: string, now: int, body: Body,
                  issued: Option<string>, issuedAt: int, reply: Reply, timestamp: string)
    returns (response: Response, calls: seq<Call>)
    modifies limiter, tokens
    ensures limiter.store == Charged(old(limiter.store), user, Create, now)
    ensures tokens.slot == if |calls| > 0 && calls[0] == IssueToken
      then WpOptimizer.Refilled(old(tokens.slot), issued, issuedAt) else old(tokens.slot)
    ensures (response, calls) == Throttled(old(limiter.store), old(tokens.slot), user, now, body, issued, reply, timestamp)
  {
    // 2. Rate limiting
    var allowed := limiter.Check(user, Create, now);
    if !allowed {
      return Responses.RateLimited(timestamp), [];
    }

    // 3-9. The body and the CMS
    response, calls := Proceed(tokens, now, body, user, issued, issuedAt, reply, timestamp);
  }

  /** Steps 3 to 9 of `POST` for an admitted caller `user`. */
  method Proceed(tokens: WpOptimizer.TokenCache, now: int, body: Body, user: string, issued: Option<string>,
                 issuedAt: int, reply: Reply, timestamp: string) returns (response: Response, calls: seq<Call>)
    modifies tokens
    ensures tokens.slot == if |calls| > 0 && calls[0] == IssueToken
      then WpOptimizer.Refilled(old(tokens.slot), issued, issuedAt) else old(tokens.slot)
    ensures (response, calls) == Proceeded(old(tokens.slot), now, body, user, Record(body), Validation(body), issued, reply, timestamp)
  {
    // 3-6. The body
    var refusal, path, payload := Prepare(body, user, timestamp);
    if refusal.Some? {
      return refusal.value, [];
    }

    // 7-9. The CMS
    var wpToken, askedIssuer := tokens.GetOptimizedToken(now, issued, issuedAt);
    calls := if askedIssuer then [IssueToken] else [];
    assert wpToken == WpOptimizer.TokenFor(old(tokens.slot), now, issued);
    var upstream := Committed(path, payload, wpToken, reply, timestamp);
    response, calls := upstream.0, calls + upstream.1;
  }

  /** After the proxy's own checks: the refusals send nothing more; otherwise the issuer is asked
      exactly when the cached token is stale, and the CMS gets one creation request exactly when a
      token came back. */
  lemma ProceededOutcomes(slot: Option<WpOptimizer.CachedToken>, now: int, body: Body, user: string, data: seq<Prop>,
                          verdict: Verdict, issued: Option<string>, reply: Reply, timestamp: string)
    ensures var (response, calls) := Proceeded(slot, now, body, user, data, verdict, issued, reply, timestamp);
      && (Checked(body, user, verdict, timestamp).Some? ==> response == Checked(body, user, verdict, timestamp).value && calls == [])
      && (|calls| > 0 && calls[0] == IssueToken <==> Acceptable(body, user, verdict) && !WpOptimizer.Fresh(slot, now))
      && (!NoWrites(calls) <==> Acceptable(body, user, verdict) && WpOptimizer.Truthy(WpOptimizer.TokenFor(slot, now, issued)))
      && (!NoWrites(calls) ==> calls[|calls| - 1] == Cms(POST, WpRoot + Slug(body.json), Some(Draft(data, user))))
      && (response.status == 200 ==> !NoWrites(calls) && reply.Reply? && Ok(reply.status))
      && response.status in {200, 400, 403, 500}
  {
    if Checked(body, user, verdict, timestamp).None? {
      var asked: seq<Call> := if WpOptimizer.Fresh(slot, now) then [] else [IssueToken];
      assert NoWrites(asked);
      var upstream := Committed(WpRoot + Slug(body.json), Draft(data, user), WpOptimizer.TokenFor(slot, now, issued), reply, timestamp);
      NoWritesConcat(asked, upstream.1);
      assert upstream.1 != [] ==> IsWrite(upstream.1[0]);
      assert Proceeded(slot, now, body, user, data, verdict, issued, reply, timestamp) == (upstream.0, asked + upstream.1);
    }
  }

  /** The budget comes first: a caller over it is answered 429 having sent nothing more; a caller
      within it gets the outcomes of the checks and of the CMS on the sanitised record. */
  lemma ThrottledOutcomes(store: map<string, seq<int>>, slot: Option<WpOptimizer.CachedToken>, user: string, now: int,
                          body: Body, issued: Option<string>, reply: Reply, timestamp: string)
    ensures var (response, calls) := Throttled(store, slot, user, now, body, issued, reply, timestamp);
      var allowed := Admit(Stored(store, StoreKey(user, Create)), LimitOf(Create), now).allowed;
      var reached := allowed && Acceptable(body, user, Validation(body));
      && (!allowed ==> response == Responses.RateLimited(timestamp) && calls == [])
      && (allowed && Checked(body, user, Validation(body), timestamp).Some? ==>
            response == Checked(body, user, Validation(body), timestamp).value && calls == [])
      && (|calls| > 0 && calls[0] == IssueToken <==> reached && !WpOptimizer.Fresh(slot, now))
      && (!NoWrites(calls) <==> reached && WpOptimizer.Truthy(WpOptimizer.TokenFor(slot, now, issued)))
      && (!NoWrites(calls) ==> calls[|calls| - 1] == Cms(POST, WpRoot + Slug(body.json), Some(Draft(Record(body), user))))
      && (response.status == 200 ==> !NoWrites(calls) && reply.Reply? && Ok(reply.status))
      && response.status in {200, 400, 403, 429, 500}
  {
    if Admit(Stored(store, StoreKey(user, Create)), LimitOf(Create), now).allowed {
      ProceededOutcomes(slot, now, body, user, Record(body), Validation(body), issued, reply, timestamp);
    }
  }

  /** The guard chain: each failure answers with its own status and code, in the handler's
      order, having asked nothing of the CMS or the token issuer. */
  lemma RespondGuards(store: map<string, seq<int>>, slot: Option<WpOptimizer.CachedToken>, authorization: Option<string>,
                      identity: Identity, now: int, body: Body, issued: Option<string>, reply: Reply, timestamp: string)
    ensures var (response, calls) := Respond(store, slot, authorization, identity, now, body, issued, reply, timestamp);
      && (BearerToken(authorization).None? ==>
            response == Responses.Unauthorized(Some(MissingTokenMessage), timestamp) && calls == [])
      && (BearerToken(authorization).Some? ==> |calls| >= 1 && calls[0] == LookupUser(BearerToken(authorization).value))
      && (BearerToken(authorization).Some? && Caller(authorization, identity).None? ==>
            response == Responses.Unauthorized(Some(InvalidUserMessage), timestamp) && |calls| == 1)
      && (Caller(authorization, identity).Some? && !Admitted(store, authorization, identity, now) ==>
            response == Responses.RateLimited(timestamp) && |calls| == 1)
      && (Admitted(store, authorization, identity, now) && Checked(body, Caller(authorization, identity).value, Validation(body), timestamp).Some? ==>
            response == Checked(body, Caller(authorization, identity).value, Validation(body), timestamp).value && |calls| == 1)
      && response.status in {200, 400, 401, 403, 429, 500}
  {
    if Caller(authorization, identity).Some? {
      ThrottledOutcomes(store, slot, Caller(authorization, identity).value, now, body, issued, reply, timestamp);
    }
  }

  /** The token issuer is asked only for a caller within budget whose body passed every check, and
      then exactly when the cached token is stale. */
  lemma RespondAsksIssuer(store: map<string, seq<int>>, slot: Option<WpOptimizer.CachedToken>, authorization: Option<string>,
                          identity: Identity, now: int, body: Body, issued: Option<string>, reply: Reply, timestamp: string)
    ensures var calls := Respond(store, slot, authorization, identity, now, body, issued, reply, timestamp).1;
      AskedIssuer(calls) <==>
        (Admitted(store, authorization, identity, now)
         && Acceptable(body, Caller(authorization, identity).value, Validation(body)) && !WpOptimizer.Fresh(slot, now))
  {
    if Caller(authorization, identity).Some? {
      ThrottledOutcomes(store, slot, Caller(authorization, identity).value, now, body, issued, reply, timestamp);
    }
  }

  /** Only a caller within budget whose body passed every check, holding a CMS token, reaches the
      CMS; the one write is the creation of the pending post built from the sanitised record, and
      success means the CMS accepted it. */
  lemma RespondWrites(store: map<string, seq<int>>, slot: Option<WpOptimizer.CachedToken>, authorization: Option<string>,
                      identity: Identity, now: int, body: Body, issued: Option<string>, reply: Reply, timestamp: string)
    ensures var (response, calls) := Respond(store, slot, authorization, identity, now, body, issued, reply, timestamp);
      && (!NoWrites(calls) ==>
            (Admitted(store, authorization, identity, now)
             && Acceptable(body, Caller(authorization, identity).value, Validation(body))
             && WpOptimizer.Truthy(WpOptimizer.TokenFor(slot, now, issued))
             && calls[|calls| - 1] == Cms(POST, WpRoot + Slug(body.json), Some(Draft(Record(body), Caller(authorization, identity).value)))))
      && (response.status == 200 ==> !NoWrites(calls) && reply.Reply? && Ok(reply.status))
  {
    if Caller(authorization, identity).Some? {
      var user := Caller(authorization, identity).value;
      var rest := Throttled(store, slot, user, now, body, issued, reply, timestamp).1;
      ThrottledOutcomes(store, slot, user, now, body, issued, reply, timestamp);
      NoWritesConcat([LookupUser(BearerToken(authorization).value)], rest);
    }
  }
}
