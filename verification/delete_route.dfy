/**
 * The delete route (`POST /api/posts/delete`), wrapped in `ErrorHandler.wrap`: authenticate the
 * caller, charge the shared limiter's `delete` budget, read `postId` and `cptSlug` from the body,
 * fetch a CMS token, read the stored post and compare its owner with the caller, and only then
 * send the `DELETE`.  Every failure is thrown as a typed error and turned into a response by
 * `ErrorHandler.handle`.
 */
module DeleteRoute {
  import opened Wrappers
  import opened Json
  import opened Http
  import opened RateLimit
  import opened Records
  import opened Errors
  import WpOptimizer

  const MissingTokenMessage: string := "Authorization token required"
  const InvalidUserMessage: string := "Invalid authentication token"
  const InvalidJsonMessage: string := "Invalid JSON format in request body"
  const MissingFieldsMessage: string := "Missing required fields"
  const ServerAuthMessage: string := "Server authentication failed"
  const NotOwnerMessage: string := "You can only delete your own posts"
  const DeletedMessage: string := "Post deleted successfully"
  const DeletedCode: string := "DELETE_SUCCESS"

  // ---------------------------------------------------------------------------------------
  // The request body

  /** `postId` and `cptSlug` as the CMS path and `postId.toString()` write them. */
  function Id(body: Value): string {
    ToJsString(Member(Some(body), "postId"))
  }

  function Slug(body: Value): string {
    ToJsString(Member(Some(body), "cptSlug"))
  }

  /** `!postId || !cptSlug` does not hold. */
  predicate Complete(body: Body) {
    body.Parsed? && Present(Member(Some(body.json), "postId")) && Present(Member(Some(body.json), "cptSlug"))
  }

  /** What step 3 throws for the body, if anything: a body that is not JSON, a `null` body that
      cannot be destructured, or a missing `postId` or `cptSlug`. */
  function Checked(body: Body): (r: Option<Thrown>)
    ensures r.None? <==> Complete(body)
  {
    if body.Malformed? then Some(App(ValidationError(InvalidJsonMessage, None, [])))
    else if body.json.Null? then Some(Plain("TypeError", NullDestructure("postId")))
    else if !Present(Member(Some(body.json), "postId")) || !Present(Member(Some(body.json), "cptSlug")) then
      Some(App(ValidationError(MissingFieldsMessage, Some(["postId", "cptSlug"]), [])))
    else None
  }

  /** The success body: `{ success, message, code, timestamp, data: { postId, cptSlug } }`. */
  function Deleted(body: Value, timestamp: string): Response {
    LiteralResponse([("success", Some(Bool(true))), ("message", Some(Str(DeletedMessage))),
                     ("code", Some(Str(DeletedCode))), ("timestamp", Some(Str(timestamp))),
                     ("data", Some(Obj(Literal([("postId", Member(Some(body), "postId")),
                                                ("cptSlug", Member(Some(body), "cptSlug"))]))))], 200)
  }

  /** The success body reports success with `DELETE_SUCCESS` and echoes the post id and content
      type the client sent. */
  lemma DeletedFields(body: Value, timestamp: string)
    ensures var r := Deleted(body, timestamp);
      && r.status == 200 && Field(r, "success") == Some(Bool(true)) && Field(r, "code") == Some(Str(DeletedCode))
      && Member(Field(r, "data"), "postId") == Member(Some(body), "postId")
      && Member(Field(r, "data"), "cptSlug") == Member(Some(body), "cptSlug")
  {
    var data := [("postId", Member(Some(body), "postId")), ("cptSlug", Member(Some(body), "cptSlug"))];
    var members := [("success", Some(Bool(true))), ("message", Some(Str(DeletedMessage))),
                    ("code", Some(Str(DeletedCode))), ("timestamp", Some(Str(timestamp))),
                    ("data", Some(Obj(Literal(data))))];
    LookupLiteral(members, 0);
    LookupLiteral(members, 2);
    LookupLiteral(members, 4);
    LookupLiteral(data, 0);
    LookupLiteral(data, 1);
  }

  // ---------------------------------------------------------------------------------------
  // The CMS

  /** `response.json().catch(() => ({}))`. */
  function ErrorData(p: Payload): Value {
    if p.Json? then p.value else Obj([])
  }

  /** What a CMS error reply throws: `createErrorFromWordPressResponse` on its body. */
  function CmsFailure(status: int, p: Payload): Thrown {
    App(ErrorFromWordPressResponse(status, Some(ErrorData(p))))
  }

  /** The stored post, as the verifying `GET` returned it, belongs to `user`. */
  predicate Owned(verify: Reply, user: string) {
    verify.Reply? && Ok(verify.status) && verify.payload.Json? && StoredOwner(verify.payload.value) == Some(Str(user))
  }

  /** Steps 4 to 7 for a body that passed step 3, given the token `getOptimizedToken` returned and
      the CMS's replies to the verifying `GET` and to the `DELETE`. */
  function Committed(body: Value, user: string, wpToken: Option<string>, verify: Reply, deletion: Reply,
                     timestamp: string): (Outcome, seq<Call>)
  {
    var path := PostPath(Slug(body), Id(body));
    if !WpOptimizer.Truthy(wpToken) then (Failure(App(WordPressApiError(ServerAuthMessage, None, []))), [])
    else
      var read := [Cms(GET, path + EditQuery, None)];
      match verify
      case Unreachable(message) => (Failure(Plain("TypeError", message)), read)
      case Reply(status, payload) =>
        if !Ok(status) then
          if status == 404 then (Failure(App(NotFoundError(Some("Post"), Some(Id(body)), []))), read)
          else (Failure(CmsFailure(status, payload)), read)
        else if payload.NotJson? then (Failure(Plain("SyntaxError", payload.parseError)), read)
        else if payload.value.Null? then (Failure(Plain("TypeError", NullRead("acf"))), read)
        else if StoredOwner(payload.value) != Some(Str(user)) then
          (Failure(App(AuthorizationError(Some(NotOwnerMessage), None))), read)
        else
          var calls := read + [Cms(DELETE, path, None)];
          match deletion
          case Unreachable(message) => (Failure(Plain("TypeError", message)), calls)
          case Reply(status', payload') =>
            if !Ok(status') then (Failure(CmsFailure(status', payload')), calls)
            else (Success(Deleted(body, timestamp)), calls)
  }

  /** Past the token, the CMS is read before it is written: a missing token throws a 502
      `WordPressApiError` having sent nothing, a missing post is a 404 and a post owned by someone
      else a 403, each with only the verifying `GET` sent. */
  lemma CommittedRefusals(body: Value, user: string, wpToken: Option<string>, verify: Reply, deletion: Reply,
                          timestamp: string)
    ensures var (outcome, calls) := Committed(body, user, wpToken, verify, deletion, timestamp);
      && (!WpOptimizer.Truthy(wpToken) ==> calls == [] && outcome.Failure? && StatusOf(outcome) == 502)
      && (WpOptimizer.Truthy(wpToken) ==> |calls| >= 1 && calls[0] == Cms(GET, PostPath(Slug(body), Id(body)) + EditQuery, None))
      && (WpOptimizer.Truthy(wpToken) && verify.Reply? && verify.status == 404 ==>
            outcome == Failure(App(NotFoundError(Some("Post"), Some(Id(body)), []))) && |calls| == 1)
      && (WpOptimizer.Truthy(wpToken) && verify.Reply? && Ok(verify.status) && verify.payload.Json?
          && !verify.payload.value.Null? && !Owned(verify, user) ==>
            outcome == Failure(App(AuthorizationError(Some(NotOwnerMessage), None))) && |calls| == 1)
      && StatusOf(outcome) in {200, 403, 404, 500, 502}
  {
  }

  /** The one write is the `DELETE` of the post the body names, sent only when the stored post
      belongs to the caller; success means it was sent and accepted. */
  lemma CommittedWrites(body: Value, user: string, wpToken: Option<string>, verify: Reply, deletion: Reply,
                        timestamp: string)
    ensures var (outcome, calls) := Committed(body, user, wpToken, verify, deletion, timestamp);
      var path := PostPath(Slug(body), Id(body));
      && (!NoWrites(calls) <==> WpOptimizer.Truthy(wpToken) && Owned(verify, user))
      && (!NoWrites(calls) ==> calls == [Cms(GET, path + EditQuery, None), Cms(DELETE, path, None)])
      && (outcome.Success? <==> !NoWrites(calls) && deletion.Reply? && Ok(deletion.status))
      && (outcome.Success? ==> outcome.value == Deleted(body, timestamp))
  {
    var path := PostPath(Slug(body), Id(body));
    if WpOptimizer.Truthy(wpToken) {
      var read := [Cms(GET, path + EditQuery, None)];
      assert NoWrites(read);
      if Owned(verify, user) {
        var calls := read + [Cms(DELETE, path, None)];
        assert IsWrite(calls[1]);
        assert Committed(body, user, wpToken, verify, deletion, timestamp).1 == calls;
      }
    }
  }

  /** The status of the response `ErrorHandler.wrap` makes of an outcome. */
  function StatusOf(o: Outcome): int {
    if o.Success? then o.value.status else Normalize(o.error).statusCode
  }

  // ---------------------------------------------------------------------------------------
  // The handler

  /** The error object `auth.getUser` returned, as far as `createErrorFromSupabaseError` reads it. */
  function AuthErrorValue(e: AuthError): (v: Value)
    ensures Member(Some(v), "message") == e.message
    ensures Member(Some(v), "code") == e.code && Member(Some(v), "details") == e.details
  {
    var members := [("message", e.message), ("code", e.code), ("details", e.details)];
    LookupLiteral(members, 0);
    LookupLiteral(members, 1);
    LookupLiteral(members, 2);
    Obj(Literal(members))
  }

  /** The caller is authenticated and within the `delete` budget of the store `store`. */
  predicate Admitted(store: map<string, seq<int>>, authorization: Option<string>, identity: Identity, now: int) {
    var u := Caller(authorization, identity);
    u.Some? && Admit(Stored(store, StoreKey(u.value, Delete)), LimitOf(Delete), now).allowed
  }

  /** Steps 3 to 7 for an admitted caller `user`, given the token slot before the request. */
  function Proceeded(slot: Option<WpOptimizer.CachedToken>, now: int, body: Body, user: string, issued: Option<string>,
                     verify: Reply, deletion: Reply, timestamp: string): (Outcome, seq<Call>)
  {
    var checked := Checked(body);
    if checked.Some? then (Failure(checked.value), [])
    else
      var asked := if WpOptimizer.Fresh(slot, now) then [] else [IssueToken];
      var (outcome, upstream) := Committed(body.json, user, WpOptimizer.TokenFor(slot, now, issued), verify, deletion, timestamp);
      (outcome, asked + upstream)
  }

  /** Steps 2 to 7 for an authenticated caller `user`: a caller over the `delete` budget is refused
      before the body is read. */
  function Throttled(store: map<string, seq<int>>, slot: Option<WpOptimizer.CachedToken>, user: string, now: int,
                     body: Body, issued: Option<string>, verify: Reply, deletion: Reply, timestamp: string)
    : (Outcome, seq<Call>)
  {
    if !Admit(Stored(store, StoreKey(user, Delete)), LimitOf(Delete), now).allowed then
      (Failure(App(RateLimitError(5, 60000, [Prop("userId", Str(user))]))), [])
    else Proceeded(slot, now, body, user, issued, verify, deletion, timestamp)
  }

  /** What the wrapped handler returns or throws, and which upstream requests it sends, given the
      limiter's store and the token slot before the request. */
  function Respond(store: map<string, seq<int>>, slot: Option<WpOptimizer.CachedToken>, authorization: Option<string>,
                   identity: Identity, now: int, body: Body, issued: Option<string>, verify: Reply, deletion: Reply,
                   timestamp: string): (Outcome, seq<Call>)
  {
    var token := BearerToken(authorization);
    if token.None? then (Failure(App(AuthenticationError(Some(MissingTokenMessage), None))), [])
    else
      var calls := [LookupUser(token.value)];
      if identity.error.Some? then (Failure(App(ErrorFromSupabaseError(AuthErrorValue(identity.error.value)))), calls)
      else if identity.user.None? then (Failure(App(AuthenticationError(Some(InvalidUserMessage), None))), calls)
      else
        var (outcome, rest) := Throttled(store, slot, identity.user.value, now, body, issued, verify, deletion, timestamp);
        (outcome, calls + rest)
  }

  /**
   * `POST(request)`: the handler, then `ErrorHandler.wrap` around it.  The upstream answers are
   * parameters: the `Authorization` header, the identity provider's answer, the clock, the parsed
   * body, the token issuer's answer (and when it came), and the CMS's replies; `development`,
   * `timestamp` and `stack` are what `ErrorHandler.handle` reads besides the error.
   */
  method Post(limiter: RateLimiter, tokens: WpOptimizer.TokenCache, authorization: Option<string>, identity: Identity,
              now: int, body: Body, issued: Option<string>, issuedAt: int, verify: Reply, deletion: Reply,
              development: bool, timestamp: string, stack: string)
    returns (response: Response, calls: seq<Call>)
    modifies limiter, tokens
    ensures limiter.store == if Caller(authorization, identity).Some?
      then Charged(old(limiter.store), Caller(authorization, identity).value, Delete, now) else old(limiter.store)
    ensures var (outcome, sent) := Respond(old(limiter.store), old(tokens.slot), authorization, identity, now, body,
                                           issued, verify, deletion, timestamp);
      response == Wrap(outcome, development, timestamp, stack) && calls == sent
  {
    var outcome;
    outcome, calls := Handler(limiter, tokens, authorization, identity, now, body, issued, issuedAt, verify, deletion, timestamp);
    response := Wrap(outcome, development, timestamp, stack);
  }

  /** The handler `ErrorHandler.wrap` is given: what it returns or throws. */
  method Handler(limiter: RateLimiter, tokens: WpOptimizer.TokenCache, authorization: Option<string>, identity: Identity,
                 now: int, body: Body, issued: Option<string>, issuedAt: int, verify: Reply, deletion: Reply,
                 timestamp: string)
    returns (outcome: Outcome, calls: seq<Call>)
    modifies limiter, tokens
    ensures limiter.store == if Caller(authorization, identity).Some?
      then Charged(old(limiter.store), Caller(authorization, identity).value, Delete, now) else old(limiter.store)
    ensures (outcome, calls) == Respond(old(limiter.store), old(tokens.slot), authorization, identity, now, body,
                                        issued, verify, deletion, timestamp)
  {
    // 1. Authentication
    var token := BearerToken(authorization);
    if token.None? {
      return Failure(App(AuthenticationError(Some(MissingTokenMessage), None))), [];
    }
    calls := [LookupUser(token.value)];
    if identity.error.Some? {
      return Failure(App(ErrorFromSupabaseError(AuthErrorValue(identity.error.value)))), calls;
    }
    if identity.user.None? {
      assert Caller(authorization, identity).None?;
      return Failure(App(AuthenticationError(Some(InvalidUserMessage), None))), calls;
    }
    var user := identity.user.value;
    assert Caller(authorization, identity) == Some(user);

    // 2-7. The budget, the body and the CMS
    var rest;
    outcome, rest := Throttle(limiter, tokens, user, now, body, issued, issuedAt, verify, deletion, timestamp);
    calls := calls + rest;
  }

  /** Steps 2 to 7 for an authenticated caller `user`. */
  method Throttle(limiter: RateLimiter, tokens: WpOptimizer.TokenCache, user: string, now: int, body: Body,
                  issued: Option<string>, issuedAt: int, verify: Reply, deletion: Reply, timestamp: string)
    returns (outcome: Outcome, calls: seq<Call>)
    modifies limiter, tokens
    ensures limiter.store == Charged(old(limiter.store), user, Delete, now)
    ensures (outcome, calls) == Throttled(old(limiter.store), old(tokens.slot), user, now, body, issued, verify, deletion, timestamp)
  {
    // 2. Rate limiting
    var allowed := limiter.Check(user, Delete, now);
    if !allowed {
      return Failure(App(RateLimitError(5, 60000, [Prop("userId", Str(user))]))), [];
    }

    // 3-7. The body and the CMS
    outcome, calls := Proceed(tokens, now, body, user, issued, issuedAt, verify, deletion, timestamp);
  }

  /** Steps 3 to 7 for an admitted caller `user`. */
  method Proceed(tokens: WpOptimizer.TokenCache, now: int, body: Body, user: string, issued: Option<string>,
                 issuedAt: int, verify: Reply, deletion: Reply, timestamp: string) returns (outcome: Outcome, calls: seq<Call>)
    modifies tokens
    ensures tokens.slot == if |calls| > 0 && calls[0] == IssueToken
      then WpOptimizer.Refilled(old(tokens.slot), issued, issuedAt) else old(tokens.slot)
    ensures (outcome, calls) == Proceeded(old(tokens.slot), now, body, user, issued, verify, deletion, timestamp)
  {
    // 3. The body
    var checked := Checked(body);
    if checked.Some? {
      return Failure(checked.value), [];
    }

    // 4-7. The CMS
    var wpToken, askedIssuer := tokens.GetOptimizedToken(now, issued, issuedAt);
    calls := if askedIssuer then [IssueToken] else [];
    assert wpToken == WpOptimizer.TokenFor(old(tokens.slot), now, issued);
    var upstream := Committed(body.json, user, wpToken, verify, deletion, timestamp);
    outcome, calls := upstream.0, calls + upstream.1;
  }

  /** After the limiter: a body that fails step 3 throws having sent nothing more; otherwise the
      issuer is asked exactly when the cached token is stale, and the CMS outcomes follow. */
  lemma ProceededOutcomes(slot: Option<WpOptimizer.CachedToken>, now: int, body: Body, user: string, issued: Option<string>,
                          verify: Reply, deletion: Reply, timestamp: string)
    ensures var (outcome, calls) := Proceeded(slot, now, body, user, issued, verify, deletion, timestamp);
      var wpToken := WpOptimizer.TokenFor(slot, now, issued);
      && (Checked(body).Some? ==> outcome == Failure(Checked(body).value) && calls == [])
      && (|calls| > 0 && calls[0] == IssueToken <==> Complete(body) && !WpOptimizer.Fresh(slot, now))
      && (!NoWrites(calls) <==> Complete(body) && WpOptimizer.Truthy(wpToken) && Owned(verify, user))
      && (!NoWrites(calls) ==> calls[|calls| - 1] == Cms(DELETE, PostPath(Slug(body.json), Id(body.json)), None))
      && (outcome.Success? <==> !NoWrites(calls) && deletion.Reply? && Ok(deletion.status))
      && (outcome.Success? ==> outcome.value == Deleted(body.json, timestamp))
      && StatusOf(outcome) in {200, 400, 403, 404, 500, 502}
  {
    if Complete(body) {
      var wpToken := WpOptimizer.TokenFor(slot, now, issued);
      var asked: seq<Call> := if WpOptimizer.Fresh(slot, now) then [] else [IssueToken];
      assert NoWrites(asked);
      var upstream := Committed(body.json, user, wpToken, verify, deletion, timestamp);
      CommittedRefusals(body.json, user, wpToken, verify, deletion, timestamp);
      CommittedWrites(body.json, user, wpToken, verify, deletion, timestamp);
      NoWritesConcat(asked, upstream.1);
      assert Proceeded(slot, now, body, user, issued, verify, deletion, timestamp) == (upstream.0, asked + upstream.1);
    }
  }

  /** The budget comes first: a caller over it gets a retryable 429 having sent nothing more; a
      caller within it gets the outcomes of the body check and of the CMS. */
  lemma ThrottledOutcomes(store: map<string, seq<int>>, slot: Option<WpOptimizer.CachedToken>, user: string, now: int,
                          body: Body, issued: Option<string>, verify: Reply, deletion: Reply, timestamp: string)
    ensures var (outcome, calls) := Throttled(store, slot, user, now, body, issued, verify, deletion, timestamp);
      var allowed := Admit(Stored(store, StoreKey(user, Delete)), LimitOf(Delete), now).allowed;
      var reached := allowed && Complete(body);
      && (!allowed ==> outcome.Failure? && outcome.error.App? && outcome.error.error.kind == RateLimitKind
                       && outcome.error.error.retryable && StatusOf(outcome) == 429 && calls == [])
      && (allowed && Checked(body).Some? ==> outcome == Failure(Checked(body).value) && calls == [])
      && (!NoWrites(calls) <==> reached && WpOptimizer.Truthy(WpOptimizer.TokenFor(slot, now, issued)) && Owned(verify, user))
      && (!NoWrites(calls) ==> calls[|calls| - 1] == Cms(DELETE, PostPath(Slug(body.json), Id(body.json)), None))
      && (outcome.Success? <==> !NoWrites(calls) && deletion.Reply? && Ok(deletion.status))
      && (outcome.Success? ==> outcome.value == Deleted(body.json, timestamp))
      && StatusOf(outcome) in {200, 400, 403, 404, 429, 500, 502}
  {
    if Admit(Stored(store, StoreKey(user, Delete)), LimitOf(Delete), now).allowed {
      ProceededOutcomes(slot, now, body, user, issued, verify, deletion, timestamp);
    }
  }

  /** The guard chain: each failure is thrown in the handler's order with its own status, having
      asked nothing of the token issuer or the CMS; the limiter's refusal is a retryable 429. */
  lemma RespondGuards(store: map<string, seq<int>>, slot: Option<WpOptimizer.CachedToken>, authorization: Option<string>,
                      identity: Identity, now: int, body: Body, issued: Option<string>, verify: Reply, deletion: Reply,
                      timestamp: string)
    ensures var (outcome, calls) := Respond(store, slot, authorization, identity, now, body, issued, verify, deletion, timestamp);
      var status := StatusOf(outcome);
      && (BearerToken(authorization).None? ==> status == 401 && calls == [])
      && (BearerToken(authorization).Some? ==> |calls| >= 1 && calls[0] == LookupUser(BearerToken(authorization).value))
      && (BearerToken(authorization).Some? && identity.error.Some? ==>
            outcome == Failure(App(ErrorFromSupabaseError(AuthErrorValue(identity.error.value)))) && status == 500
            && |calls| == 1)
      && (BearerToken(authorization).Some? && identity.error.Some? ==>
            var context := outcome.error.error.context;
            && Member(context, "originalError") == identity.error.value.message
            && Member(context, "code") == identity.error.value.code
            && Member(context, "details") == identity.error.value.details)
      && (BearerToken(authorization).Some? && identity.error.None? && identity.user.None? ==> status == 401 && |calls| == 1)
      && (Caller(authorization, identity).Some? && !Admitted(store, authorization, identity, now) ==>
            outcome.Failure? && outcome.error.App? && outcome.error.error.kind == RateLimitKind
            && outcome.error.error.retryable && status == 429 && |calls| == 1)
      && (Admitted(store, authorization, identity, now) && Checked(body).Some? ==>
            outcome == Failure(Checked(body).value) && |calls| == 1)
      && status in {200, 400, 401, 403, 404, 429, 500, 502}
  {
    if Caller(authorization, identity).Some? {
      ThrottledOutcomes(store, slot, Caller(authorization, identity).value, now, body, issued, verify, deletion, timestamp);
    }
  }

  /** No `DELETE` is sent unless the caller is authenticated and within budget, the body names a
      post and a content type, a CMS token was obtained and the CMS confirmed the caller owns the
      stored post; the one write deletes exactly that post.  Success means the `DELETE` was sent
      and accepted. */
  lemma RespondWrites(store: map<string, seq<int>>, slot: Option<WpOptimizer.CachedToken>, authorization: Option<string>,
                      identity: Identity, now: int, body: Body, issued: Option<string>, verify: Reply, deletion: Reply,
                      timestamp: string)
    ensures var (outcome, calls) := Respond(store, slot, authorization, identity, now, body, issued, verify, deletion, timestamp);
      && (!NoWrites(calls) ==>
            (Admitted(store, authorization, identity, now) && Complete(body)
             && WpOptimizer.Truthy(WpOptimizer.TokenFor(slot, now, issued)) && Owned(verify, Caller(authorization, identity).value)
             && calls[|calls| - 1] == Cms(DELETE, PostPath(Slug(body.json), Id(body.json)), None)))
      && (outcome.Success? <==> !NoWrites(calls) && deletion.Reply? && Ok(deletion.status))
      && (outcome.Success? ==> outcome.value == Deleted(body.json, timestamp))
  {
    if Caller(authorization, identity).Some? {
      var user := Caller(authorization, identity).value;
      var rest := Throttled(store, slot, user, now, body, issued, verify, deletion, timestamp).1;
      ThrottledOutcomes(store, slot, user, now, body, issued, verify, deletion, timestamp);
      NoWritesConcat([LookupUser(BearerToken(authorization).value)], rest);
    }
  }

  /** The refusal the route throws carries the same budget the limiter applies to `delete`. */
  lemma DeleteBudgetMatches(user: string)
    ensures var e := RateLimitError(5, 60000, [Prop("userId", Str(user))]);
      Member(e.context, "limit") == Some(Num(LimitOf(Delete).requests))
      && Member(e.context, "window") == Some(Num(LimitOf(Delete).window))
  {
  }
}
