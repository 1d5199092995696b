/**
 * The update route, `POST /api/posts/update`: a contributor edits one of their posts.  The
 * handler authenticates the caller, applies its own per-user limit of 10 updates a minute,
 * checks the body, sanitises and validates the fields against the content type's schema,
 * confirms with the CMS that the stored post belongs to the caller, and only then sends the
 * update.  Every failure is a `{ message, code, timestamp }` body with its own status.
 */
module UpdateRoute {
  import opened Wrappers
  import opened Json
  import opened Http
  import opened RateLimit
  import opened Records
  import opened FormValidation
  import WpOptimizer

  /** The route's own limit: 10 requests per user in any 60 seconds. */
  const UpdateLimit: Limit := Limit(10, 60000)

  const MissingTokenMessage: string := "Otentikasi pengguna gagal."
  const MissingTokenCode: string := "AUTH_MISSING_TOKEN"
  const InvalidUserMessage: string := "Pengguna tidak valid."
  const InvalidUserCode: string := "AUTH_INVALID_USER"
  const RateLimitedMessage: string := "Terlalu banyak permintaan. Silakan coba lagi dalam 1 menit."
  const RateLimitedCode: string := "RATE_LIMIT_EXCEEDED"
  const InvalidJsonMessage: string := "Format data tidak valid."
  const InvalidJsonCode: string := "INVALID_JSON"
  const IncompleteMessage: string := "Data tidak lengkap. Pastikan semua field wajib telah diisi."
  const IncompleteCode: string := "MISSING_REQUIRED_FIELDS"
  const NotOwnerMessage: string := "Anda tidak berhak mengubah postingan ini."
  const NotOwnerCode: string := "UNAUTHORIZED_UPDATE"
  const InvalidDataMessage: string := "Data tidak valid."
  const InvalidDataCode: string := "VALIDATION_FAILED"
  const ServerAuthMessage: string := "Otentikasi server gagal."
  const PostNotFoundMessage: string := "Postingan tidak ditemukan atau telah dihapus."
  const PostNotFoundCode: string := "POST_NOT_FOUND"
  const UpdateFailedMessage: string := "Gagal memperbarui data di WordPress."
  const UpdatedMessage: string := "Data berhasil diperbarui!"
  const UpdatedCode: string := "UPDATE_SUCCESS"
  const InternalMessage: string := "Terjadi kesalahan internal server."
  const InternalCode: string := "INTERNAL_ERROR"

  // ---------------------------------------------------------------------------------------
  // Response bodies

  /** A refusal: `{ message, code, timestamp }` with the given status. */
  function Refusal(status: int, message: string, code: string, timestamp: string): (r: Response)
    ensures r.status == status
    ensures Field(r, "message") == Some(Str(message)) && Field(r, "code") == Some(Str(code))
    ensures Field(r, "timestamp") == Some(Str(timestamp))
  {
    var members := [("message", Some(Str(message))), ("code", Some(Str(code))), ("timestamp", Some(Str(timestamp)))];
    LookupLiteral(members, 0);
    LookupLiteral(members, 1);
    LookupLiteral(members, 2);
    LiteralResponse(members, status)
  }

  /** The validation failure: 400 carrying the validator's error list. */
  function Rejected(errors: seq<string>, timestamp: string): (r: Response)
    ensures r.status == 400
    ensures Field(r, "errors") == Some(Strings(errors)) && Field(r, "code") == Some(Str(InvalidDataCode))
  {
    var members := [("message", Some(Str(InvalidDataMessage))), ("errors", Some(Strings(errors))),
                    ("code", Some(Str(InvalidDataCode))), ("timestamp", Some(Str(timestamp)))];
    LookupLiteral(members, 1);
    LookupLiteral(members, 2);
    LiteralResponse(members, 400)
  }

  /** The catch-all: 500 with the thrown error's message, or the generic one when it is empty. */
  function Crash(message: string, timestamp: string): (r: Response)
    ensures r.status == 500 && Field(r, "code") == Some(Str(InternalCode))
    ensures Field(r, "message") == Some(Str(if message != [] then message else InternalMessage))
  {
    Refusal(500, if message != [] then message else InternalMessage, InternalCode, timestamp)
  }

  /** The `data` member of the success body: four members of the CMS's reply. */
  function Summary(reply: Value): (members: seq<(string, Option<Value>)>)
    ensures |members| == 4
  {
    [("id", Member(Some(reply), "id")), ("title", Member(Some(reply), "title")),
     ("slug", Member(Some(reply), "slug")), ("modified", Member(Some(reply), "modified"))]
  }

  /** Success: 200 with the CMS's id, title, slug and modification date of the updated post. */
  function Updated(reply: Value, timestamp: string): (r: Response)
    ensures r.status == 200 && Field(r, "code") == Some(Str(UpdatedCode))
    ensures Member(Field(r, "data"), "id") == Member(Some(reply), "id")
    ensures Member(Field(r, "data"), "modified") == Member(Some(reply), "modified")
  {
    var data := Summary(reply);
    LookupLiteral(data, 0);
    LookupLiteral(data, 3);
    var members := [("message", Some(Str(UpdatedMessage))), ("data", Some(Obj(Literal(data)))),
                    ("code", Some(Str(UpdatedCode))), ("timestamp", Some(Str(timestamp)))];
    LookupLiteral(members, 1);
    LookupLiteral(members, 2);
    LiteralResponse(members, 200)
  }

  // ---------------------------------------------------------------------------------------
  // The request body

  /** The keys destructured out of the body; the rest are the custom fields. */
  const Taken: set<string> := {"title", "userId", "cptSlug", "postId"}

  /** `!postId || !cptSlug || !title` fails. */
  predicate Complete(body: Value) {
    Present(Member(Some(body), "postId")) && Present(Member(Some(body), "cptSlug"))
    && Present(Member(Some(body), "title"))
  }

  /** `{ title, ...acfData }`: the title first, then every key the handler did not destructure. */
  function Submitted(body: Value): seq<Prop> {
    if body.Obj? && Member(Some(body), "title").Some? then
      [Prop("title", Member(Some(body), "title").value)] + Without(body.props, Taken)
    else []
  }

  /** The sanitised record that is validated and turned into custom fields. */
  function FormData(body: Value): seq<Prop> {
    Sanitized(Submitted(body))
  }

  /** `${cptSlug}` and `${postId}` as they appear in the CMS path. */
  function Slug(body: Value): string {
    ToJsString(Member(Some(body), "cptSlug"))
  }

  function Id(body: Value): string {
    ToJsString(Member(Some(body), "postId"))
  }

  /** The sanitised record of a parsed body. */
  function Record(body: Body): seq<Prop> {
    if body.Parsed? then FormData(body.json) else []
  }

  /** How `validateFormData(cptSlug, sanitizedData)` ends for a parsed body. */
  function Validation(body: Body): Verdict {
    if body.Parsed? then FormVerdict(Slug(body.json), FormData(body.json)) else Verdict(true, [])
  }

  /** `JSON.stringify({ title: sanitizedData.title, fields: acfFields })`. */
  function UpdateBody(data: seq<Prop>, acf: seq<Prop>): Value {
    Obj(Literal([("title", Lookup(data, "title")), ("fields", Some(Obj(acf)))]))
  }

  /** The update sent for the sanitised record `data`. */
  function Edit(data: seq<Prop>, user: string): Value {
    UpdateBody(data, AcfFields(data, user))
  }

  /** The update sent upstream records the caller as the owner, whatever the client sent, and
      carries the sanitised title. */
  lemma EditOwner(data: seq<Prop>, user: string)
    ensures Member(Member(Some(Edit(data, user)), "fields"), OwnerField) == Some(Str(user))
    ensures Member(Some(Edit(data, user)), "title") == Lookup(data, "title")
  {
    var members := [("title", Lookup(data, "title")), ("fields", Some(Obj(AcfFields(data, user))))];
    LookupLiteral(members, 0);
    LookupLiteral(members, 1);
  }

  // ---------------------------------------------------------------------------------------
  // The caller and the limiter

  /** `rateLimitMap.get(userId) || []`. */
  function Requests(m: map<string, seq<int>>, userId: string): seq<int> {
    if userId in m then m[userId] else []
  }

  /** The map after one `checkRateLimit(userId)` at time `now`. */
  function Counted(m: map<string, seq<int>>, userId: string, now: int): map<string, seq<int>> {
    var d := Admit(Requests(m, userId), UpdateLimit, now);
    if d.allowed then m[userId := d.entry] else m
  }

  /** The caller is authenticated and within the limit. */
  predicate Admitted(m: map<string, seq<int>>, authorization: Option<string>, identity: Identity, now: int) {
    var u := Caller(authorization, identity);
    u.Some? && Admit(Requests(m, u.value), UpdateLimit, now).allowed
  }

  /** A run of `checkRateLimit` calls for one user never admits more than 10 in any minute. */
  lemma UpdateWindowCap(times: seq<int>, end: int)
    requires Sorted(times)
    ensures |InWindow(Replay(times, UpdateLimit).1, end, UpdateLimit.window)| <= 10
  {
    WindowCap(times, UpdateLimit, end);
  }

  /** The module-level state of the route: the per-user request times of `checkRateLimit`. */
  class UpdateHandler {
    var rateLimitMap: map<string, seq<int>>

    constructor()
      ensures rateLimitMap == map[]
    {
      rateLimitMap := map[];
    }

    /** `checkRateLimit(userId)` at time `now`: admit when fewer than 10 of the user's times are
        under a minute old, and then keep only those plus `now`; a denial changes nothing. */
    method CheckRateLimit(userId: string, now: int) returns (allowed: bool)
      modifies this
      ensures allowed <==> |Live(Requests(old(rateLimitMap), userId), now, 60000)| < 10
      ensures rateLimitMap == Counted(old(rateLimitMap), userId, now)
      ensures allowed ==> rateLimitMap[userId] == Live(Requests(old(rateLimitMap), userId), now, 60000) + [now]
    {
      var recentRequests := Live(Requests(rateLimitMap, userId), now, 60000);
      if |recentRequests| >= 10 {
        return false;
      }
      rateLimitMap := rateLimitMap[userId := recentRequests + [now]];
      allowed := true;
    }

    /**
     * `POST(request)`.  The upstream answers are parameters: the `Authorization` header, the
     * identity provider's answer, the clock, the parsed body, the CMS token, and the replies to
     * the verifying `GET` and to the update.  `calls` lists the upstream requests in order.
     */
    method Post(authorization: Option<string>, identity: Identity, now: int, body: Body,
                wpToken: Option<string>, verify: Reply, update: Reply, timestamp: string)
      returns (response: Response, calls: seq<Call>)
      modifies this
      ensures rateLimitMap == if Caller(authorization, identity).Some?
        then Counted(old(rateLimitMap), Caller(authorization, identity).value, now) else old(rateLimitMap)
      ensures (response, calls) == Respond(old(rateLimitMap), authorization, identity, now, body, wpToken, verify, update, timestamp)
    {
      // 1. Authentication
      var token := BearerToken(authorization);
      if token.None? {
        return Refusal(401, MissingTokenMessage, MissingTokenCode, timestamp), [];
      }
      calls := [LookupUser(token.value)];
      if identity.error.Some? || identity.user.None? {
        assert Caller(authorization, identity).None?;
        return Refusal(401, InvalidUserMessage, InvalidUserCode, timestamp), calls;
      }
      var user := identity.user.value;
      assert Caller(authorization, identity) == Some(user);

      // 2-12. The limit, the body and the CMS
      var rest;
      response, rest := Throttle(user, now, body, wpToken, verify, update, timestamp);
      calls := calls + rest;
    }

    /** Steps 2 to 12 of `POST` for an authenticated caller `user`. */
    method Throttle(user: string, now: int, body: Body, wpToken: Option<string>, verify: Reply, update: Reply,
                    timestamp: string) returns (response: Response, calls: seq<Call>)
      modifies this
      ensures rateLimitMap == Counted(old(rateLimitMap), user, now)
      ensures (response, calls) == Throttled(old(rateLimitMap), user, now, body, wpToken, verify, update, timestamp)
    {
      // 2. Rate limiting
      var allowed := CheckRateLimit(user, now);
      if !allowed {
        return Refusal(429, RateLimitedMessage, RateLimitedCode, timestamp), [];
      }

      // 3-12. The body and the CMS
      response, calls := Proceed(body, user, wpToken, verify, update, timestamp);
    }
  }

  /** Steps 3 to 12 of `POST` for an admitted caller `user`. */
  method Proceed(body: Body, user: string, wpToken: Option<string>, verify: Reply, update: Reply, timestamp: string)
    returns (response: Response, calls: seq<Call>)
    ensures (response, calls) == Proceeded(body, user, Record(body), Validation(body), wpToken, verify, update, timestamp)
  {
    // 3-8. The body
    var refusal, path, payload := Prepare(body, user, timestamp);
    if refusal.Some? {
      return refusal.value, [];
    }

    // 9-12. The CMS
    var upstream := Committed(path, payload, user, wpToken, verify, update, timestamp);
    response, calls := upstream.0, upstream.1;
  }

  /** Steps 3 to 12 for an admitted caller `user`: the answer and the requests sent after the
      identity lookup, given the sanitised record `data` and the validator's `verdict`. */
  function Proceeded(body: Body, user: string, data: seq<Prop>, verdict: Verdict, wpToken: Option<string>,
                     verify: Reply, update: Reply, timestamp: string): (Response, seq<Call>)
  {
    var checked := Checked(body, user, verdict, timestamp);
    if checked.Some? then (checked.value, [])
    else Committed(PostPath(Slug(body.json), Id(body.json)), Edit(data, user), user, wpToken, verify, update, timestamp)
  }

  /** Steps 2 to 12 for an authenticated caller `user`, given the limiter's map before the
      request: a caller over the limit is refused before the body is read. */
  function Throttled(m: map<string, seq<int>>, user: string, now: int, body: Body, wpToken: Option<string>,
                     verify: Reply, update: Reply, timestamp: string): (Response, seq<Call>)
  {
    if !Admit(Requests(m, user), UpdateLimit, now).allowed then (Refusal(429, RateLimitedMessage, RateLimitedCode, timestamp), [])
    else Proceeded(body, user, Record(body), Validation(body), wpToken, verify, update, timestamp)
  }

  /** What the handler answers and which upstream requests it sends, given the limiter's map
      before the request. */
  function Respond(m: map<string, seq<int>>, authorization: Option<string>, identity: Identity, now: int, body: Body,
                   wpToken: Option<string>, verify: Reply, update: Reply, timestamp: string): (Response, seq<Call>)
  {
    var token := BearerToken(authorization);
    if token.None? then (Refusal(401, MissingTokenMessage, MissingTokenCode, timestamp), [])
    else
      var calls := [LookupUser(token.value)];
      if Caller(authorization, identity).None? then (Refusal(401, InvalidUserMessage, InvalidUserCode, timestamp), calls)
      else
        var (response, rest) := Throttled(m, Caller(authorization, identity).value, now, body, wpToken, verify, update, timestamp);
        (response, calls + rest)
  }

  /** After the proxy's own checks: a refusal sends nothing more; otherwise the CMS outcomes follow,
      and the one write is the update built from the sanitised record, sent only once the CMS
      confirmed the caller owns the stored post. */
  lemma ProceededOutcomes(body: Body, user: string, data: seq<Prop>, verdict: Verdict, wpToken: Option<string>,
                          verify: Reply, update: Reply, timestamp: string)
    ensures var (response, calls) := Proceeded(body, user, data, verdict, wpToken, verify, update, timestamp);
      && (Checked(body, user, verdict, timestamp).Some? ==> response == Checked(body, user, verdict, timestamp).value && calls == [])
      && (!NoWrites(calls) <==> Acceptable(body, user, verdict) && WpOptimizer.Truthy(wpToken) && Owned(verify, user))
      && (!NoWrites(calls) ==> calls[|calls| - 1] == Cms(POST, PostPath(Slug(body.json), Id(body.json)), Some(Edit(data, user))))
      && (response.status == 200 ==> !NoWrites(calls) && update.Reply? && Ok(update.status))
      && response.status in {200, 400, 403, 404, 500}
  {
    if Checked(body, user, verdict, timestamp).None? {
      var upstream := Committed(PostPath(Slug(body.json), Id(body.json)), Edit(data, user), user, wpToken, verify, update, timestamp);
      assert Proceeded(body, user, data, verdict, wpToken, verify, update, timestamp) == upstream;
    }
  }

  /** The limit comes first: a caller over it is answered 429 having sent nothing more; a caller
      within it gets the outcomes of the checks and of the CMS on the sanitised record. */
  lemma ThrottledOutcomes(m: map<string, seq<int>>, user: string, now: int, body: Body, wpToken: Option<string>,
                          verify: Reply, update: Reply, timestamp: string)
    ensures var (response, calls) := Throttled(m, user, now, body, wpToken, verify, update, timestamp);
      var allowed := Admit(Requests(m, user), UpdateLimit, now).allowed;
      && (!allowed ==> response == Refusal(429, RateLimitedMessage, RateLimitedCode, timestamp) && calls == [])
      && (allowed && Checked(body, user, Validation(body), timestamp).Some? ==>
            response == Checked(body, user, Validation(body), timestamp).value && calls == [])
      && (!NoWrites(calls) <==>
            allowed && Acceptable(body, user, Validation(body)) && WpOptimizer.Truthy(wpToken) && Owned(verify, user))
      && (!NoWrites(calls) ==> calls[|calls| - 1] == Cms(POST, PostPath(Slug(body.json), Id(body.json)), Some(Edit(Record(body), user))))
      && (response.status == 200 ==> !NoWrites(calls) && update.Reply? && Ok(update.status))
      && response.status in {200, 400, 403, 404, 429, 500}
  {
    if Admit(Requests(m, user), UpdateLimit, now).allowed {
      ProceededOutcomes(body, user, Record(body), Validation(body), wpToken, verify, update, timestamp);
    }
  }

  /** The guard chain: each failure answers with its own status and code, in the handler's
      order, having asked nothing of the CMS. */
  lemma RespondGuards(m: map<string, seq<int>>, authorization: Option<string>, identity: Identity, now: int, body: Body,
                      wpToken: Option<string>, verify: Reply, update: Reply, timestamp: string)
    ensures var (response, calls) := Respond(m, authorization, identity, now, body, wpToken, verify, update, timestamp);
      && (BearerToken(authorization).None? ==>
            response == Refusal(401, MissingTokenMessage, MissingTokenCode, timestamp) && calls == [])
      && (BearerToken(authorization).Some? ==> |calls| >= 1 && calls[0] == LookupUser(BearerToken(authorization).value))
      && (BearerToken(authorization).Some? && Caller(authorization, identity).None? ==>
            response == Refusal(401, InvalidUserMessage, InvalidUserCode, timestamp) && |calls| == 1)
      && (Caller(authorization, identity).Some? && !Admitted(m, authorization, identity, now) ==>
            response == Refusal(429, RateLimitedMessage, RateLimitedCode, timestamp) && |calls| == 1)
      && (Admitted(m, authorization, identity, now)
          && Checked(body, Caller(authorization, identity).value, Validation(body), timestamp).Some? ==>
            response == Checked(body, Caller(authorization, identity).value, Validation(body), timestamp).value && |calls| == 1)
      && response.status in {200, 400, 401, 403, 404, 429, 500}
  {
    if Caller(authorization, identity).Some? {
      ThrottledOutcomes(m, Caller(authorization, identity).value, now, body, wpToken, verify, update, timestamp);
    }
  }

  /** What must hold before the handler sends an update: the caller is authenticated and within
      the limit, the body passes every local check, and the CMS confirms the caller owns the post. */
  predicate WriteCleared(m: map<string, seq<int>>, authorization: Option<string>, identity: Identity, now: int,
                         body: Body, verify: Reply) {
    Admitted(m, authorization, identity, now)
    && Acceptable(body, Caller(authorization, identity).value, Validation(body)) && Owned(verify, Caller(authorization, identity).value)
  }

  /** No update is sent unless every check passed and the CMS confirmed the caller owns the
      stored post; the update is the one built from the sanitised record. */
  lemma RespondWrites(m: map<string, seq<int>>, authorization: Option<string>, identity: Identity, now: int, body: Body,
                      wpToken: Option<string>, verify: Reply, update: Reply, timestamp: string)
    ensures var (response, calls) := Respond(m, authorization, identity, now, body, wpToken, verify, update, timestamp);
      && (!NoWrites(calls) ==> WriteCleared(m, authorization, identity, now, body, verify))
      && (!NoWrites(calls) ==> calls[|calls| - 1] == Cms(POST, PostPath(Slug(body.json), Id(body.json)),
                                                         Some(Edit(Record(body), Caller(authorization, identity).value))))
  {
    if Caller(authorization, identity).Some? {
      var user := Caller(authorization, identity).value;
      var rest := Throttled(m, user, now, body, wpToken, verify, update, timestamp).1;
      ThrottledOutcomes(m, user, now, body, wpToken, verify, update, timestamp);
      NoWritesConcat([LookupUser(BearerToken(authorization).value)], rest);
    }
  }

  /** Success means the update was sent and accepted. */
  lemma RespondSuccess(m: map<string, seq<int>>, authorization: Option<string>, identity: Identity, now: int, body: Body,
                       wpToken: Option<string>, verify: Reply, update: Reply, timestamp: string)
    ensures var (response, calls) := Respond(m, authorization, identity, now, body, wpToken, verify, update, timestamp);
      response.status == 200 ==> !NoWrites(calls) && update.Reply? && Ok(update.status)
  {
    if Caller(authorization, identity).Some? {
      var user := Caller(authorization, identity).value;
      var rest := Throttled(m, user, now, body, wpToken, verify, update, timestamp).1;
      ThrottledOutcomes(m, user, now, body, wpToken, verify, update, timestamp);
      NoWritesConcat([LookupUser(BearerToken(authorization).value)], rest);
    }
  }

  /** The refusal the body earns, if any, from steps 3 to 7, in the handler's order, where
      `verdict` is how the validator ended on the sanitised record. */
  function Checked(body: Body, user: string, verdict: Verdict, timestamp: string): (r: Option<Response>)
    ensures r.None? <==> Acceptable(body, user, verdict)
  {
    if body.Malformed? then Some(Refusal(400, InvalidJsonMessage, InvalidJsonCode, timestamp))
    else if body.json.Null? then Some(Crash(NullDestructure("title"), timestamp))
    else if !Complete(body.json) then Some(Refusal(400, IncompleteMessage, IncompleteCode, timestamp))
    else if Member(Some(body.json), "userId") != Some(Str(user)) then Some(Refusal(403, NotOwnerMessage, NotOwnerCode, timestamp))
    else if verdict.Threw? then Some(Crash(verdict.message, timestamp))
    else if !verdict.isValid then Some(Rejected(verdict.errors, timestamp))
    else None
  }

  /** The body passes every local check: it is JSON, has a post id, a content type and a title,
      names the caller as its owner, and the validator returned and found it valid. */
  predicate Acceptable(body: Body, user: string, verdict: Verdict) {
    body.Parsed? && Complete(body.json) && Member(Some(body.json), "userId") == Some(Str(user))
    && verdict.Verdict? && verdict.isValid
  }

  /** Steps 3 to 8: parse, check, sanitise and validate the body, then build the custom fields. */
  method Prepare(body: Body, user: string, timestamp: string) returns (refusal: Option<Response>, path: string, payload: Value)
    ensures refusal == Checked(body, user, Validation(body), timestamp)
    ensures refusal.None? ==> path == PostPath(Slug(body.json), Id(body.json)) && payload == Edit(Record(body), user)
  {
    path, payload := "", Null;
    if body.Malformed? {
      return Some(Refusal(400, InvalidJsonMessage, InvalidJsonCode, timestamp)), path, payload;
    }
    var json := body.json;
    if json.Null? {
      return Some(Crash(NullDestructure("title"), timestamp)), path, payload;
    }
    if !Complete(json) {
      return Some(Refusal(400, IncompleteMessage, IncompleteCode, timestamp)), path, payload;
    }
    if Member(Some(json), "userId") != Some(Str(user)) {
      return Some(Refusal(403, NotOwnerMessage, NotOwnerCode, timestamp)), path, payload;
    }
    var sanitizedData := SanitizeRecord(Submitted(json));
    var validation := ValidateFormData(Slug(json), sanitizedData);
    if validation.Threw? {
      return Some(Crash(validation.message, timestamp)), path, payload;
    }
    if !validation.isValid {
      return Some(Rejected(validation.errors, timestamp)), path, payload;
    }
    var acfFields := BuildAcfFields(sanitizedData, user);
    refusal := None;
    path := PostPath(Slug(json), Id(json));
    payload := UpdateBody(sanitizedData, acfFields);
  }

  /** The stored post, as the verifying `GET` returned it, belongs to `user`. */
  predicate Owned(verify: Reply, user: string) {
    verify.Reply? && Ok(verify.status) && verify.payload.Json? && StoredOwner(verify.payload.value) == Some(Str(user))
  }

  /**
   * Steps 9 to 12 of the handler, once every local check has passed: fetch a CMS token, read
   * the stored post at `path` and compare its owner with `user`, and only then send `payload`.
   */
  function Committed(path: string, payload: Value, user: string, wpToken: Option<string>, verify: Reply, update: Reply,
                     timestamp: string): (result: (Response, seq<Call>))
    ensures var (response, calls) := result;
      && 1 <= |calls| <= 3 && calls[0] == IssueToken
      && (!WpOptimizer.Truthy(wpToken) ==> response == Crash(ServerAuthMessage, timestamp) && |calls| == 1)
      && (WpOptimizer.Truthy(wpToken) ==> |calls| >= 2 && calls[1] == Cms(GET, path + EditQuery, None))
      && (WpOptimizer.Truthy(wpToken) && verify.Reply? && !Ok(verify.status) ==>
            response == Refusal(404, PostNotFoundMessage, PostNotFoundCode, timestamp) && |calls| == 2)
      && ((WpOptimizer.Truthy(wpToken) && verify.Reply? && Ok(verify.status) && verify.payload.Json?
           && !verify.payload.value.Null? && !Owned(verify, user)) ==>
            response == Refusal(403, NotOwnerMessage, NotOwnerCode, timestamp) && |calls| == 2)
      && (|calls| == 3 <==> WpOptimizer.Truthy(wpToken) && Owned(verify, user))
      && (|calls| == 3 ==> calls[2] == Cms(POST, path, Some(payload)))
      && (NoWrites(calls) <==> |calls| < 3)
      && (response.status == 200 ==> |calls| == 3 && update.Reply? && Ok(update.status))
      && response.status in {200, 403, 404, 500}
  {
    // 9. CMS token
    if !WpOptimizer.Truthy(wpToken) then (Crash(ServerAuthMessage, timestamp), [IssueToken])
    else
      // 10. The stored post and its owner
      var read := [IssueToken, Cms(GET, path + EditQuery, None)];
      assert NoWrites(read);
      if verify.Unreachable? then (Crash(verify.message, timestamp), read)
      else if !Ok(verify.status) then (Refusal(404, PostNotFoundMessage, PostNotFoundCode, timestamp), read)
      else if verify.payload.NotJson? then (Crash(verify.payload.parseError, timestamp), read)
      else if verify.payload.value.Null? then (Crash(NullRead("acf"), timestamp), read)
      else if StoredOwner(verify.payload.value) != Some(Str(user)) then
        (Refusal(403, NotOwnerMessage, NotOwnerCode, timestamp), read)
      else
        // 11. The update
        var calls := read + [Cms(POST, path, Some(payload))];
        assert IsWrite(calls[2]);
        if update.Unreachable? then (Crash(update.message, timestamp), calls)
        else if update.payload.NotJson? then (Crash(update.payload.parseError, timestamp), calls)
        else
          var responseData := update.payload.value;
          if !Ok(update.status) then
            if responseData.Null? then (Crash(NullRead("message"), timestamp), calls)
            else (Crash(Stringify(Or(Member(Some(responseData), "message"), Str(UpdateFailedMessage))), timestamp), calls)
          else if responseData.Null? then (Crash(NullRead("id"), timestamp), calls)
          // 12. Success
          else (Updated(responseData, timestamp), calls)
  }
}
