/**
 * What a route handler receives from, and sends to, the world around it.  Every upstream
 * answer (the identity provider's `auth.getUser`, the CMS token issuer, each CMS `fetch`)
 * is a parameter of the handler, and the handler reports the requests it issued as a trace
 * of `Call`s, so that "no write before the ownership check" is a statement about that trace.
 */
module Http {
  import opened Wrappers
  import opened Text
  import opened Json

  /** The outcome of `await request.json()`: a JSON value, or the rejection of a body that is not JSON. */
  datatype Body = Malformed | Parsed(json: Value)

  /** The members of the error object `auth.getUser` can return that the gateway reads; `None` is
      a member that is absent. */
  datatype AuthError = AuthError(message: Option<Value>, code: Option<Value>, details: Option<Value>)

  /** The identity provider's answer to `auth.getUser(token)`: the user's id, and the error. */
  datatype Identity = Identity(user: Option<string>, error: Option<AuthError>)

  /** The body of an upstream response as `response.json()` sees it. */
  datatype Payload = Json(value: Value) | NotJson(parseError: string)

  /** A settled `fetch`: a response, or the rejection raised when the service cannot be reached. */
  datatype Reply = Reply(status: int, payload: Payload) | Unreachable(message: string)

  /** `response.ok`. */
  predicate Ok(status: int) {
    200 <= status <= 299
  }

  datatype Verb = GET | POST | DELETE

  /** One request the gateway sends upstream. */
  datatype Call =
    | LookupUser(token: string)
    | IssueToken
    | Cms(verb: Verb, path: string, payload: Option<Value>)

  /** A request that changes content in the CMS. */
  predicate IsWrite(c: Call) {
    c.Cms? && c.verb != GET
  }

  predicate NoWrites(calls: seq<Call>) {
    forall i | 0 <= i < |calls| :: !IsWrite(calls[i])
  }

  lemma NoWritesConcat(a: seq<Call>, b: seq<Call>)
    ensures NoWrites(a + b) <==> NoWrites(a) && NoWrites(b)
  {
    var c := a + b;
    if NoWrites(a) && NoWrites(b) {
      forall i | 0 <= i < |c|
        ensures !IsWrite(c[i])
      {
        if i < |a| {
          assert c[i] == a[i];
        } else {
          assert c[i] == b[i - |a|];
        }
      }
    }
    if NoWrites(c) {
      assert forall i | 0 <= i < |a| :: c[i] == a[i];
      assert forall i | 0 <= i < |b| :: c[|a| + i] == b[i];
    }
  }

  /** What a response body is made from: an object literal written in the handler, member by
      member, or a value passed through as it is. */
  datatype Content = Members(members: seq<(string, Option<Value>)>) | Raw(value: Value)

  /** `NextResponse.json(body, { status })`, with the headers it carries besides the content type. */
  datatype Response = Response(status: int, content: Content, headers: seq<(string, string)>)

  /** The JSON body a response carries. */
  function Rendered(r: Response): Value {
    match r.content
    case Members(members) => Obj(Literal(members))
    case Raw(value) => value
  }

  /** `NextResponse.json({ k1: v1, ..., kn: vn }, { status })`. */
  function LiteralResponse(members: seq<(string, Option<Value>)>, status: int): (r: Response)
    ensures r.status == status && Rendered(r) == Obj(Literal(members)) && r.headers == []
  {
    Response(status, Members(members), [])
  }

  /** `NextResponse.json(value, { status })` for a value the handler did not build itself. */
  function JsonResponse(value: Value, status: int): (r: Response)
    ensures r.status == status && Rendered(r) == value && r.headers == []
  {
    Response(status, Raw(value), [])
  }

  /** `NextResponse.json({ message }, { status })`: the reply of the routes that answer with a bare message. */
  function Message(message: string, status: int): Response {
    LiteralResponse([("message", Some(Str(message)))], status)
  }

  /** A top-level field of a response body (`None` when the body has no such field). */
  function Field(r: Response, k: string): Option<Value> {
    Member(Some(Rendered(r)), k)
  }

  const BearerPrefix: string := "Bearer "

  /**
   * `request.headers.get("Authorization")?.replace("Bearer ", "")` followed by `if (!token)`:
   * the first occurrence of the prefix is removed wherever it stands, and an absent header or
   * an empty remainder means there is no token.
   */
  function BearerToken(header: Option<string>): (t: Option<string>)
    ensures t.Some? <==> header.Some? && ReplaceFirst(header.value, BearerPrefix, "") != []
    ensures t.Some? ==> t.value != [] && t.value == ReplaceFirst(header.value, BearerPrefix, "")
  {
    if header.None? then None
    else
      var token := ReplaceFirst(header.value, BearerPrefix, "");
      if token == [] then None else Some(token)
  }

  /** The authenticated caller: a token was sent and the identity provider resolved it to a user
      without an error. */
  function Caller(authorization: Option<string>, identity: Identity): (u: Option<string>)
    ensures u.Some? <==> BearerToken(authorization).Some? && identity.error.None? && identity.user.Some?
    ensures u.Some? ==> u == identity.user
  {
    if BearerToken(authorization).Some? && identity.error.None? && identity.user.Some? then identity.user else None
  }

  /** A well-formed header yields exactly the token after the prefix. */
  lemma BearerTokenOfHeader(token: string)
    requires token != []
    ensures BearerToken(Some(BearerPrefix + token)) == Some(token)
  {
    var h := BearerPrefix + token;
    assert StartsWith(h, BearerPrefix) by {
      assert h[..|BearerPrefix|] == BearerPrefix;
    }
    assert "" + h[|BearerPrefix|..] == token;
  }

  /** A header that is only the prefix, or empty, carries no token. */
  lemma NoBearerToken()
    ensures BearerToken(Some(BearerPrefix)) == None
    ensures BearerToken(Some("")) == None
  {
    assert StartsWith(BearerPrefix, BearerPrefix) by {
      assert BearerPrefix[..|BearerPrefix|] == BearerPrefix;
    }
    assert "" + BearerPrefix[|BearerPrefix|..] == "";
  }

  /** The CMS REST root every content path starts from. */
  const WpRoot: string := "/wp/v2/"
  const EditQuery: string := "?context=edit"

  /** `/wp/v2/${cptSlug}/${postId}`. */
  function PostPath(slug: string, id: string): string {
    WpRoot + slug + "/" + id
  }

  /** The message of the `TypeError` raised by reading property `k` of `null`. */
  function NullRead(k: string): (m: string)
    ensures |m| > |k| + 2 && m[|m| - |k| - 2..|m| - 2] == k
  {
    "Cannot read properties of null (reading '" + k + "')"
  }

  /** The message of the `TypeError` raised by destructuring property `k` out of a `null` body:
      it names the property first and the destructured variable after it. */
  function NullDestructure(k: string): (m: string)
    ensures |m| > |k| + 29 && m[29..29 + |k|] == k
    ensures m != NullRead(k)
  {
    var m := "Cannot destructure property '" + k + "' of 'body' as it is null.";
    assert m[7] == 'd' && NullRead(k)[7] == 'r';
    m
  }

  /** The message of the `TypeError` raised by reading property `k` of `undefined`. */
  function UndefinedRead(k: string): (m: string)
    ensures |m| > |k| + 2 && m[|m| - |k| - 2..|m| - 2] == k
    ensures m != NullRead(k)
  {
    var m := "Cannot read properties of undefined (reading '" + k + "')";
    assert m[26] == 'u' && NullRead(k)[26] == 'n';
    m
  }

  /** The message of the `TypeError` raised by calling `callee` when it holds no function. */
  function NotAFunction(callee: string): (m: string)
    ensures |m| > |callee| && m[..|callee|] == callee
  {
    callee + " is not a function"
  }

  /** The message of the `TypeError` raised by iterating over `what` when it holds no iterable. */
  function NotIterable(what: string): (m: string)
    ensures |m| > |what| && m[..|what|] == what
    ensures m != NotAFunction(what)
  {
    var m := what + " is not iterable";
    assert m[|what| + 8] == 'i' && NotAFunction(what)[|what| + 8] == 'a';
    m
  }
}
