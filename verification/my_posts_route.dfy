/**
 * The contributor's own posts (`GET /api/kontributor/my-posts`): authenticate the caller, exchange
 * the server's CMS credentials for a token, list each of the five content types, concatenate the
 * lists in content-type order and keep the posts whose custom fields name the caller as the owner.
 * Every thrown error ends in a 500 `{ message }`.
 */
module MyPostsRoute {
  import opened Wrappers
  import opened Json
  import opened Http
  import opened Records

  const MissingTokenMessage: string := "Token tidak ditemukan"
  const InvalidTokenMessage: string := "Token tidak valid"
  const ConfigMessage: string := "Konfigurasi server tidak lengkap"
  const TokenFailedMessage: string := "Gagal mendapatkan token otentikasi WordPress."

  /** The content types whose lists are read, in the order their posts are listed. */
  const CptSlugs: seq<string> := ["cagar_budaya", "kesenian", "tokoh", "komunitas", "tradisi_lokal"]

  const ListQuery: string := "?per_page=100&status=publish,pending,draft&context=edit"

  /** The list request for one content type. */
  function ListPath(slug: string): string {
    WpRoot + slug + ListQuery
  }

  /** The five list requests, all sent together once the CMS token is in hand. */
  function ListCalls(): (r: seq<Call>)
    ensures |r| == |CptSlugs| && forall i | 0 <= i < |r| :: r[i] == Cms(GET, ListPath(CptSlugs[i]), None)
  {
    seq(|CptSlugs|, i requires 0 <= i < |CptSlugs| => Cms(GET, ListPath(CptSlugs[i]), None))
  }

  /** `WORDPRESS_API_USER`, `WORDPRESS_API_PASS` and `WORDPRESS_API_URL` from the environment. */
  datatype Credentials = Credentials(user: Option<string>, pass: Option<string>, url: Option<string>)

  /** None of the three is unset or empty. */
  predicate Configured(c: Credentials) {
    && c.user.Some? && c.user.value != []
    && c.pass.Some? && c.pass.value != []
    && c.url.Some? && c.url.value != []
  }

  /** The `catch` clause: `{ message: error.message }` with status 500. */
  function Crash(message: string): Response {
    Message(message, 500)
  }

  /** `fetch(...).then((res) => res.json())` fulfils: the service answered with JSON, whatever its status. */
  predicate Settles(r: Reply) {
    r.Reply? && r.payload.Json?
  }

  /** The message of a list request that rejects. */
  function RejectionMessage(r: Reply): string
    requires !Settles(r)
  {
    if r.Unreachable? then r.message else r.payload.parseError
  }

  /** The first list request at or after `from`, in content-type order, that rejects. */
  function FirstRejected(replies: seq<Reply>, from: nat): (r: Option<nat>)
    requires from <= |replies|
    ensures r.Some? ==> from <= r.value < |replies| && !Settles(replies[r.value])
                        && forall j | from <= j < r.value :: Settles(replies[j])
    ensures r.None? ==> forall j | from <= j < |replies| :: Settles(replies[j])
    decreases |replies| - from
  {
    if from == |replies| then None
    else if !Settles(replies[from]) then Some(from)
    else FirstRejected(replies, from + 1)
  }

  /** The JSON bodies of the list requests, once every one of them settled. */
  function Values(replies: seq<Reply>): (vs: seq<Value>)
    requires forall j | 0 <= j < |replies| :: Settles(replies[j])
    ensures |vs| == |replies| && forall j | 0 <= j < |replies| :: Settles(replies[j]) && vs[j] == replies[j].payload.value
  {
    seq(|replies|, j requires 0 <= j < |replies| && Settles(replies[j]) => replies[j].payload.value)
  }

  /** What `flat()` contributes for one result: the elements of an array, any other value itself. */
  function Spread(v: Value): seq<Value> {
    if v.Arr? then v.items else [v]
  }

  /** `results.flat()`: the results spread one level, in order. */
  function Flat(results: seq<Value>): seq<Value> {
    if results == [] then [] else Spread(results[0]) + Flat(results[1..])
  }

  /** `post.acf?.supabase_user_id === user.id`. */
  predicate OwnedBy(post: Value, user: string) {
    StoredOwner(post) == Some(Str(user))
  }

  /** `allPosts.filter(...)`: the posts naming `user` as their owner, in order. */
  function Owned(posts: seq<Value>, user: string): seq<Value> {
    if posts == [] then []
    else (if OwnedBy(posts[0], user) then [posts[0]] else []) + Owned(posts[1..], user)
  }

  /** Once the server is configured: the token exchange, then the five lists (`replies`, one per
      content type in `CptSlugs` order); the first rejection in that order is the one reported. */
  function Listed(user: string, tokenReply: Reply, replies: seq<Reply>): (Response, seq<Call>)
    requires |replies| == |CptSlugs|
  {
    match tokenReply
    case Unreachable(message) => (Crash(message), [IssueToken])
    case Reply(status, payload) =>
      if !Ok(status) then (Crash(TokenFailedMessage), [IssueToken])
      else if payload.NotJson? then (Crash(payload.parseError), [IssueToken])
      else if payload.value.Null? then (Crash(NullRead("token")), [IssueToken])
      else
        var calls := [IssueToken] + ListCalls();
        var rejected := FirstRejected(replies, 0);
        if rejected.Some? then (Crash(RejectionMessage(replies[rejected.value])), calls)
        else
          var posts := Flat(Values(replies));
          if Null in posts then (Crash(NullRead("acf")), calls)
          else (JsonResponse(Arr(Owned(posts, user)), 200), calls)
  }

  /** What `GET(request)` answers and which upstream requests it sends: the `Authorization` header,
      the identity provider's answer, the environment's credentials, the token exchange's reply
      and the five list replies are parameters. */
  function Respond(authorization: Option<string>, identity: Identity, credentials: Credentials,
                   tokenReply: Reply, replies: seq<Reply>): (Response, seq<Call>)
    requires |replies| == |CptSlugs|
  {
    var token := BearerToken(authorization);
    if token.None? then (Message(MissingTokenMessage, 401), [])
    else
      var calls := [LookupUser(token.value)];
      var user := Caller(authorization, identity);
      if user.None? then (Message(InvalidTokenMessage, 401), calls)
      else if !Configured(credentials) then (Message(ConfigMessage, 500), calls)
      else
        var (response, rest) := Listed(user.value, tokenReply, replies);
        (response, calls + rest)
  }

  // ---------------------------------------------------------------------------------------
  // The owner filter

  /** A post is listed exactly when it is one of the posts and names `user` as its owner. */
  lemma {:induction false} OwnedMembership(posts: seq<Value>, user: string, p: Value)
    ensures p in Owned(posts, user) <==> p in posts && OwnedBy(p, user)
  {
    if posts != [] {
      OwnedMembership(posts[1..], user, p);
      assert posts == [posts[0]] + posts[1..];
    }
  }

  /** Filtering a concatenation filters each part and keeps their order. */
  lemma {:induction false} OwnedConcat(a: seq<Value>, b: seq<Value>, user: string)
    ensures Owned(a + b, user) == Owned(a, user) + Owned(b, user)
  {
    if a == [] {
      assert a + b == b;
    } else {
      assert (a + b)[0] == a[0];
      assert (a + b)[1..] == a[1..] + b;
      OwnedConcat(a[1..], b, user);
    }
  }

  /** Filtering twice keeps what filtering once kept. */
  lemma {:induction false} OwnedIdempotent(posts: seq<Value>, user: string)
    ensures Owned(Owned(posts, user), user) == Owned(posts, user)
  {
    if posts != [] {
      var head := if OwnedBy(posts[0], user) then [posts[0]] else [];
      OwnedIdempotent(posts[1..], user);
      OwnedConcat(head, Owned(posts[1..], user), user);
      if OwnedBy(posts[0], user) {
        assert Owned(head, user) == [posts[0]] + Owned([], user) by {
          assert head[1..] == [];
        }
      }
    }
  }

  /** Flattening a concatenation flattens each part and keeps their order. */
  lemma {:induction false} FlatConcat(a: seq<Value>, b: seq<Value>)
    ensures Flat(a + b) == Flat(a) + Flat(b)
  {
    if a == [] {
      assert a + b == b;
    } else {
      assert (a + b)[0] == a[0];
      assert (a + b)[1..] == a[1..] + b;
      FlatConcat(a[1..], b);
    }
  }

  /** A post is in the flattened list exactly when one of the results spreads it. */
  lemma {:induction false} FlatMembership(results: seq<Value>, p: Value)
    ensures p in Flat(results) <==> exists i :: 0 <= i < |results| && p in Spread(results[i])
  {
    if results != [] {
      FlatMembership(results[1..], p);
      if p in Flat(results[1..]) {
        var i :| 0 <= i < |results[1..]| && p in Spread(results[1..][i]);
        assert results[1..][i] == results[i + 1];
      }
      if exists i :: 0 <= i < |results| && p in Spread(results[i]) {
        var i :| 0 <= i < |results| && p in Spread(results[i]);
        if i > 0 {
          assert results[1..][i - 1] == results[i];
        }
      }
    }
  }

  /** The owner filter over the five results is the content types' own posts, one type after another. */
  lemma OwnedFlatFive(vs: seq<Value>, user: string)
    requires |vs| == 5
    ensures Owned(Flat(vs), user)
            == Owned(Spread(vs[0]), user) + Owned(Spread(vs[1]), user) + Owned(Spread(vs[2]), user)
               + Owned(Spread(vs[3]), user) + Owned(Spread(vs[4]), user)
  {
    var parts := [[vs[0]], [vs[1]], [vs[2]], [vs[3]], [vs[4]]];
    assert vs == [vs[0]] + [vs[1]] + [vs[2]] + [vs[3]] + [vs[4]];
    forall k | 0 <= k < 5
      ensures Flat([vs[k]]) == Spread(vs[k])
    {
      assert [vs[k]][1..] == [];
    }
    FlatConcat([vs[0]] + [vs[1]] + [vs[2]] + [vs[3]], [vs[4]]);
    FlatConcat([vs[0]] + [vs[1]] + [vs[2]], [vs[3]]);
    FlatConcat([vs[0]] + [vs[1]], [vs[2]]);
    FlatConcat([vs[0]], [vs[1]]);
    var s0, s1, s2, s3, s4 := Spread(vs[0]), Spread(vs[1]), Spread(vs[2]), Spread(vs[3]), Spread(vs[4]);
    assert Flat(vs) == s0 + s1 + s2 + s3 + s4;
    OwnedConcat(s0 + s1 + s2 + s3, s4, user);
    OwnedConcat(s0 + s1 + s2, s3, user);
    OwnedConcat(s0 + s1, s2, user);
    OwnedConcat(s0, s1, user);
  }

  // ---------------------------------------------------------------------------------------
  // The route

  /** Past the configuration check: only reads are sent, the token request first, and the five
      lists only once the token exchange succeeded; a failed exchange is a 500. */
  lemma ListedCalls(user: string, tokenReply: Reply, replies: seq<Reply>)
    requires |replies| == |CptSlugs|
    ensures var (response, calls) := Listed(user, tokenReply, replies);
      && NoWrites(calls) && |calls| >= 1 && calls[0] == IssueToken
      && (|calls| == 1 <==> !(tokenReply.Reply? && Ok(tokenReply.status) && tokenReply.payload.Json? && !tokenReply.payload.value.Null?))
      && (|calls| > 1 ==> calls == [IssueToken] + ListCalls())
      && (tokenReply.Reply? && !Ok(tokenReply.status) ==> response == Crash(TokenFailedMessage))
      && response.status in {200, 500}
  {
    var (response, calls) := Listed(user, tokenReply, replies);
    if |calls| > 1 {
      assert forall i | 1 <= i < |calls| :: calls[i] == ListCalls()[i - 1];
    }
  }

  /** The guard chain: no token is a 401 with nothing sent, a caller the identity provider does
      not resolve (or answers with an error) a 401 after the lookup only, missing credentials a 500
      before any request to the CMS, and a failed token exchange a 500 before any list request. */
  lemma RespondGuards(authorization: Option<string>, identity: Identity, credentials: Credentials,
                      tokenReply: Reply, replies: seq<Reply>)
    requires |replies| == |CptSlugs|
    ensures var (response, calls) := Respond(authorization, identity, credentials, tokenReply, replies);
      && (BearerToken(authorization).None? ==> response == Message(MissingTokenMessage, 401) && calls == [])
      && (BearerToken(authorization).Some? ==> |calls| >= 1 && calls[0] == LookupUser(BearerToken(authorization).value))
      && (response.status == 401 <==> Caller(authorization, identity).None?)
      && (BearerToken(authorization).Some? && Caller(authorization, identity).None? ==>
            response == Message(InvalidTokenMessage, 401) && |calls| == 1)
      && (Caller(authorization, identity).Some? && !Configured(credentials) ==>
            response == Message(ConfigMessage, 500) && |calls| == 1)
      && (Caller(authorization, identity).Some? && Configured(credentials) ==> |calls| >= 2 && calls[1] == IssueToken)
      && (Caller(authorization, identity).Some? && Configured(credentials) && tokenReply.Reply? && !Ok(tokenReply.status) ==>
            response == Crash(TokenFailedMessage) && |calls| == 2)
      && response.status in {200, 401, 500}
      && NoWrites(calls)
  {
    var token := BearerToken(authorization);
    var user := Caller(authorization, identity);
    if user.Some? && Configured(credentials) {
      var (response, rest) := Listed(user.value, tokenReply, replies);
      ListedCalls(user.value, tokenReply, replies);
      NoWritesConcat([LookupUser(token.value)], rest);
    }
  }

  /** A 200 is answered exactly when every request succeeded and no listed post is `null`; its
      body is the owner filter over the five lists, one content type after another in order, and
      holds exactly the listed posts that name the caller as their owner. */
  lemma RespondListing(authorization: Option<string>, identity: Identity, credentials: Credentials,
                       tokenReply: Reply, replies: seq<Reply>, p: Value)
    requires |replies| == |CptSlugs|
    ensures var (response, calls) := Respond(authorization, identity, credentials, tokenReply, replies);
      && (response.status == 200 <==>
            && Caller(authorization, identity).Some? && Configured(credentials)
            && tokenReply.Reply? && Ok(tokenReply.status) && tokenReply.payload.Json? && !tokenReply.payload.value.Null?
            && (forall j | 0 <= j < |replies| :: Settles(replies[j]))
            && Null !in Flat(Values(replies)))
      && (response.status == 200 ==>
            var user := Caller(authorization, identity).value;
            var vs := Values(replies);
            && calls == [LookupUser(BearerToken(authorization).value), IssueToken] + ListCalls()
            && Rendered(response)
               == Arr(Owned(Spread(vs[0]), user) + Owned(Spread(vs[1]), user) + Owned(Spread(vs[2]), user)
                      + Owned(Spread(vs[3]), user) + Owned(Spread(vs[4]), user))
            && (p in Rendered(response).items <==>
                  (exists i :: 0 <= i < |vs| && p in Spread(vs[i])) && OwnedBy(p, user)))
  {
    var user := Caller(authorization, identity);
    if user.Some? && Configured(credentials) && tokenReply.Reply? && Ok(tokenReply.status)
       && tokenReply.payload.Json? && !tokenReply.payload.value.Null? && FirstRejected(replies, 0).None? {
      var vs := Values(replies);
      OwnedFlatFive(vs, user.value);
      OwnedMembership(Flat(vs), user.value, p);
      FlatMembership(vs, p);
    }
  }

  /** When a list request rejects, the first rejection in content-type order is the message. */
  lemma RespondRejection(authorization: Option<string>, identity: Identity, credentials: Credentials,
                         tokenReply: Reply, replies: seq<Reply>, k: nat)
    requires |replies| == |CptSlugs|
    requires Caller(authorization, identity).Some? && Configured(credentials)
    requires tokenReply.Reply? && Ok(tokenReply.status) && tokenReply.payload.Json? && !tokenReply.payload.value.Null?
    requires k < |replies| && !Settles(replies[k]) && forall j | 0 <= j < k :: Settles(replies[j])
    ensures var (response, calls) := Respond(authorization, identity, credentials, tokenReply, replies);
      response == Crash(RejectionMessage(replies[k])) && |calls| == 2 + |CptSlugs|
  {
    var r := FirstRejected(replies, 0);
    assert r == Some(k);
  }
}
