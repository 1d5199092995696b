/**
 * The get-one route (`GET /api/posts/get-one?slug=…&id=…`): authenticate the caller, require both
 * query parameters, fetch a CMS token and the stored post, and hand the post back unchanged only
 * to its owner.  Every thrown error ends in a 500 `{ message }`.
 */
module GetOneRoute {
  import opened Wrappers
  import opened Json
  import opened Http
  import opened Records
  import WpOptimizer

  const MissingTokenMessage: string := "Otentikasi pengguna gagal."
  const InvalidUserMessage: string := "Pengguna tidak valid."
  const IncompleteMessage: string := "Informasi tidak lengkap."
  const ServerAuthMessage: string := "Otentikasi server gagal."
  const FetchFailedMessage: string := "Gagal mengambil data postingan."
  const NotOwnerMessage: string := "Anda tidak berhak mengakses data ini."

  /** The `catch` clause: `{ message: error.message }` with status 500. */
  function Crash(message: string): Response {
    Message(message, 500)
  }

  /** `searchParams.get(name)` passes `if (!value)`: the parameter is there and not empty. */
  predicate Given(param: Option<string>) {
    param.Some? && param.value != []
  }

  /** The path of the post the query names. */
  function Path(slug: Option<string>, id: Option<string>): string
    requires Given(slug) && Given(id)
  {
    PostPath(slug.value, id.value) + EditQuery
  }

  /** Steps after the parameters check: the token from `getWordPressToken` (`issued`), then the
      CMS's reply to the read of the post at `path`. */
  function Fetched(path: string, user: string, issued: Option<string>, reply: Reply): (Response, seq<Call>)
  {
    if !WpOptimizer.Truthy(issued) then (Crash(ServerAuthMessage), [IssueToken])
    else
      var calls := [IssueToken, Cms(GET, path, None)];
      match reply
      case Unreachable(message) => (Crash(message), calls)
      case Reply(status, payload) =>
        if payload.NotJson? then (Crash(payload.parseError), calls)
        else
          var postData := payload.value;
          if !Ok(status) then
            if postData.Null? then (Crash(NullRead("message")), calls)
            else (Crash(Stringify(Or(Member(Some(postData), "message"), Str(FetchFailedMessage)))), calls)
          else if postData.Null? then (Crash(NullRead("acf")), calls)
          else if StoredOwner(postData) != Some(Str(user)) then (Message(NotOwnerMessage, 403), calls)
          else (JsonResponse(postData, 200), calls)
  }

  /** Past the parameters: only reads are sent, the post is read only with a CMS token, a 200
      hands back the stored post exactly as the CMS sent it when it names `user` as the owner, and
      a 403 means it names someone else. */
  lemma FetchedOutcomes(path: string, user: string, issued: Option<string>, reply: Reply)
    ensures var (response, calls) := Fetched(path, user, issued, reply);
      && NoWrites(calls) && calls[0] == IssueToken
      && (|calls| == 2 <==> WpOptimizer.Truthy(issued)) && (|calls| == 2 ==> calls[1] == Cms(GET, path, None))
      && (response.status == 200 <==>
            |calls| == 2 && reply.Reply? && Ok(reply.status) && reply.payload.Json? && !reply.payload.value.Null?
            && StoredOwner(reply.payload.value) == Some(Str(user)))
      && (response.status == 200 ==> Rendered(response) == reply.payload.value)
      && (response.status == 403 ==>
            |calls| == 2 && reply.Reply? && Ok(reply.status) && reply.payload.Json? && StoredOwner(reply.payload.value) != Some(Str(user)))
      && response.status in {200, 403, 500}
  {
  }

  /** What `GET(request)` answers and which upstream requests it sends: the `Authorization`
      header, the identity provider's user (its error is not looked at), the two query
      parameters, the token issuer's answer and the CMS's reply are parameters. */
  function Respond(authorization: Option<string>, identity: Identity, slug: Option<string>, id: Option<string>,
                   issued: Option<string>, reply: Reply): (Response, seq<Call>)
  {
    var token := BearerToken(authorization);
    if token.None? then (Message(MissingTokenMessage, 401), [])
    else
      var calls := [LookupUser(token.value)];
      if identity.user.None? then (Message(InvalidUserMessage, 401), calls)
      else if !Given(slug) || !Given(id) then (Message(IncompleteMessage, 400), calls)
      else
        var (response, rest) := Fetched(Path(slug, id), identity.user.value, issued, reply);
        (response, calls + rest)
  }

  /** The guard chain, in the handler's order: no token is a 401 with nothing sent; no user a 401
      after the identity lookup only; a missing parameter is a 400, reached only once the caller
      is known, with nothing sent to the CMS; a missing CMS token is a 500. */
  lemma RespondGuards(authorization: Option<string>, identity: Identity, slug: Option<string>, id: Option<string>,
                      issued: Option<string>, reply: Reply)
    ensures var (response, calls) := Respond(authorization, identity, slug, id, issued, reply);
      && (BearerToken(authorization).None? ==> response == Message(MissingTokenMessage, 401) && calls == [])
      && (BearerToken(authorization).Some? ==> |calls| >= 1 && calls[0] == LookupUser(BearerToken(authorization).value))
      && (BearerToken(authorization).Some? && identity.user.None? ==> response == Message(InvalidUserMessage, 401) && |calls| == 1)
      && (response.status == 400 <==> BearerToken(authorization).Some? && identity.user.Some? && !(Given(slug) && Given(id)))
      && (response.status == 400 ==> response == Message(IncompleteMessage, 400) && |calls| == 1)
      && (BearerToken(authorization).Some? && identity.user.Some? && Given(slug) && Given(id) && !WpOptimizer.Truthy(issued) ==>
            response == Crash(ServerAuthMessage) && |calls| == 2)
      && response.status in {200, 400, 401, 403, 500}
  {
    if BearerToken(authorization).Some? && identity.user.Some? && Given(slug) && Given(id) {
      FetchedOutcomes(Path(slug, id), identity.user.value, issued, reply);
    }
  }

  /** The route only reads: it never sends a write, and it reads the post the query names only for a
      known caller.  A 200 hands back the stored post exactly as the CMS sent it, and only when the
      CMS answered with success and names the caller as the owner; a 403 means it names someone else. */
  lemma RespondDisclosure(authorization: Option<string>, identity: Identity, slug: Option<string>, id: Option<string>,
                          issued: Option<string>, reply: Reply)
    ensures var (response, calls) := Respond(authorization, identity, slug, id, issued, reply);
      && NoWrites(calls)
      && (|calls| == 3 <==> BearerToken(authorization).Some? && identity.user.Some? && Given(slug) && Given(id)
                             && WpOptimizer.Truthy(issued))
      && (|calls| == 3 ==> calls[2] == Cms(GET, Path(slug, id), None))
      && (response.status == 200 <==>
            |calls| == 3 && reply.Reply? && Ok(reply.status) && reply.payload.Json? && !reply.payload.value.Null?
            && StoredOwner(reply.payload.value) == Some(Str(identity.user.value)))
      && (response.status == 200 ==> Rendered(response) == reply.payload.value)
      && (response.status == 403 ==>
            |calls| == 3 && reply.Reply? && Ok(reply.status) && reply.payload.Json?
            && StoredOwner(reply.payload.value) != Some(Str(identity.user.value)))
  {
    var token := BearerToken(authorization);
    if token.Some? && identity.user.Some? && Given(slug) && Given(id) {
      var upstream := Fetched(Path(slug, id), identity.user.value, issued, reply);
      FetchedOutcomes(Path(slug, id), identity.user.value, issued, reply);
      NoWritesConcat([LookupUser(token.value)], upstream.1);
    }
  }
}
