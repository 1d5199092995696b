/**
 * The browser-side posts client: how a CMS post is turned into the application's post record,
 * which query `getPosts` sends to the posts proxy, how it reads the pagination headers of the
 * answer, and the message `handleError` throws.
 */
module PostsApi {
  import opened Wrappers
  import opened Text
  import opened Json
  import Http

  // ---------------------------------------------------------------------------------------
  // transformWordPressPost

  /** The application's three post states. */
  datatype Status = Draft | Published | Private

  /** The CMS status each application state stands for. */
  function CmsStatus(s: Status): string {
    match s
    case Draft => "draft"
    case Published => "publish"
    case Private => "private"
  }

  /** The name of each state in the application's filters. */
  function StatusName(s: Status): string {
    match s
    case Draft => "draft"
    case Published => "published"
    case Private => "private"
  }

  /** The `switch (wpPost.status)`: it starts from `draft` and changes only on an exact match. */
  function AppStatus(wpStatus: Option<Value>): Status {
    if wpStatus == Some(Str("publish")) then Published
    else if wpStatus == Some(Str("draft")) then Draft
    else if wpStatus == Some(Str("private")) then Private
    else Draft
  }

  /** Every state is read back from the CMS status it stands for, and a CMS status that is none of
      the three (`pending`, a number, none at all) reads as a draft. */
  lemma AppStatusOfCmsStatus(s: Status, wpStatus: Option<Value>)
    ensures AppStatus(Some(Str(CmsStatus(s)))) == s
    ensures (forall t: Status :: wpStatus != Some(Str(CmsStatus(t)))) ==> AppStatus(wpStatus) == Draft
  {
    if forall t: Status :: wpStatus != Some(Str(CmsStatus(t))) {
      assert wpStatus != Some(Str(CmsStatus(Published))) && wpStatus != Some(Str(CmsStatus(Private)));
    }
  }

  /** One category or tag of a post: `{ id: cat.id, name: cat.name, slug: cat.slug }`. */
  datatype TermView = TermView(id: Option<Value>, name: Option<Value>, slug: Option<Value>)

  /** The post record the application works with (the embedded author and media fields are not
      part of this model). */
  datatype PostView = PostView(
    id: Option<Value>,
    title: Value,
    content: Value,
    excerpt: Value,
    status: Status,
    authorId: Value,
    createdAt: Option<Value>,
    updatedAt: Option<Value>,
    publishedAt: Option<Value>,
    categories: seq<TermView>,
    tags: seq<TermView>,
    commentsCount: Value,
    likesCount: Value,
    isLiked: Value,
    slug: Value)

  /** `wpPost.k?.rendered || wpPost.k || ""`. */
  function Displayed(wpPost: Value, k: string): Value {
    var raw := Member(Some(wpPost), k);
    var rendered := Member(raw, "rendered");
    if Present(rendered) then rendered.value else if Present(raw) then raw.value else Str("")
  }

  /** `wpPost.k || fallback`. */
  function OrElse(wpPost: Value, k: string, fallback: Value): Value {
    Or(Member(Some(wpPost), k), fallback)
  }

  /** What `wpPost._embedded?.["wp:term"]?.[i]` holds, as far as the `?.map` after it cares. */
  datatype TermList = NoList | List(items: seq<Value>) | NotList

  /** An entry that is there: `null` stops the chain, an array can be mapped, anything else cannot. */
  function ListOf(v: Value): TermList {
    match v
    case Null => NoList
    case Arr(items) => List(items)
    case _ => NotList
  }

  /** `terms?.[i]`: an array's element, an object's member `"i"`, a string's code unit; numbers and
      booleans have no such member, and `null` or `undefined` stop the chain. */
  function Entry(terms: Option<Value>, i: nat): (r: TermList)
    ensures terms.None? || terms.value.Null? ==> r == NoList
    ensures terms.Some? && terms.value.Arr? && i < |terms.value.items| ==> r == ListOf(terms.value.items[i])
  {
    if terms.None? then NoList
    else
      match terms.value
      case Arr(items) => if i < |items| then ListOf(items[i]) else NoList
      case Obj(props) => if Lookup(props, NatToString(i)).Some? then ListOf(Lookup(props, NatToString(i)).value) else NoList
      case Str(s) => if i < Utf16Length(s) then NotList else NoList
      case _ => NoList
  }

  /** The `i`-th list of embedded terms (0 the categories, 1 the tags). */
  function TermListOf(wpPost: Value, i: nat): TermList {
    Entry(Member(Member(Some(wpPost), "_embedded"), "wp:term"), i)
  }

  function TermOf(term: Value): TermView {
    TermView(Member(Some(term), "id"), Member(Some(term), "name"), Member(Some(term), "slug"))
  }

  /** `list.map(term => ({ id: term.id, name: term.name, slug: term.slug }))`: one record per
      element, in order, or the `TypeError` of reading `id` of a `null` element. */
  function TermViews(items: seq<Value>): (r: Result<seq<TermView>, string>)
    ensures r.Success? <==> forall j | 0 <= j < |items| :: !items[j].Null?
    ensures r.Success? ==> |r.value| == |items| && forall j | 0 <= j < |items| :: r.value[j] == TermOf(items[j])
    ensures r.Failure? ==> r.error == Http.NullRead("id")
  {
    if items == [] then Success([])
    else if items[0].Null? then Failure(Http.NullRead("id"))
    else
      var rest := TermViews(items[1..]);
      assert forall j | 1 <= j < |items| :: items[j] == items[1..][j - 1];
      if rest.Failure? then rest else Success([TermOf(items[0])] + rest.value)
  }

  /** The callee the `TypeError` names when the embedded entry cannot be mapped. */
  function MapCallee(i: nat): string {
    "wpPost._embedded?.[\"wp:term\"]?.[" + NatToString(i) + "]?.map"
  }

  /** `wpPost._embedded?.["wp:term"]?.[i]?.map(...) || []`. */
  function Terms(wpPost: Value, i: nat): (r: Result<seq<TermView>, string>)
    ensures TermListOf(wpPost, i) == NoList ==> r == Success([])
    ensures TermListOf(wpPost, i) == NotList ==> r == Failure(Http.NotAFunction(MapCallee(i)))
    ensures TermListOf(wpPost, i).List? ==> r == TermViews(TermListOf(wpPost, i).items)
  {
    match TermListOf(wpPost, i)
    case NoList => Success([])
    case NotList => Failure(Http.NotAFunction(MapCallee(i)))
    case List(items) => TermViews(items)
  }

  /** The embedded terms can be read: nothing there, or an array without `null`. */
  predicate Readable(list: TermList) {
    list.NoList? || (list.List? && forall j | 0 <= j < |list.items| :: !list.items[j].Null?)
  }

  /** `transformWordPressPost(wpPost)`, or the message of the `TypeError` it throws: reading
      `status` of `null`, then the categories' `map`, then the tags'. */
  function Transform(wpPost: Value): Result<PostView, string> {
    if wpPost.Null? then Failure(Http.NullRead("status"))
    else
      var categories := Terms(wpPost, 0);
      var tags := Terms(wpPost, 1);
      if categories.Failure? then Failure(categories.error)
      else if tags.Failure? then Failure(tags.error)
      else
      var status := Member(Some(wpPost), "status");
      Success(PostView(
        Member(Some(wpPost), "id"),
        Displayed(wpPost, "title"),
        Displayed(wpPost, "content"),
        Displayed(wpPost, "excerpt"),
        AppStatus(status),
        OrElse(wpPost, "author", Num(0)),
        Member(Some(wpPost), "date"),
        Member(Some(wpPost), "modified"),
        if status == Some(Str("publish")) then Member(Some(wpPost), "date") else None,
        categories.value,
        tags.value,
        OrElse(wpPost, "comments_count", Num(0)),
        OrElse(wpPost, "likes_count", Num(0)),
        OrElse(wpPost, "is_liked", Bool(false)),
        OrElse(wpPost, "slug", Str(""))))
  }

  /** Title, content and excerpt are the rendered text when there is one, else the raw value when
      it is truthy, else the empty string; so they are never falsy unless empty. */
  lemma DisplayedChoice(wpPost: Value, k: string)
    ensures var d := Displayed(wpPost, k);
      && (Present(Member(Member(Some(wpPost), k), "rendered")) ==> Some(d) == Member(Member(Some(wpPost), k), "rendered"))
      && (!Present(Member(Member(Some(wpPost), k), "rendered")) && Present(Member(Some(wpPost), k)) ==>
            Some(d) == Member(Some(wpPost), k))
      && (Truthy(d) || d == Str(""))
  {
  }

  /** A string field is taken as it is: a string has no `rendered` member. */
  lemma DisplayedOfString(wpPost: Value, k: string, s: string)
    requires Member(Some(wpPost), k) == Some(Str(s))
    ensures Displayed(wpPost, k) == Str(s)
  {
  }

  /** A post is published exactly when the CMS says `publish`, and only a published post carries
      a publication date, which is its CMS date. */
  lemma TransformPublication(wpPost: Value)
    ensures wpPost.Null? ==> Transform(wpPost) == Failure(Http.NullRead("status"))
    ensures Transform(wpPost).Success? ==>
      var p := Transform(wpPost).value;
      && (p.status == Published <==> Member(Some(wpPost), "status") == Some(Str("publish")))
      && (p.publishedAt.Some? ==> p.status == Published && p.publishedAt == Member(Some(wpPost), "date"))
      && (p.status == Published ==> p.publishedAt == p.createdAt)
  {
  }

  /** A post is transformed exactly when it is not `null` and both embedded term lists can be
      read; the categories and tags are then one record per embedded term, in order. */
  lemma TransformOutcome(wpPost: Value)
    ensures Transform(wpPost).Success? <==>
      !wpPost.Null? && Readable(TermListOf(wpPost, 0)) && Readable(TermListOf(wpPost, 1))
    ensures Transform(wpPost).Success? && TermListOf(wpPost, 0).List? ==>
      var items := TermListOf(wpPost, 0).items;
      |Transform(wpPost).value.categories| == |items|
      && forall j | 0 <= j < |items| :: Transform(wpPost).value.categories[j] == TermOf(items[j])
    ensures Transform(wpPost).Success? && TermListOf(wpPost, 0).NoList? ==> Transform(wpPost).value.categories == []
  {
  }

  /** Embedded terms that are not an array, or an array holding `null`, make the transform throw. */
  lemma EmbeddedTermsThrow()
    ensures Transform(Obj([Prop("_embedded", Obj([Prop("wp:term", Arr([Obj([])]))]))])).Failure?
    ensures Transform(Obj([Prop("_embedded", Obj([Prop("wp:term", Arr([Arr([Null])]))]))])) ==
      Failure(Http.NullRead("id"))
  {
    var a := Obj([Prop("_embedded", Obj([Prop("wp:term", Arr([Obj([])]))]))]);
    assert TermListOf(a, 0) == NotList;
    var b := Obj([Prop("_embedded", Obj([Prop("wp:term", Arr([Arr([Null])]))]))]);
    assert TermListOf(b, 0) == List([Null]);
  }

  // ---------------------------------------------------------------------------------------
  // getPosts: the query

  /** The caller's filters (`PostFilters`); an absent member is `None`. */
  datatype Filters = Filters(
    status: Option<string>,
    category: Option<int>,
    tag: Option<string>,
    author: Option<int>,
    search: Option<string>,
    sortBy: Option<string>,
    sortOrder: Option<string>,
    page: Option<int>,
    limit: Option<int>)

  const EveryStatus: string := "publish,draft,private,pending"

  predicate GivenText(o: Option<string>) {
    o.Some? && o.value != []
  }

  predicate GivenNumber(o: Option<int>) {
    o.Some? && o.value != 0
  }

  /** The `status` parameter: a given filter other than `all`, with `published` renamed to the
      CMS's `publish`, else every status. */
  function StatusParam(status: Option<string>): string {
    if GivenText(status) && status.value != "all" then
      if status.value == "published" then "publish" else status.value
    else EveryStatus
  }

  /** `if (filters.k) params.append(name, filters.k)` for a text filter. */
  function TextParam(name: string, o: Option<string>): seq<(string, string)> {
    if GivenText(o) then [(name, o.value)] else []
  }

  /** `if (filters.k) params.append(name, filters.k.toString())` for a number filter. */
  function NumberParam(name: string, o: Option<int>): seq<(string, string)> {
    if GivenNumber(o) then [(name, IntToString(o.value))] else []
  }

  /** The query `getPosts` sends, pair by pair in the order of the appends. */
  function Params(f: Filters): seq<(string, string)> {
    [("_embed", "true"), ("status", StatusParam(f.status))]
    + NumberParam("categories", f.category) + TextParam("tags", f.tag) + NumberParam("author", f.author)
    + TextParam("search", f.search) + TextParam("orderby", f.sortBy) + TextParam("order", f.sortOrder)
    + NumberParam("page", f.page) + NumberParam("per_page", f.limit)
  }

  /** `if (filters.k) params.append(name, filters.k)`. */
  method AppendText(params: seq<(string, string)>, name: string, o: Option<string>) returns (r: seq<(string, string)>)
    ensures r == params + TextParam(name, o)
  {
    r := params;
    if GivenText(o) {
      r := r + [(name, o.value)];
    }
  }

  /** `if (filters.k) params.append(name, filters.k.toString())`. */
  method AppendNumber(params: seq<(string, string)>, name: string, o: Option<int>) returns (r: seq<(string, string)>)
    ensures r == params + NumberParam(name, o)
  {
    r := params;
    if GivenNumber(o) {
      r := r + [(name, IntToString(o.value))];
    }
  }

  /** `params.append(...)` step by step. */
  method BuildParams(f: Filters) returns (params: seq<(string, string)>)
    ensures params == Params(f)
  {
    params := [("_embed", "true")];
    if GivenText(f.status) && f.status.value != "all" {
      var wpStatus := if f.status.value == "published" then "publish" else f.status.value;
      params := params + [("status", wpStatus)];
    } else {
      params := params + [("status", EveryStatus)];
    }
    assert params == [("_embed", "true"), ("status", StatusParam(f.status))];
    params := AppendNumber(params, "categories", f.category);
    params := AppendText(params, "tags", f.tag);
    params := AppendNumber(params, "author", f.author);
    params := AppendText(params, "search", f.search);
    params := AppendText(params, "orderby", f.sortBy);
    params := AppendText(params, "order", f.sortOrder);
    params := AppendNumber(params, "page", f.page);
    params := AppendNumber(params, "per_page", f.limit);
  }

  /** The first value a query gives a name (`URLSearchParams.get`). */
  function Get(params: seq<(string, string)>, name: string): Option<string> {
    if params == [] then None
    else if params[0].0 == name then Some(params[0].1)
    else Get(params[1..], name)
  }

  lemma {:induction false} GetConcat(a: seq<(string, string)>, b: seq<(string, string)>, name: string)
    ensures Get(a + b, name) == if Get(a, name).Some? then Get(a, name) else Get(b, name)
  {
    if a != [] {
      assert (a + b)[0] == a[0];
      assert (a + b)[1..] == a[1..] + b;
      GetConcat(a[1..], b, name);
      if a[0].0 != name {
        assert Get(a + b, name) == Get(a[1..] + b, name);
        assert Get(a, name) == Get(a[1..], name);
      }
    } else {
      assert a + b == b;
    }
  }

  /** A one-pair query names only its own parameter. */
  lemma GetSingle(p: (string, string), name: string)
    ensures Get([p], name) == if p.0 == name then Some(p.1) else None
  {
    assert [p][1..] == [];
  }

  lemma GetTextParam(param: string, o: Option<string>, name: string)
    ensures Get(TextParam(param, o), name) == if GivenText(o) && param == name then Some(o.value) else None
  {
    if GivenText(o) {
      GetSingle((param, o.value), name);
    }
  }

  lemma GetNumberParam(param: string, o: Option<int>, name: string)
    ensures Get(NumberParam(param, o), name) == if GivenNumber(o) && param == name then Some(IntToString(o.value)) else None
  {
    if GivenNumber(o) {
      GetSingle((param, IntToString(o.value)), name);
    }
  }

  /** The query always starts by embedding the author and media, always names a status, and
      filtering by an application state asks the CMS for exactly the status that state is read
      back from. */
  lemma ParamsStatus(f: Filters, s: Status)
    ensures |Params(f)| >= 2 && Params(f)[0] == ("_embed", "true") && Params(f)[1].0 == "status"
    ensures Params(f)[1].1 == StatusParam(f.status)
    ensures f.status.None? || f.status == Some("all") ==> StatusParam(f.status) == EveryStatus
    ensures f.status == Some(StatusName(s)) ==> AppStatus(Some(Str(StatusParam(f.status)))) == s
  {
    AppStatusOfCmsStatus(s, None);
  }

  /** What the query says for each name: `_embed` and `status` always, and each optional filter,
      under its CMS name, exactly when it is truthy; nothing else. */
  lemma ParamsLookup(f: Filters, name: string)
    ensures Get(Params(f), name) ==
      if name == "_embed" then Some("true")
      else if name == "status" then Some(StatusParam(f.status))
      else if name == "categories" then (if GivenNumber(f.category) then Some(IntToString(f.category.value)) else None)
      else if name == "tags" then (if GivenText(f.tag) then f.tag else None)
      else if name == "author" then (if GivenNumber(f.author) then Some(IntToString(f.author.value)) else None)
      else if name == "search" then (if GivenText(f.search) then f.search else None)
      else if name == "orderby" then (if GivenText(f.sortBy) then f.sortBy else None)
      else if name == "order" then (if GivenText(f.sortOrder) then f.sortOrder else None)
      else if name == "page" then (if GivenNumber(f.page) then Some(IntToString(f.page.value)) else None)
      else if name == "per_page" then (if GivenNumber(f.limit) then Some(IntToString(f.limit.value)) else None)
      else None
  {
    var p0: seq<(string, string)> := [("_embed", "true"), ("status", StatusParam(f.status))];
    assert p0 == [("_embed", "true")] + [("status", StatusParam(f.status))];
    var p1 := p0 + NumberParam("categories", f.category);
    var p2 := p1 + TextParam("tags", f.tag);
    var p3 := p2 + NumberParam("author", f.author);
    var p4 := p3 + TextParam("search", f.search);
    var p5 := p4 + TextParam("orderby", f.sortBy);
    var p6 := p5 + TextParam("order", f.sortOrder);
    var p7 := p6 + NumberParam("page", f.page);
    assert Params(f) == p7 + NumberParam("per_page", f.limit);
    GetConcat(p7, NumberParam("per_page", f.limit), name);
    GetConcat(p6, NumberParam("page", f.page), name);
    GetConcat(p5, TextParam("order", f.sortOrder), name);
    GetConcat(p4, TextParam("orderby", f.sortBy), name);
    GetConcat(p3, TextParam("search", f.search), name);
    GetConcat(p2, NumberParam("author", f.author), name);
    GetConcat(p1, TextParam("tags", f.tag), name);
    GetConcat(p0, NumberParam("categories", f.category), name);
    GetConcat([("_embed", "true")], [("status", StatusParam(f.status))], name);
    GetSingle(("_embed", "true"), name);
    GetSingle(("status", StatusParam(f.status)), name);
    GetNumberParam("categories", f.category, name);
    GetTextParam("tags", f.tag, name);
    GetNumberParam("author", f.author, name);
    GetTextParam("search", f.search, name);
    GetTextParam("orderby", f.sortBy, name);
    GetTextParam("order", f.sortOrder, name);
    GetNumberParam("page", f.page, name);
    GetNumberParam("per_page", f.limit, name);
  }

  // ---------------------------------------------------------------------------------------
  // getPosts: the answer

  /** The `pagination` member of the result. */
  datatype Pagination = Pagination(currentPage: int, totalPages: int, totalPosts: int, postsPerPage: int)

  /** `parseInt(header) || fallback`: a missing header (`parseInt(undefined)`), one with no
      leading number and a zero all give the fallback. */
  function HeaderCount(header: Option<string>, fallback: int): int {
    if header.None? then fallback
    else
      match ParseInt(header.value)
      case None => fallback
      case Some(n) => if n == 0 then fallback else n
  }

  function Paginate(f: Filters, totalPages: Option<string>, total: Option<string>, count: nat): Pagination {
    Pagination(if GivenNumber(f.page) then f.page.value else 1,
               HeaderCount(totalPages, 1),
               HeaderCount(total, count),
               if GivenNumber(f.limit) then f.limit.value else 10)
  }

  /** The counts the CMS reports are read back exactly; without them there is one page holding
      the posts received, on page 1 of pages of 10 unless the filters say otherwise. */
  lemma PaginateHeaders(f: Filters, pages: int, posts: int, count: nat)
    requires pages != 0 && posts != 0
    ensures Paginate(f, Some(IntToString(pages)), Some(IntToString(posts)), count).totalPages == pages
    ensures Paginate(f, Some(IntToString(pages)), Some(IntToString(posts)), count).totalPosts == posts
    ensures Paginate(f, None, None, count) == Pagination(Paginate(f, None, None, count).currentPage, 1, count,
                                                        Paginate(f, None, None, count).postsPerPage)
    ensures !GivenNumber(f.page) ==> Paginate(f, None, None, count).currentPage == 1
    ensures !GivenNumber(f.limit) ==> Paginate(f, None, None, count).postsPerPage == 10
  {
    ParseIntOfIntToString(pages);
    ParseIntOfIntToString(posts);
  }

  /** The page count is never 0, whatever the header says. */
  lemma HeaderCountNonZero(header: Option<string>, fallback: int)
    requires fallback != 0
    ensures HeaderCount(header, fallback) != 0
    ensures HeaderCount(header, fallback) != fallback ==> ParseInt(header.value) == Some(HeaderCount(header, fallback))
  {
  }

  /** What an axios request ends in: an answer with its status, JSON body and the two pagination
      headers, or a failure with no answer. */
  datatype Answer = Answer(status: int, data: Value, totalPages: Option<string>, total: Option<string>)
                  | NoAnswer(message: string)

  /** What `handleError` is given: `error.response?.data` and `error.message`. */
  datatype Thrown = Thrown(data: Option<Value>, message: string)

  const StatusFailurePrefix: string := "Request failed with status code "
  const NotArrayMessage: string := "response.data.map is not a function"
  const InvalidParamsPrefix: string := "Invalid parameter(s): "

  /** The error axios raises for an answer outside 200–299. */
  function Rejected(a: Answer): Thrown
    requires a.Answer?
  {
    Thrown(Some(a.data), StatusFailurePrefix + IntToString(a.status))
  }

  /** `Object.keys(v)`: the member names of an object, the indices of an array or a string. */
  function Keys(v: Value): seq<string> {
    match v
    case Obj(props) => seq(|props|, i requires 0 <= i < |props| => props[i].key)
    case Arr(items) => seq(|items|, i requires 0 <= i < |items| => NatToString(i))
    case Str(s) => seq(|s|, i requires 0 <= i < |s| => NatToString(i))
    case _ => []
  }

  /** `error.response?.data?.details || {}`, as its key list. */
  function DetailKeys(e: Thrown): seq<string> {
    var details := Member(e.data, "details");
    if Present(details) then Keys(details.value) else []
  }

  /** `error.response?.data?.message || error.message || "An error occurred in ${context}."`. */
  function Headline(e: Thrown, context: string): Value {
    Or(Member(e.data, "message"), if e.message != [] then Str(e.message) else Str("An error occurred in " + context + "."))
  }

  /** The message of the error `handleError` always throws. */
  function HandleError(e: Thrown, context: string): string {
    var keys := DetailKeys(e);
    var headline := Stringify(Headline(e, context));
    if keys != [] then headline + ". " + InvalidParamsPrefix + Join(keys, ", ") else headline
  }

  /** The thrown message is the CMS's message, else the error's own, else the default for the
      context, followed by the rejected parameter names when the CMS listed any. */
  lemma HandleErrorMessage(e: Thrown, context: string)
    ensures Present(Member(e.data, "message")) ==> Headline(e, context) == Member(e.data, "message").value
    ensures !Present(Member(e.data, "message")) && e.message != [] ==> Headline(e, context) == Str(e.message)
    ensures !Present(Member(e.data, "message")) && e.message == [] ==>
      Headline(e, context) == Str("An error occurred in " + context + ".")
    ensures DetailKeys(e) == [] ==> HandleError(e, context) == Stringify(Headline(e, context))
    ensures DetailKeys(e) != [] ==>
      HandleError(e, context) == Stringify(Headline(e, context)) + ". " + InvalidParamsPrefix + Join(DetailKeys(e), ", ")
  {
  }

  /** A failure with no answer reports the transport's message, or the default for the context. */
  lemma HandleErrorWithoutAnswer(message: string, context: string)
    ensures HandleError(Thrown(None, message), context) ==
      (if message != [] then message else "An error occurred in " + context + ".")
  {
  }

  /** The listed parameter names of a CMS validation answer are the members of its `details`. */
  lemma DetailKeysOfObject(e: Thrown, props: seq<Prop>)
    requires Member(e.data, "details") == Some(Obj(props))
    ensures |DetailKeys(e)| == |props| && forall i | 0 <= i < |props| :: DetailKeys(e)[i] == props[i].key
  {
  }

  /** `response.data.map(transformWordPressPost)`: one post per element, in order, or the message
      of the first element's `TypeError`. */
  function TransformAll(items: seq<Value>): (r: Result<seq<PostView>, string>)
    ensures r.Success? <==> forall i | 0 <= i < |items| :: Transform(items[i]).Success?
    ensures r.Success? ==> |r.value| == |items| && forall i | 0 <= i < |items| :: Transform(items[i]) == Success(r.value[i])
    ensures r.Failure? ==> exists i | 0 <= i < |items| ::
      (Transform(items[i]) == Failure(r.error) && forall j | 0 <= j < i :: Transform(items[j]).Success?)
  {
    if items == [] then Success([])
    else
      var rest := TransformAll(items[1..]);
      assert forall i | 1 <= i < |items| :: items[i] == items[1..][i - 1];
      match Transform(items[0])
      case Failure(e) => Failure(e)
      case Success(p) =>
        if rest.Failure? then
          var i :| 0 <= i < |items[1..]| && Transform(items[1..][i]) == Failure(rest.error)
            && forall j | 0 <= j < i :: Transform(items[1..][j]).Success?;
          assert Transform(items[i + 1]) == Failure(rest.error);
          Failure(rest.error)
        else Success([p] + rest.value)
  }

  /** The result of `getPosts`: the posts with their pagination, or the message it throws. */
  datatype Listing = Listing(posts: seq<PostView>, pagination: Pagination)

  function GetPosts(f: Filters, answer: Answer): Result<Listing, string> {
    match answer
    case NoAnswer(message) => Failure(HandleError(Thrown(None, message), "GET_POSTS"))
    case Answer(status, data, totalPages, total) =>
      if !(200 <= status < 300) then Failure(HandleError(Rejected(answer), "GET_POSTS"))
      else if data.Null? then Failure(HandleError(Thrown(None, Http.NullRead("map")), "GET_POSTS"))
      else if !data.Arr? then Failure(HandleError(Thrown(None, NotArrayMessage), "GET_POSTS"))
      else
        match TransformAll(data.items)
        case Failure(message) => Failure(HandleError(Thrown(None, message), "GET_POSTS"))
        case Success(posts) => Success(Listing(posts, Paginate(f, totalPages, total, |posts|)))
  }

  /** `getPosts` succeeds exactly on a 2xx answer whose body is an array every element of which
      transforms; it then returns one post per element, in order, and counts them when the CMS
      sent no total. */
  lemma GetPostsOutcome(f: Filters, answer: Answer)
    ensures GetPosts(f, answer).Success? <==>
      answer.Answer? && 200 <= answer.status < 300 && answer.data.Arr?
      && forall i | 0 <= i < |answer.data.items| :: Transform(answer.data.items[i]).Success?
    ensures GetPosts(f, answer).Success? ==>
      var l := GetPosts(f, answer).value;
      && |l.posts| == |answer.data.items|
      && (forall i | 0 <= i < |l.posts| :: Transform(answer.data.items[i]) == Success(l.posts[i]))
      && l.pagination == Paginate(f, answer.totalPages, answer.total, |l.posts|)
    ensures answer.Answer? && !(200 <= answer.status < 300) ==>
      GetPosts(f, answer) == Failure(HandleError(Thrown(Some(answer.data), StatusFailurePrefix + IntToString(answer.status)), "GET_POSTS"))
  {
  }
}
