/**
 * The generic posts proxy (`/api/posts`).  `GET` forwards the query string to the CMS's post list
 * and passes its pagination headers on.  `POST` reads the caller's roles, resolves tag names to
 * tag ids, forces contributors' posts to drafts, wraps a plain-text content and excerpt as
 * `{ raw }`, coerces the categories into a list of numbers and creates the post.  Requests go
 * through axios, which rejects every answer outside 2xx; a rejection or any error thrown inside
 * the handler ends in `{ message }` with the upstream status, else 500.
 */
module PostsRoute {
  import opened Wrappers
  import opened Text
  import opened Json
  import opened Http

  const NotAuthenticatedMessage: string := "Not authenticated"
  const NotConfiguredMessage: string := "API service is not configured"
  const FetchFailedMessage: string := "An error occurred while fetching posts."
  const CreateFailedMessage: string := "An error occurred while creating the post."
  const ContributorRole: string := "contributor"
  const DraftStatus: string := "draft"

  /** Paths below `NEXT_PUBLIC_WORDPRESS_API_URL`. */
  const PostsPath: string := "/posts"
  const TagsPath: string := "/tags"
  const UsersMePath: string := "/users/me?context=edit"

  /** The search for a tag by name (`params: { search: tagName }`). */
  function TagSearchPath(name: Value): string {
    TagsPath + "?search=" + Stringify(name)
  }

  /** A settled axios request: the response's status, its body (parsed JSON, or the text itself
      when it is not JSON) and the two pagination headers, or no response at all. */
  datatype Answer = Answered(status: int, data: Value, totalPages: Option<string>, total: Option<string>) | NoAnswer

  /** The request resolved: axios rejects every other answer. */
  predicate Resolved(a: Answer) {
    a.Answered? && Ok(a.status)
  }

  /** The `catch` clause's status and message: `error.response?.status || 500` and
      `error.response?.data?.message || fallback`.  An error the handler throws itself has no response. */
  function FailureStatus(a: Answer): (status: int)
    ensures status != 0
  {
    if a.Answered? && a.status != 0 then a.status else 500
  }

  function FailureMessage(a: Answer, fallback: string): Value {
    if a.Answered? then Or(Member(Some(a.data), "message"), Str(fallback)) else Str(fallback)
  }

  /** The `catch` clause's reply in `POST`. */
  function Failed(a: Answer): Response {
    LiteralResponse([("message", Some(FailureMessage(a, CreateFailedMessage)))], FailureStatus(a))
  }

  /** An error thrown inside the handler: no response, so a 500 with the fallback message. */
  function Thrown(): (r: Response)
    ensures r.status == 500 && Field(r, "message") == Some(Str(CreateFailedMessage))
  {
    Failed(NoAnswer)
  }

  // ---------------------------------------------------------------------------------------
  // GET

  /** A header is set only when upstream sent a non-empty value for it. */
  function ForwardedHeaders(a: Answer): seq<(string, string)>
    requires a.Answered?
  {
    (if a.totalPages.Some? && a.totalPages.value != [] then [("x-wp-totalpages", a.totalPages.value)] else [])
    + (if a.total.Some? && a.total.value != [] then [("x-wp-total", a.total.value)] else [])
  }

  /** `error.response?.data?.data?.params || {}`. */
  function Details(a: Answer): Value {
    if a.Answered? then Or(Member(Member(Some(a.data), "data"), "params"), Obj([])) else Obj([])
  }

  /** What `GET(req)` answers: whether the CMS root is configured, the incoming query string
      (with its `?`) and the CMS's answer are parameters. */
  function Get(configured: bool, query: string, answer: Answer): (Response, seq<Call>)
  {
    if !configured then (Message(NotConfiguredMessage, 500), [])
    else
      var calls := [Cms(GET, PostsPath + query, None)];
      if Resolved(answer) then (Response(200, Raw(answer.data), ForwardedHeaders(answer)), calls)
      else
        (LiteralResponse([("message", Some(FailureMessage(answer, FetchFailedMessage))), ("details", Some(Details(answer)))],
                         FailureStatus(answer)), calls)
  }

  /** `GET` only reads, forwards the list unchanged with exactly the pagination headers upstream
      set, and otherwise answers with the upstream status (500 when there is none). */
  lemma GetForwarding(configured: bool, query: string, answer: Answer, name: string, value: string)
    ensures var (response, calls) := Get(configured, query, answer);
      && NoWrites(calls)
      && (!configured ==> response == Message(NotConfiguredMessage, 500) && calls == [])
      && (configured ==> calls == [Cms(GET, PostsPath + query, None)])
      && (response.status == 200 <==> configured && Resolved(answer))
      && (response.status == 200 ==> Rendered(response) == answer.data)
      && (response.status == 200 ==>
            ((name, value) in response.headers <==>
               || (name == "x-wp-totalpages" && answer.totalPages == Some(value) && value != [])
               || (name == "x-wp-total" && answer.total == Some(value) && value != [])))
      && (configured && !Resolved(answer) ==>
            response.status == FailureStatus(answer) && (answer.Answered? && answer.status != 0 ==> response.status == answer.status)
            && Field(response, "message") == Some(FailureMessage(answer, FetchFailedMessage)))
  {
  }

  // ---------------------------------------------------------------------------------------
  // POST: reading the request

  /** `currentUser.roles.includes("contributor")`; `None` when it throws (no user, no roles, or
      roles that have no `includes`). */
  function IsContributor(currentUser: Value): Option<bool> {
    match Member(Some(currentUser), "roles")
    case None => None
    case Some(roles) =>
      match roles
      case Arr(items) => Some(Str(ContributorRole) in items)
      case Str(s) => Some(Contains(s, ContributorRole))
      case _ => None
  }

  /** The own properties of an array or a string as object rest sees them: one per index. */
  function Indexed(items: seq<Value>): (ps: seq<Prop>)
    ensures |ps| == |items| && forall i | 0 <= i < |ps| :: ps[i] == Prop(NatToString(i), items[i])
  {
    seq(|items|, i requires 0 <= i < |items| => Prop(NatToString(i), items[i]))
  }

  /** Index keys are numerals, so none of them is `tags`. */
  lemma IndexedHasNoTags(items: seq<Value>)
    ensures Lookup(Indexed(items), "tags").None?
  {
    var ps := Indexed(items);
    LookupHasKey(ps, "tags");
    forall i | 0 <= i < |ps| ensures ps[i].key != "tags" {
      assert AllDigits(ps[i].key);
      assert !IsDigit("tags"[0]);
    }
  }

  /** `const { tags, ...postData } = body`; `None` when it throws (a body that is not JSON, or `null`). */
  function Destructured(body: Body): (r: Option<(Option<Value>, seq<Prop>)>)
    ensures r.Some? ==> Lookup(r.value.1, "tags").None?
  {
    match body
    case Malformed => None
    case Parsed(json) =>
      match json
      case Null => None
      case Obj(props) => Some((Lookup(props, "tags"), Without(props, {"tags"})))
      case Arr(items) => IndexedHasNoTags(items); Some((None, Indexed(items)))
      case Str(s) =>
        var chars := seq(|s|, i requires 0 <= i < |s| => Str([s[i]]));
        IndexedHasNoTags(chars); Some((None, Indexed(chars)))
      case _ => Some((None, []))
  }

  /** `v.length` where it does not throw. */
  function Length(v: Value): Option<Value> {
    match v
    case Arr(items) => Some(Num(|items|))
    case Str(s) => Some(Num(Utf16Length(s)))
    case Obj(props) => Lookup(props, "length")
    case _ => None
  }

  /** `v.length > 0` for a length that is a number. */
  predicate Positive(length: Option<Value>) {
    length.Some? && length.value.Num? && length.value.n > 0
  }

  /** `v[0]`. */
  function First(v: Value): Option<Value> {
    match v
    case Arr(items) => if items == [] then None else Some(items[0])
    case Str(s) => if s == [] then None else Some(Str([s[0]]))
    case Obj(props) => Lookup(props, "0")
    case _ => None
  }

  // ---------------------------------------------------------------------------------------
  // POST: tag resolution

  /** What one tag contributes after `.filter((id) => id !== null)`: `None` when it is dropped,
      else its id as `JSON.stringify` writes it (an `undefined` id becomes `null`). */
  function Kept(id: Option<Value>): Option<Value> {
    if id.None? then Some(Null) else if id.value.Null? then None else id
  }

  /** The `.id` of a response's data, where reading it does not throw. */
  function IdOf(record: Option<Value>): Option<Value> {
    if record.None? || record.value.Null? then None else Kept(Member(record, "id"))
  }

  /** The id one tag contributes after `.filter((id) => id !== null)`, `None` when it is dropped:
      the first hit of its search (`search`), or for a non-contributor whose search found
      nothing the tag created for it (`create`); any error drops the tag. */
  function TagId(contributor: bool, search: Answer, create: Answer): Option<Value> {
    if !Resolved(search) || search.data.Null? then None
    else if Positive(Length(search.data)) then IdOf(First(search.data))
    else if contributor || !Resolved(create) || create.data.Null? then None
    else IdOf(Some(create.data))
  }

  /** The search found nothing, and the caller is allowed to create the tag. */
  predicate Creates(contributor: bool, search: Answer) {
    !contributor && Resolved(search) && !search.data.Null? && !Positive(Length(search.data))
  }

  /** The requests sent for one tag: its search, then its creation when `Creates` holds. */
  function TagCalls(name: Value, contributor: bool, search: Answer): seq<Call> {
    [Cms(GET, TagSearchPath(name), None)]
    + (if Creates(contributor, search) then [Cms(POST, TagsPath, Some(Obj([Prop("name", name)])))] else [])
  }

  /** The CMS's answers to one kind of tag request, by the position of the tag in the list:
      each element of `tags` gets its own request and so its own answer. */
  type Answers = nat -> Answer

  /** The answers from position `k` on. */
  function Shift(answers: Answers, k: nat): (r: Answers)
    ensures forall i: nat :: r(i) == answers(i + k)
  {
    (i: nat) => answers(i + k)
  }

  /** `tags.map(...)`: what each name resolves to, in order.  `search(i)` and `create(i)` are the
      CMS's answers to the search for, and the creation of, the `i`-th name. */
  function Outcomes(names: seq<Value>, contributor: bool, search: Answers, create: Answers): (r: seq<Option<Value>>)
    ensures |r| == |names| && forall i | 0 <= i < |names| :: r[i] == TagId(contributor, search(i), create(i))
  {
    seq(|names|, i requires 0 <= i < |names| => TagId(contributor, search(i), create(i)))
  }

  /** `.filter((id) => id !== null)`: the ids that survived, in order. */
  function Survivors(ids: seq<Option<Value>>): seq<Value> {
    if ids == [] then [] else (if ids[0].Some? then [ids[0].value] else []) + Survivors(ids[1..])
  }

  /** The tag ids sent upstream: the surviving outcomes, in the order of the names. */
  function TagIds(names: seq<Value>, contributor: bool, search: Answers, create: Answers): seq<Value> {
    Survivors(Outcomes(names, contributor, search, create))
  }

  /** The requests sent for the tags, one name after another. */
  function TagRequests(names: seq<Value>, contributor: bool, search: Answers): seq<Call> {
    if names == [] then []
    else
      var last := |names| - 1;
      TagRequests(names[..last], contributor, search) + TagCalls(names[last], contributor, search(last))
  }

  /** What one tag resolves to: the id of the search's first hit; for a non-contributor whose
      search found nothing, the id of the created tag; for a contributor whose search found
      nothing, or when the search fails, nothing. */
  lemma TagIdCases(contributor: bool, search: Answer, create: Answer, id: Value)
    requires !id.Null?
    ensures Resolved(search) && search.data.Arr? && search.data.items != [] && search.data.items[0] == Obj([Prop("id", id)]) ==>
              TagId(contributor, search, create) == Some(id)
    ensures Resolved(search) && search.data == Arr([]) && !contributor && Resolved(create) && create.data == Obj([Prop("id", id)]) ==>
              TagId(contributor, search, create) == Some(id)
    ensures Resolved(search) && search.data == Arr([]) && contributor ==> TagId(contributor, search, create).None?
    ensures !Resolved(search) ==> TagId(contributor, search, create).None?
  {
    if Resolved(search) && search.data.Arr? && search.data.items != [] {
      assert Length(search.data) == Some(Num(|search.data.items|));
    }
  }

  /** Equal names are resolved apart: when both searches find nothing and the CMS creates the
      first tag but refuses to create it again, only the first name yields an id. */
  lemma DuplicateNamesResolveApart(id: Value)
    requires !id.Null?
    ensures TagIds([Str("a"), Str("a")], false, (i: nat) => Answered(200, Arr([]), None, None),
                   (i: nat) => if i == 0 then Answered(201, Obj([Prop("id", id)]), None, None)
                               else Answered(400, Obj([]), None, None)) == [id]
  {
    var search: Answers := (i: nat) => Answered(200, Arr([]), None, None);
    var create: Answers := (i: nat) => if i == 0 then Answered(201, Obj([Prop("id", id)]), None, None)
                                       else Answered(400, Obj([]), None, None);
    TagIdCases(false, search(0), create(0), id);
    TagIdCases(false, search(1), create(1), id);
    var o := Outcomes([Str("a"), Str("a")], false, search, create);
    assert o == [Some(id), None];
    assert o[1..][1..] == [];
  }

  /** Filtering a concatenation filters each part and keeps their order. */
  lemma {:induction false} SurvivorsConcat(a: seq<Option<Value>>, b: seq<Option<Value>>)
    ensures Survivors(a + b) == Survivors(a) + Survivors(b)
  {
    if a == [] {
      assert a + b == b;
    } else {
      assert (a + b)[0] == a[0];
      assert (a + b)[1..] == a[1..] + b;
      SurvivorsConcat(a[1..], b);
    }
  }

  /** The ids of a list of names are the ids of each part, in order, each part answered by the
      requests at its own positions. */
  lemma TagIdsConcat(a: seq<Value>, b: seq<Value>, contributor: bool, search: Answers, create: Answers)
    ensures TagIds(a + b, contributor, search, create) ==
      TagIds(a, contributor, search, create) + TagIds(b, contributor, Shift(search, |a|), Shift(create, |a|))
  {
    var oa := Outcomes(a, contributor, search, create);
    var ob := Outcomes(b, contributor, Shift(search, |a|), Shift(create, |a|));
    assert Outcomes(a + b, contributor, search, create) == oa + ob;
    SurvivorsConcat(oa, ob);
  }

  /** The requests for a list of names are the requests for each part, in order. */
  lemma {:induction false} TagRequestsConcat(a: seq<Value>, b: seq<Value>, contributor: bool, search: Answers)
    ensures TagRequests(a + b, contributor, search) ==
      TagRequests(a, contributor, search) + TagRequests(b, contributor, Shift(search, |a|))
  {
    if b == [] {
      assert a + b == a;
    } else {
      var init := b[..|b| - 1];
      assert (a + b)[..|a + b| - 1] == a + init;
      assert (a + b)[|a + b| - 1] == b[|b| - 1];
      TagRequestsConcat(a, init, contributor, search);
    }
  }

  /** Contributors never create tags: every request sent for their tags is a search. */
  lemma {:induction false} ContributorCreatesNoTags(names: seq<Value>, search: Answers)
    ensures NoWrites(TagRequests(names, true, search))
  {
    if names != [] {
      var last := |names| - 1;
      ContributorCreatesNoTags(names[..last], search);
      NoWritesConcat(TagRequests(names[..last], true, search), TagCalls(names[last], true, search(last)));
    }
  }

  /** There is never more than one id per name, and one or two requests per name. */
  lemma {:induction false} TagIdsBound(names: seq<Value>, contributor: bool, search: Answers, create: Answers)
    ensures |TagIds(names, contributor, search, create)| <= |names|
    ensures |names| <= |TagRequests(names, contributor, search)| <= 2 * |names|
  {
    SurvivorsBound(Outcomes(names, contributor, search, create));
    if names != [] {
      TagIdsBound(names[..|names| - 1], contributor, search, create);
    }
  }

  lemma {:induction false} SurvivorsBound(ids: seq<Option<Value>>)
    ensures |Survivors(ids)| <= |ids|
  {
    if ids != [] {
      SurvivorsBound(ids[1..]);
    }
  }

  // ---------------------------------------------------------------------------------------
  // POST: categories

  // `Number(t)` accepts exactly the StringNumericLiteral grammar of section 7.1.4.1.1 of
  // ECMA-262: white space around an optional decimal literal (signed, with a fraction, an
  // exponent, or `Infinity`) or an unsigned binary, octal or hexadecimal integer.

  predicate DecimalDigits(s: string) {
    s != [] && AllDigits(s)
  }

  /** Digits with an optional sign, as an exponent carries them. */
  predicate SignedInteger(s: string) {
    if s != [] && (s[0] == '+' || s[0] == '-') then DecimalDigits(s[1..]) else DecimalDigits(s)
  }

  /** The position of the first `e` or `E`, or `|s|` when there is none. */
  function ExponentAt(s: string): (k: nat)
    ensures k <= |s| && (k < |s| ==> s[k] == 'e' || s[k] == 'E')
    ensures forall i | 0 <= i < k :: s[i] != 'e' && s[i] != 'E'
  {
    if s == [] || s[0] == 'e' || s[0] == 'E' then 0
    else
      var k := 1 + ExponentAt(s[1..]);
      assert forall i | 1 <= i < k :: s[i] == s[1..][i - 1];
      k
  }

  /** Digits with at most one `.`, and at least one digit. */
  predicate Mantissa(m: string) {
    match IndexOf(m, ".")
    case None => DecimalDigits(m)
    case Some(d) => AllDigits(m[..d]) && AllDigits(m[d + 1..]) && |m| > 1
  }

  predicate UnsignedDecimal(s: string) {
    s == "Infinity"
    || (var k := ExponentAt(s); Mantissa(s[..k]) && (k == |s| || SignedInteger(s[k + 1..])))
  }

  predicate DecimalLiteral(s: string) {
    if s != [] && (s[0] == '+' || s[0] == '-') then UnsignedDecimal(s[1..]) else UnsignedDecimal(s)
  }

  predicate IsHexDigit(c: char) {
    IsDigit(c) || 'a' <= c <= 'f' || 'A' <= c <= 'F'
  }

  /** `0x`, `0o` or `0b` (either case) followed by at least one digit of that base. */
  predicate NonDecimalInteger(s: string) {
    |s| > 2 && s[0] == '0'
    && (if s[1] == 'x' || s[1] == 'X' then forall i | 2 <= i < |s| :: IsHexDigit(s[i])
        else if s[1] == 'o' || s[1] == 'O' then forall i | 2 <= i < |s| :: '0' <= s[i] <= '7'
        else if s[1] == 'b' || s[1] == 'B' then forall i | 2 <= i < |s| :: s[i] == '0' || s[i] == '1'
        else false)
  }

  /** `Number(t)` is not `NaN`: blank text is 0, and otherwise the trimmed text is a literal. */
  predicate NumericText(t: string) {
    var u := Trim(t);
    u == [] || DecimalLiteral(u) || NonDecimalInteger(u)
  }

  /** Text without a dot has no fraction part. */
  lemma NoDot(s: string)
    requires forall i | 0 <= i < |s| :: s[i] != '.'
    ensures IndexOf(s, ".") == None
  {
    forall j | 0 <= j <= |s|
      ensures !OccursAt(s, ".", j)
    {
      if j < |s| {
        assert s[j..j + 1][0] == s[j];
      }
    }
  }

  /** Every decimal integer, signed or not, is numeric text: the grammar extends the integers. */
  lemma IntegerTextNumeric(t: string)
    requires Trim(t) == t
    requires DecimalDigits(t) || (|t| > 1 && (t[0] == '-' || t[0] == '+') && DecimalDigits(t[1..]))
    ensures NumericText(t)
  {
    var u := if DecimalDigits(t) then t else t[1..];
    DigitsHaveNoMark(u);
    NoDot(u);
    assert u[..|u|] == u;
  }

  /** The forms beyond the integers that `Number` accepts (an exponent, a fraction, `Infinity`
      with a sign, a hexadecimal integer), and text it turns into `NaN` (an exponent mark
      without digits, a lone dot, a prefix without digits). */
  lemma NumericTextForms()
    ensures NumericText("1e3") && NumericText("1.5") && NumericText("-Infinity") && NumericText("0x1F")
    ensures !NumericText("1e") && !NumericText(".") && !NumericText("0x")
  {
    ExponentForm();
    FractionForm();
    InfinityForm();
    HexForm();
    BareExponentMark();
    LoneDot();
    BarePrefix();
  }

  lemma InfinityForm()
    ensures NumericText("-Infinity")
  {
    TrimUnpadded("-Infinity");
    assert "-Infinity"[1..] == "Infinity";
  }

  lemma HexForm()
    ensures NumericText("0x1F")
  {
    TrimUnpadded("0x1F");
  }

  lemma BarePrefix()
    ensures !NumericText("0x")
  {
    TrimUnpadded("0x");
    DigitsHaveNoMark("0x");
    NoDot("0x");
  }

  lemma ExponentForm()
    ensures NumericText("1e3")
  {
    TrimUnpadded("1e3");
    assert ExponentAt("1e3") == 1 && "1e3"[..1] == "1" && "1e3"[2..] == "3";
    NoDot("1");
  }

  lemma FractionForm()
    ensures NumericText("1.5")
  {
    TrimUnpadded("1.5");
    DigitsHaveNoMark("1.5");
    assert OccursAt("1.5", ".", 1) && !OccursAt("1.5", ".", 0);
    assert "1.5"[..3] == "1.5" && "1.5"[..1] == "1" && "1.5"[2..] == "5";
  }

  lemma BareExponentMark()
    ensures !NumericText("1e")
  {
    TrimUnpadded("1e");
    assert ExponentAt("1e") == 1 && "1e"[2..] == [];
  }

  lemma LoneDot()
    ensures !NumericText(".")
  {
    TrimUnpadded(".");
    assert OccursAt(".", ".", 0);
    assert "."[..0] == [] && "."[1..] == [];
  }

  /** A run with no `e`, `E` or `.` is its own mantissa and has no exponent. */
  lemma DigitsHaveNoMark(s: string)
    requires forall i | 0 <= i < |s| :: s[i] != 'e' && s[i] != 'E'
    ensures ExponentAt(s) == |s|
  {
    if s != [] {
      DigitsHaveNoMark(s[1..]);
    }
  }

  /** `!isNaN(id)` for an element of the mapped categories. */
  predicate NotNaN(v: Value) {
    match v
    case Obj(_) => false
    case Arr(_) => NumericText(Stringify(v))
    case Str(s) => NumericText(s)
    case _ => true
  }

  /** `typeof id === "string" ? parseInt(id, 10) : id`, with `None` for `NaN`. */
  function AsCategory(v: Value): Option<Value> {
    if v.Str? then (match ParseInt(v.s) case Some(n) => Some(Num(n)) case None => None) else Some(v)
  }

  /** The array case: each string parsed, then every `NaN` left out, in order. */
  function CategoryList(items: seq<Value>): (r: seq<Value>)
    ensures |r| <= |items|
    ensures forall i | 0 <= i < |r| :: !r[i].Str? && !r[i].Obj?
  {
    if items == [] then []
    else
      var c := AsCategory(items[0]);
      (if c.Some? && NotNaN(c.value) then [c.value] else []) + CategoryList(items[1..])
  }

  /** The comma-string case: every piece trimmed and parsed, then every `NaN` left out, in order. */
  function CommaCategories(pieces: seq<string>): (r: seq<Value>)
    ensures |r| <= |pieces|
    ensures forall i | 0 <= i < |r| :: r[i].Num?
  {
    if pieces == [] then []
    else
      var n := ParseInt(Trim(pieces[0]));
      (if n.Some? then [Num(n.value)] else []) + CommaCategories(pieces[1..])
  }

  /** The categories after the `if (postData.categories)` block for a truthy value; `None` when
      `.filter` throws because the value is neither an array, a string nor a number. */
  function Categories(c: Value): Option<Value> {
    match c
    case Arr(items) => Some(Arr(CategoryList(items)))
    case Str(s) => Some(Arr(CommaCategories(Split(s, ','))))
    case Num(n) => Some(Arr([Num(n)]))
    case _ => None
  }

  /** A number survives the array case exactly as it is, and a string survives exactly when it
      parses, as the number it parses to. */
  lemma {:induction false} CategoryListNumbers(items: seq<Value>)
    ensures forall i | 0 <= i < |items| && items[i].Num? :: items[i] in CategoryList(items)
    ensures forall i | 0 <= i < |items| && items[i].Str? && ParseInt(items[i].s).Some? ::
              Num(ParseInt(items[i].s).value) in CategoryList(items)
    ensures forall n :: Num(n) in CategoryList(items) ==>
              exists i :: 0 <= i < |items| && (items[i] == Num(n) || (items[i].Str? && ParseInt(items[i].s) == Some(n)))
  {
    if items != [] {
      CategoryListNumbers(items[1..]);
      var rest := CategoryList(items[1..]);
      var head := if AsCategory(items[0]).Some? && NotNaN(AsCategory(items[0]).value) then [AsCategory(items[0]).value] else [];
      assert CategoryList(items) == head + rest;
      forall i | 1 <= i < |items| ensures items[i] == items[1..][i - 1] { }
      forall n | Num(n) in CategoryList(items)
        ensures exists i :: 0 <= i < |items| && (items[i] == Num(n) || (items[i].Str? && ParseInt(items[i].s) == Some(n)))
      {
        if Num(n) in rest {
          var j :| 0 <= j < |items[1..]| && (items[1..][j] == Num(n) || (items[1..][j].Str? && ParseInt(items[1..][j].s) == Some(n)));
          assert items[j + 1] == items[1..][j];
        } else {
          assert Num(n) in head;
        }
      }
    }
  }

  /** A comma string yields a number exactly when one of its pieces, trimmed, parses to it. */
  lemma {:induction false} CommaCategoriesMembership(pieces: seq<string>, n: int)
    ensures Num(n) in CommaCategories(pieces) <==> exists i :: 0 <= i < |pieces| && ParseInt(Trim(pieces[i])) == Some(n)
  {
    if pieces != [] {
      CommaCategoriesMembership(pieces[1..], n);
      if Num(n) in CommaCategories(pieces[1..]) {
        var i :| 0 <= i < |pieces[1..]| && ParseInt(Trim(pieces[1..][i])) == Some(n);
        assert pieces[i + 1] == pieces[1..][i];
      }
      if exists i :: 0 <= i < |pieces| && ParseInt(Trim(pieces[i])) == Some(n) {
        var i :| 0 <= i < |pieces| && ParseInt(Trim(pieces[i])) == Some(n);
        if i > 0 {
          assert pieces[1..][i - 1] == pieces[i];
        }
      }
    }
  }

  // ---------------------------------------------------------------------------------------
  // POST: the payload

  /** A non-empty string content or excerpt is wrapped as `{ raw }`, and any other value kept. */
  function AsSent(o: Option<Value>): Option<Value> {
    if o.Some? && o.value.Str? && o.value.s != [] then Some(RawText(o.value.s)) else o
  }

  /** `if (postData[k] && typeof postData[k] === "string") postData[k] = { raw: postData[k] }`. */
  function Wrapped(data: seq<Prop>, k: string): (r: seq<Prop>)
    ensures Lookup(r, k) == AsSent(Lookup(data, k))
    ensures forall other | other != k :: Lookup(r, other) == Lookup(data, other)
  {
    var v := Lookup(data, k);
    if v.Some? && v.value.Str? && v.value.s != [] then Assign(data, k, RawText(v.value.s)) else data
  }

  function RawText(s: string): Value {
    Obj([Prop("raw", Str(s))])
  }

  /** The payload before the categories step: the tags, status, content and excerpt steps.
      `tagIds` is `None` when the tags step was skipped. */
  function Prepared(postData: seq<Prop>, contributor: bool, tagIds: Option<seq<Value>>): seq<Prop> {
    var tagged := if tagIds.Some? then Assign(postData, "tags", Arr(tagIds.value)) else postData;
    var drafted := if contributor then Assign(tagged, "status", Str(DraftStatus)) else tagged;
    Wrapped(Wrapped(drafted, "content"), "excerpt")
  }

  /** The post sent upstream: the prepared payload after the categories step; `None` when that
      step throws. */
  function Payload(postData: seq<Prop>, contributor: bool, tagIds: Option<seq<Value>>): Option<seq<Prop>> {
    var prepared := Prepared(postData, contributor, tagIds);
    var c := Lookup(prepared, "categories");
    if !Present(c) then Some(prepared)
    else match Categories(c.value)
      case None => None
      case Some(categories) => Some(Assign(prepared, "categories", categories))
  }

  /** Before the categories step, a contributor's post is a draft and anyone else's keeps its status. */
  lemma PreparedStatus(postData: seq<Prop>, contributor: bool, tagIds: Option<seq<Value>>)
    ensures Lookup(Prepared(postData, contributor, tagIds), "status")
            == if contributor then Some(Str(DraftStatus)) else Lookup(postData, "status")
  {
    var tagged := if tagIds.Some? then Assign(postData, "tags", Arr(tagIds.value)) else postData;
    var drafted := if contributor then Assign(tagged, "status", Str(DraftStatus)) else tagged;
    assert Lookup(Wrapped(drafted, "content"), "status") == Lookup(drafted, "status");
  }

  /** Before the categories step, the tags are the resolved ids, or absent when the tags step was skipped. */
  lemma PreparedTags(postData: seq<Prop>, contributor: bool, tagIds: Option<seq<Value>>)
    requires Lookup(postData, "tags").None?
    ensures Lookup(Prepared(postData, contributor, tagIds), "tags") == if tagIds.Some? then Some(Arr(tagIds.value)) else None
  {
    var tagged := if tagIds.Some? then Assign(postData, "tags", Arr(tagIds.value)) else postData;
    var drafted := if contributor then Assign(tagged, "status", Str(DraftStatus)) else tagged;
    assert Lookup(drafted, "tags") == Lookup(tagged, "tags");
    assert Lookup(Wrapped(drafted, "content"), "tags") == Lookup(drafted, "tags");
  }

  /** Before the categories step, the content and excerpt are as `AsSent` says. */
  lemma PreparedText(postData: seq<Prop>, contributor: bool, tagIds: Option<seq<Value>>)
    ensures var p := Prepared(postData, contributor, tagIds);
      && Lookup(p, "content") == AsSent(Lookup(postData, "content"))
      && Lookup(p, "excerpt") == AsSent(Lookup(postData, "excerpt"))
  {
    var tagged := if tagIds.Some? then Assign(postData, "tags", Arr(tagIds.value)) else postData;
    var drafted := if contributor then Assign(tagged, "status", Str(DraftStatus)) else tagged;
    assert Lookup(drafted, "content") == Lookup(postData, "content");
    assert Lookup(drafted, "excerpt") == Lookup(postData, "excerpt");
    assert Lookup(Wrapped(drafted, "content"), "excerpt") == Lookup(postData, "excerpt");
  }

  /** Before the categories step, every property but the four it sets is the one the client sent. */
  lemma PreparedOthers(postData: seq<Prop>, contributor: bool, tagIds: Option<seq<Value>>, k: string)
    requires k !in {"tags", "status", "content", "excerpt"}
    ensures Lookup(Prepared(postData, contributor, tagIds), k) == Lookup(postData, k)
  {
    var tagged := if tagIds.Some? then Assign(postData, "tags", Arr(tagIds.value)) else postData;
    var drafted := if contributor then Assign(tagged, "status", Str(DraftStatus)) else tagged;
    assert Lookup(drafted, k) == Lookup(postData, k);
  }

  /** The categories step fails exactly on a truthy value that is neither an array, a string nor
      a number; otherwise the categories are the coerced list, or untouched when falsy, and every
      other property stays as prepared. */
  lemma PayloadCategories(postData: seq<Prop>, contributor: bool, tagIds: Option<seq<Value>>, k: string)
    ensures var prepared := Prepared(postData, contributor, tagIds);
      var c := Lookup(postData, "categories");
      var p := Payload(postData, contributor, tagIds);
      && (p.None? <==> Present(c) && Categories(c.value).None?)
      && (p.Some? ==> Lookup(p.value, "categories") == (if Present(c) then Categories(c.value) else c))
      && (p.Some? && k != "categories" ==> Lookup(p.value, k) == Lookup(prepared, k))
  {
    PreparedOthers(postData, contributor, tagIds, "categories");
  }

  // ---------------------------------------------------------------------------------------
  // POST: the handler

  /** Past `/users/me` and the body: the tags step (its requests, or a throw when `tags` is a
      non-array with a length), the payload, and the creation of the post (`created`). */
  function Submitted(contributor: bool, tags: Option<Value>, postData: seq<Prop>,
                     search: Answers, create: Answers, created: Answer): (Response, seq<Call>)
  {
    var resolving := Present(tags) && Positive(Length(tags.value));
    if resolving && !tags.value.Arr? then (Thrown(), [])
    else
      var tagCalls := if resolving then TagRequests(tags.value.items, contributor, search) else [];
      var tagIds := if resolving then Some(TagIds(tags.value.items, contributor, search, create)) else None;
      match Payload(postData, contributor, tagIds)
      case None => (Thrown(), tagCalls)
      case Some(payload) =>
        var sent := tagCalls + [Cms(POST, PostsPath, Some(Obj(payload)))];
        if Resolved(created) then (JsonResponse(created.data, 201), sent) else (Failed(created), sent)
  }

  /** What `POST(req)` answers and which requests it sends: the `auth_token` cookie, whether the
      CMS root is configured, the answer to `/users/me`, the request body, the answers to each
      tag's search and creation, and the answer to the creation of the post are parameters. */
  function Posted(token: Option<string>, configured: bool, me: Answer, body: Body,
                  search: Answers, create: Answers, created: Answer): (Response, seq<Call>)
  {
    if token.None? || token.value == [] then (Message(NotAuthenticatedMessage, 401), [])
    else if !configured then (Message(NotConfiguredMessage, 500), [])
    else
      var calls := [Cms(GET, UsersMePath, None)];
      if !Resolved(me) then (Failed(me), calls)
      else if IsContributor(me.data).None? || Destructured(body).None? then (Thrown(), calls)
      else
        var (tags, postData) := Destructured(body).value;
        var (response, rest) := Submitted(IsContributor(me.data).value, tags, postData, search, create, created);
        (response, calls + rest)
  }

  /**
   * `POST(req)` up to the body: the cookie, the CMS root, the caller's roles and the
   * destructuring of the body.
   */
  method Post(token: Option<string>, configured: bool, me: Answer, body: Body,
              search: Answers, create: Answers, created: Answer)
    returns (response: Response, calls: seq<Call>)
    ensures (response, calls) == Posted(token, configured, me, body, search, create, created)
  {
    if token.None? || token.value == [] {
      return Message(NotAuthenticatedMessage, 401), [];
    }
    if !configured {
      return Message(NotConfiguredMessage, 500), [];
    }
    calls := [Cms(GET, UsersMePath, None)];
    if !Resolved(me) {
      return Failed(me), calls;
    }
    var isContributor := IsContributor(me.data);
    var destructured := Destructured(body);
    if isContributor.None? || destructured.None? {
      return Thrown(), calls;
    }
    var (tags, postData) := destructured.value;
    var rest;
    response, rest := Submit(isContributor.value, tags, postData, search, create, created);
    calls := calls + rest;
  }

  /** The rest of `POST(req)`, `postData` changed in place: the tags, status, content, excerpt
      and categories steps, then the creation of the post. */
  method Submit(contributor: bool, tags: Option<Value>, postData: seq<Prop>,
                search: Answers, create: Answers, created: Answer)
    returns (response: Response, calls: seq<Call>)
    ensures (response, calls) == Submitted(contributor, tags, postData, search, create, created)
  {
    var data := postData;
    var tagIds: Option<seq<Value>> := None;
    calls := [];
    if Present(tags) && Positive(Length(tags.value)) {
      if !tags.value.Arr? {
        return Thrown(), [];
      }
      var ids := TagIds(tags.value.items, contributor, search, create);
      calls := TagRequests(tags.value.items, contributor, search);
      data := Assign(data, "tags", Arr(ids));
      tagIds := Some(ids);
    }
    if contributor {
      data := Assign(data, "status", Str(DraftStatus));
    }
    data := Wrapped(data, "content");
    data := Wrapped(data, "excerpt");
    assert data == Prepared(postData, contributor, tagIds);
    var categories := Lookup(data, "categories");
    if Present(categories) {
      var coerced := Categories(categories.value);
      if coerced.None? {
        return Thrown(), calls;
      }
      data := Assign(data, "categories", coerced.value);
    }
    assert Payload(postData, contributor, tagIds) == Some(data);
    calls := calls + [Cms(POST, PostsPath, Some(Obj(data)))];
    if Resolved(created) {
      response := JsonResponse(created.data, 201);
    } else {
      response := Failed(created);
    }
  }

  /** Past the body: the post is created only as the last request, carrying the payload; a 201
      hands back what the CMS created, and any other outcome is a failure reply. */
  lemma SubmittedOutcomes(contributor: bool, tags: Option<Value>, postData: seq<Prop>,
                          search: Answers, create: Answers, created: Answer)
    ensures var (response, calls) := Submitted(contributor, tags, postData, search, create, created);
      var resolving := Present(tags) && Positive(Length(tags.value)) && tags.value.Arr?;
      var tagIds := if resolving then Some(TagIds(tags.value.items, contributor, search, create)) else None;
      && (response.status == 201 <==> (!(Present(tags) && Positive(Length(tags.value))) || tags.value.Arr?)
                                      && Payload(postData, contributor, tagIds).Some? && Resolved(created))
      && (response.status == 201 ==>
            && Rendered(response) == created.data
            && calls[|calls| - 1] == Cms(POST, PostsPath, Some(Obj(Payload(postData, contributor, tagIds).value))))
      && (response.status != 201 ==> response.status == 500 || response == Failed(created))
      && (forall i | 0 <= i < |calls| - 1 :: !(calls[i].Cms? && calls[i].path == PostsPath))
  {
    var resolving := Present(tags) && Positive(Length(tags.value)) && tags.value.Arr?;
    var tagCalls := if resolving then TagRequests(tags.value.items, contributor, search) else [];
    if resolving {
      TagRequestsPaths(tags.value.items, contributor, search);
    }
  }

  /** No tag request goes to the post collection. */
  lemma {:induction false} TagRequestsPaths(names: seq<Value>, contributor: bool, search: Answers)
    ensures forall c | c in TagRequests(names, contributor, search) :: c.Cms? && c.path != PostsPath
  {
    if names != [] {
      var last := |names| - 1;
      TagRequestsPaths(names[..last], contributor, search);
      assert TagSearchPath(names[last]) != PostsPath by {
        assert TagSearchPath(names[last])[1] == 't';
      }
    }
  }

  /** The guard chain of `POST`: no cookie is a 401 and a missing CMS root a 500, both before any
      request; a failed `/users/me` answers with its status, after that request only. */
  lemma PostGuards(token: Option<string>, configured: bool, me: Answer, body: Body,
                   search: Answers, create: Answers, created: Answer)
    ensures var (response, calls) := Posted(token, configured, me, body, search, create, created);
      && (token.None? || token.value == [] ==> response == Message(NotAuthenticatedMessage, 401) && calls == [])
      && (token.Some? && token.value != [] && !configured ==> response == Message(NotConfiguredMessage, 500) && calls == [])
      && (token.Some? && token.value != [] && configured ==> |calls| >= 1 && calls[0] == Cms(GET, UsersMePath, None))
      && (token.Some? && token.value != [] && configured && !Resolved(me) ==>
            response == Failed(me) && response.status == FailureStatus(me) && |calls| == 1)
      && (token.Some? && token.value != [] && configured && Resolved(me) && IsContributor(me.data).None? ==>
            response == Thrown() && |calls| == 1)
  {
  }

  /** A contributor's post is created as a draft and creates no tags: the only write sent is the
      creation of the post itself, last. */
  lemma ContributorDraft(contributor: bool, tags: Option<Value>, postData: seq<Prop>,
                         search: Answers, create: Answers, created: Answer)
    requires contributor && Lookup(postData, "tags").None?
    ensures var (response, calls) := Submitted(contributor, tags, postData, search, create, created);
      && (forall i | 0 <= i < |calls| - 1 :: !IsWrite(calls[i]))
      && (|calls| > 0 && IsWrite(calls[|calls| - 1]) ==>
            var payload := calls[|calls| - 1].payload;
            payload.Some? && payload.value.Obj? && Lookup(payload.value.props, "status") == Some(Str(DraftStatus)))
  {
    var resolving := Present(tags) && Positive(Length(tags.value));
    if !(resolving && !tags.value.Arr?) {
      var tagCalls := if resolving then TagRequests(tags.value.items, true, search) else [];
      var tagIds := if resolving then Some(TagIds(tags.value.items, true, search, create)) else None;
      if resolving {
        ContributorCreatesNoTags(tags.value.items, search);
      }
      assert NoWrites(tagCalls);
      PreparedStatus(postData, true, tagIds);
      PayloadCategories(postData, true, tagIds, "status");
      var p := Payload(postData, true, tagIds);
      if p.Some? {
        var calls := tagCalls + [Cms(POST, PostsPath, Some(Obj(p.value)))];
        assert Submitted(contributor, tags, postData, search, create, created).1 == calls;
        assert forall i | 0 <= i < |calls| - 1 :: calls[i] == tagCalls[i];
      }
    }
  }
}
