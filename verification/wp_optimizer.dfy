/**
 * `WordPressApiOptimizer`: the one-slot cache of the CMS service token, and the query-string
 * builder for CMS list requests.  The token issuer (`getWordPressToken`) is an upstream call:
 * its answer, and the clock readings around it, are parameters.
 */
module WpOptimizer {
  import opened Wrappers
  import opened Text

  /** 55 minutes: the token is assumed to live an hour. */
  const TokenLifetime: int := 55 * 60 * 1000

  datatype CachedToken = CachedToken(token: string, expiry: int)

  /** The cached token is still usable at time `now`. */
  predicate Fresh(slot: Option<CachedToken>, now: int) {
    slot.Some? && now < slot.value.expiry
  }

  /** A token worth caching: `if (token)` holds for a non-empty string only. */
  predicate Truthy(t: Option<string>) {
    t.Some? && t.value != []
  }

  /** The slot after a call that went to the issuer and got `issued` back at time `issuedAt`. */
  function Refilled(slot: Option<CachedToken>, issued: Option<string>, issuedAt: int): Option<CachedToken> {
    if Truthy(issued) then Some(CachedToken(issued.value, issuedAt + TokenLifetime)) else slot
  }

  /** The token `getOptimizedToken` hands its caller: the cached one while it is fresh, otherwise
      the issuer's answer. */
  function TokenFor(slot: Option<CachedToken>, now: int, issued: Option<string>): Option<string> {
    if Fresh(slot, now) then Some(slot.value.token) else issued
  }

  class TokenCache {
    var slot: Option<CachedToken>

    constructor()
      ensures slot == None
    {
      slot := None;
    }

    /**
     * `getOptimizedToken()` called at `now`.  When the cached token is fresh it is returned and
     * the issuer is not asked; otherwise the issuer is asked (`askedIssuer`), its answer `issued`
     * is returned as is, and cached until `issuedAt + 55 min` only when it is a non-empty string.
     */
    method GetOptimizedToken(now: int, issued: Option<string>, issuedAt: int) returns (token: Option<string>, askedIssuer: bool)
      modifies this
      ensures askedIssuer <==> !Fresh(old(slot), now)
      ensures !askedIssuer ==> token == Some(old(slot).value.token) && slot == old(slot)
      ensures askedIssuer ==> token == issued && slot == Refilled(old(slot), issued, issuedAt)
    {
      if slot.Some? && now < slot.value.expiry {
        return Some(slot.value.token), false;
      }
      token := issued;
      askedIssuer := true;
      if issued.Some? && issued.value != [] {
        slot := Some(CachedToken(issued.value, issuedAt + TokenLifetime));
      }
    }

    /** `clearTokenCache()`. */
    method ClearTokenCache()
      modifies this
      ensures slot == None
    {
      slot := None;
    }
  }

  /** A token fetched at `issuedAt` is served from the cache, without asking the issuer, by every
      call made less than 55 minutes later. */
  lemma RefilledServes(slot: Option<CachedToken>, issued: Option<string>, issuedAt: int, later: int)
    requires Truthy(issued) && later < issuedAt + TokenLifetime
    ensures Fresh(Refilled(slot, issued, issuedAt), later)
    ensures Refilled(slot, issued, issuedAt).value.token == issued.value
  {
  }

  /** A `null` or empty answer from the issuer is never cached: the slot stays as it was. */
  lemma FalsyNotCached(slot: Option<CachedToken>, issued: Option<string>, issuedAt: int)
    requires !Truthy(issued)
    ensures Refilled(slot, issued, issuedAt) == slot
  {
  }

  /** The options of `buildOptimizedQuery`; `None` is an omitted option. */
  datatype QueryOptions = QueryOptions(
    fields: Option<seq<string>>,
    status: Option<seq<string>>,
    perPage: Option<int>,
    page: Option<int>,
    search: Option<string>,
    orderBy: Option<string>,
    order: Option<string>)

  /** The seven query parameters the builder knows, in the order it appends them. */
  datatype Param = Fields | Status | PerPage | Page | Search | OrderBy | Order

  /** The name each parameter is sent under. */
  function Name(p: Param): string {
    match p
    case Fields => "_fields"
    case Status => "status"
    case PerPage => "per_page"
    case Page => "page"
    case Search => "search"
    case OrderBy => "orderby"
    case Order => "order"
  }

  /** Distinct parameters are sent under distinct names. */
  lemma NameInjective(p: Param, q: Param)
    requires Name(p) == Name(q)
    ensures p == q
  {
    assert |Name(p)| == |Name(q)|;
    assert Name(p)[0] == Name(q)[0];
    assert Name(p)[|Name(p)| - 1] == Name(q)[|Name(q)| - 1];
  }

  function Rank(p: Param): nat {
    match p
    case Fields => 0
    case Status => 1
    case PerPage => 2
    case Page => 3
    case Search => 4
    case OrderBy => 5
    case Order => 6
  }

  /** The value of the first occurrence of parameter `p`. */
  function ValueOf(query: seq<(Param, string)>, p: Param): Option<string> {
    if query == [] then None else if query[0].0 == p then Some(query[0].1) else ValueOf(query[1..], p)
  }

  predicate ListGiven(o: Option<seq<string>>) {
    o.Some? && |o.value| > 0
  }

  predicate NumberGiven(o: Option<int>) {
    o.Some? && o.value != 0
  }

  predicate TextGiven(o: Option<string>) {
    o.Some? && o.value != []
  }

  /** Whether `o` supplies parameter `p`: lists non-empty, numbers non-zero, strings non-empty. */
  predicate Given(o: QueryOptions, p: Param) {
    match p
    case Fields => ListGiven(o.fields)
    case Status => ListGiven(o.status)
    case PerPage => NumberGiven(o.perPage)
    case Page => NumberGiven(o.page)
    case Search => TextGiven(o.search)
    case OrderBy => TextGiven(o.orderBy)
    case Order => TextGiven(o.order)
  }

  /** The text sent for parameter `p` when it is given: lists comma-joined, numbers in decimal. */
  function ValueFor(o: QueryOptions, p: Param): string {
    match p
    case Fields => if o.fields.Some? then Join(o.fields.value, ",") else ""
    case Status => if o.status.Some? then Join(o.status.value, ",") else ""
    case PerPage => if o.perPage.Some? then IntToString(o.perPage.value) else ""
    case Page => if o.page.Some? then IntToString(o.page.value) else ""
    case Search => o.search.GetOr("")
    case OrderBy => o.orderBy.GetOr("")
    case Order => o.order.GetOr("")
  }

  /** `if (given) queryParams.append(name, value)`, as the parameters it adds. */
  function OptParam(o: QueryOptions, p: Param): seq<(Param, string)> {
    if Given(o, p) then [(p, ValueFor(o, p))] else []
  }

  /** The parameter the builder handles at step `i`. */
  function ParamAt(i: nat): (p: Param)
    requires i < 7
    ensures Rank(p) == i
  {
    if i == 0 then Fields else if i == 1 then Status else if i == 2 then PerPage else if i == 3 then Page
    else if i == 4 then Search else if i == 5 then OrderBy else Order
  }

  /** The parameters after the first `n` of the builder's seven steps. */
  function Steps(o: QueryOptions, n: nat): seq<(Param, string)>
    requires n <= 7
  {
    if n == 0 then [] else Steps(o, n - 1) + OptParam(o, ParamAt(n - 1))
  }

  /** The parameters after all seven steps. */
  function Supplied(o: QueryOptions): seq<(Param, string)> {
    OptParam(o, Fields) + OptParam(o, Status) + OptParam(o, PerPage) + OptParam(o, Page)
      + OptParam(o, Search) + OptParam(o, OrderBy) + OptParam(o, Order)
  }

  /** Parameters strictly in builder order (and so each at most once). */
  predicate InOrder(query: seq<(Param, string)>) {
    forall i, j | 0 <= i < j < |query| :: Rank(query[i].0) < Rank(query[j].0)
  }

  /** Every parameter present ranks below `bound`. */
  predicate RanksBelow(query: seq<(Param, string)>, bound: int) {
    forall i | 0 <= i < |query| :: Rank(query[i].0) < bound
  }

  /** The first `n` steps emit parameters of rank below `n`, in the builder's order. */
  lemma {:induction false} StepsInOrder(o: QueryOptions, n: nat)
    requires n <= 7
    ensures InOrder(Steps(o, n)) && RanksBelow(Steps(o, n), n)
  {
    if n > 0 {
      StepsInOrder(o, n - 1);
    }
  }

  lemma {:induction false} ValueOfConcat(a: seq<(Param, string)>, b: seq<(Param, string)>, p: Param)
    ensures ValueOf(a + b, p) == if ValueOf(a, p).Some? then ValueOf(a, p) else ValueOf(b, p)
  {
    if a == [] {
      assert a + b == b;
    } else {
      assert (a + b)[1..] == a[1..] + b;
      ValueOfConcat(a[1..], b, p);
    }
  }

  /** What one step contributes to the value of parameter `p`. */
  lemma OptParamValue(o: QueryOptions, step: Param, p: Param)
    ensures ValueOf(OptParam(o, step), p) == if p == step && Given(o, p) then Some(ValueFor(o, p)) else None
  {
  }

  /** After `n` steps, each parameter handled so far is present exactly when given, with its value;
      the others are absent. */
  lemma {:induction false} StepsValue(o: QueryOptions, n: nat, p: Param)
    requires n <= 7
    ensures ValueOf(Steps(o, n), p) == if Rank(p) < n && Given(o, p) then Some(ValueFor(o, p)) else None
  {
    if n > 0 {
      StepsValue(o, n - 1, p);
      ValueOfConcat(Steps(o, n - 1), OptParam(o, ParamAt(n - 1)), p);
      OptParamValue(o, ParamAt(n - 1), p);
      if p == ParamAt(n - 1) {
        assert Rank(p) == n - 1;
      }
    }
  }

  /** The seven steps written out are the recursive definition unfolded. */
  lemma SuppliedSteps(o: QueryOptions)
    ensures Supplied(o) == Steps(o, 7)
  {
    assert Steps(o, 1) == OptParam(o, Fields);
    assert Steps(o, 2) == OptParam(o, Fields) + OptParam(o, Status);
    assert Steps(o, 3) == OptParam(o, Fields) + OptParam(o, Status) + OptParam(o, PerPage);
    assert Steps(o, 4) == OptParam(o, Fields) + OptParam(o, Status) + OptParam(o, PerPage)
      + OptParam(o, Page);
    assert Steps(o, 5) == OptParam(o, Fields) + OptParam(o, Status) + OptParam(o, PerPage)
      + OptParam(o, Page) + OptParam(o, Search);
    assert Steps(o, 6) == OptParam(o, Fields) + OptParam(o, Status) + OptParam(o, PerPage)
      + OptParam(o, Page) + OptParam(o, Search) + OptParam(o, OrderBy);
    assert Steps(o, 7) == OptParam(o, Fields) + OptParam(o, Status) + OptParam(o, PerPage)
      + OptParam(o, Page) + OptParam(o, Search) + OptParam(o, OrderBy) + OptParam(o, Order);
  }

  /** The builder emits the parameters in its fixed order, each at most once. */
  lemma SuppliedInOrder(o: QueryOptions)
    ensures InOrder(Supplied(o))
  {
    SuppliedSteps(o);
    StepsInOrder(o, 7);
  }

  /** Each parameter is sent exactly when it is given, with its value. */
  lemma SuppliedValue(o: QueryOptions, p: Param)
    ensures ValueOf(Supplied(o), p) == if Given(o, p) then Some(ValueFor(o, p)) else None
  {
    SuppliedSteps(o);
    StepsValue(o, 7, p);
  }

  /**
   * `buildOptimizedQuery(params)`, as the list of (parameter, value) pairs appended to the
   * `URLSearchParams`: each option is appended when it is truthy (a list when non-empty), in
   * the fixed order `_fields`, `status`, `per_page`, `page`, `search`, `orderby`, `order`.
   */
  method BuildOptimizedQuery(o: QueryOptions) returns (query: seq<(Param, string)>)
    ensures query == Supplied(o)
    ensures InOrder(query)
    ensures forall p :: ValueOf(query, p) == if Given(o, p) then Some(ValueFor(o, p)) else None
  {
    query := [];
    if ListGiven(o.fields) {
      query := query + [(Fields, Join(o.fields.value, ","))];
    }
    assert query == OptParam(o, Fields);
    if ListGiven(o.status) {
      query := query + [(Status, Join(o.status.value, ","))];
    }
    assert query == OptParam(o, Fields) + OptParam(o, Status);
    if NumberGiven(o.perPage) {
      query := query + [(PerPage, IntToString(o.perPage.value))];
    }
    assert query == OptParam(o, Fields) + OptParam(o, Status) + OptParam(o, PerPage);
    if NumberGiven(o.page) {
      query := query + [(Page, IntToString(o.page.value))];
    }
    assert query == OptParam(o, Fields) + OptParam(o, Status) + OptParam(o, PerPage) + OptParam(o, Page);
    if TextGiven(o.search) {
      query := query + [(Search, o.search.value)];
    }
    assert query == OptParam(o, Fields) + OptParam(o, Status) + OptParam(o, PerPage)
      + OptParam(o, Page) + OptParam(o, Search);
    if TextGiven(o.orderBy) {
      query := query + [(OrderBy, o.orderBy.value)];
    }
    assert query == OptParam(o, Fields) + OptParam(o, Status) + OptParam(o, PerPage)
      + OptParam(o, Page) + OptParam(o, Search) + OptParam(o, OrderBy);
    if TextGiven(o.order) {
      query := query + [(Order, o.order.value)];
    }
    assert query == OptParam(o, Fields) + OptParam(o, Status) + OptParam(o, PerPage)
      + OptParam(o, Page) + OptParam(o, Search) + OptParam(o, OrderBy) + OptParam(o, Order);
    SuppliedInOrder(o);
    forall p {
      SuppliedValue(o, p);
    }
  }
}
