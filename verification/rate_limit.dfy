/**
 * The sliding-window rate limiter: a map from `userId:action` to the times (in milliseconds)
 * of the requests it let through.  A request is admitted when fewer than `requests` of the
 * stored times lie within the last `window` milliseconds; the stored list is then pruned
 * and the new time appended.
 */
module RateLimit {
  import opened Wrappers
  import opened Text

  datatype Action = Default | Create | Update | Delete | Auth

  datatype Limit = Limit(requests: nat, window: nat)

  /** The per-action limits. */
  function LimitOf(a: Action): Limit {
    match a
    case Default => Limit(60, 60000)
    case Create => Limit(10, 60000)
    case Update => Limit(20, 60000)
    case Delete => Limit(5, 60000)
    case Auth => Limit(5, 300000)
  }

  function ActionName(a: Action): (s: string)
    ensures ':' !in s
  {
    match a
    case Default => "default"
    case Create => "create"
    case Update => "update"
    case Delete => "delete"
    case Auth => "auth"
  }

  /** The store key `${userId}:${action}`. */
  function StoreKey(userId: string, a: Action): string {
    userId + ":" + ActionName(a)
  }

  /** Two (user, action) pairs never share a store key, whatever characters the user id holds. */
  lemma StoreKeyInjective(u1: string, a1: Action, u2: string, a2: Action)
    requires StoreKey(u1, a1) == StoreKey(u2, a2)
    ensures u1 == u2 && a1 == a2
  {
    ColonSuffixInjective(u1, ActionName(a1), u2, ActionName(a2));
  }

  /** The text after the last colon, and the text before it, determine a key. */
  lemma ColonSuffixInjective(u1: string, n1: string, u2: string, n2: string)
    requires ':' !in n1 && ':' !in n2
    requires u1 + ":" + n1 == u2 + ":" + n2
    ensures u1 == u2 && n1 == n2
  {
    var k := u1 + ":" + n1;
    LastColonOf(u1, n1);
    LastColonOf(u2, n2);
    assert |u1| == |u2|;
    assert u1 == k[..|u1|] == u2;
    assert n1 == k[|u1| + 1..] == n2;
  }

  /** The position of the last `:` in `k`. */
  function LastColon(k: string): Option<nat>
    decreases |k|
  {
    if k == [] then None
    else if k[|k| - 1] == ':' then Some(|k| - 1)
    else LastColon(k[..|k| - 1])
  }

  lemma {:induction false} LastColonOf(u: string, n: string)
    requires ':' !in n
    ensures LastColon(u + ":" + n) == Some(|u|)
    decreases |n|
  {
    var k := u + ":" + n;
    if n != [] {
      assert k[|k| - 1] == n[|n| - 1];
      assert k[..|k| - 1] == u + ":" + n[..|n| - 1];
      LastColonOf(u, n[..|n| - 1]);
    }
  }

  /** `times.filter(t => now - t < window)`. */
  function Live(times: seq<int>, now: int, window: int): (r: seq<int>)
    ensures |r| <= |times|
    ensures forall i | 0 <= i < |r| :: now - r[i] < window && r[i] in times
    decreases |times|
  {
    if times == [] then []
    else
      var last := times[|times| - 1];
      var rest := Live(times[..|times| - 1], now, window);
      if now - last < window then rest + [last] else rest
  }

  /** The outcome of one check against a key's stored times. */
  datatype Decision = Decision(allowed: bool, entry: seq<int>)

  /** One check at time `now`: admit when fewer than `requests` stored times are live. */
  function Admit(entry: seq<int>, limit: Limit, now: int): (d: Decision)
    ensures d.allowed <==> |Live(entry, now, limit.window)| < limit.requests
    ensures d.allowed ==> d.entry != [] && |d.entry| <= limit.requests && d.entry[|d.entry| - 1] == now
    ensures !d.allowed ==> d.entry == entry
  {
    var live := Live(entry, now, limit.window);
    if |live| >= limit.requests then Decision(false, entry) else Decision(true, live + [now])
  }

  /** `rateLimitStore.get(key) || []`. */
  function Stored(store: map<string, seq<int>>, key: string): seq<int> {
    if key in store then store[key] else []
  }

  /** The store after one `RateLimiter.check(userId, action)` at time `now`. */
  function Charged(store: map<string, seq<int>>, userId: string, action: Action, now: int): map<string, seq<int>> {
    var key := StoreKey(userId, action);
    var d := Admit(Stored(store, key), LimitOf(action), now);
    if d.allowed then store[key := d.entry] else store
  }

  /** The in-memory store shared by every route that calls `RateLimiter.check`. */
  class RateLimiter {
    var store: map<string, seq<int>>

    constructor()
      ensures store == map[]
    {
      store := map[];
    }

    /** `rateLimitStore.get(key) || []`. */
    function Entry(key: string): seq<int>
      reads this
    {
      Stored(store, key)
    }

    /** `RateLimiter.check(userId, action)` at time `now`: a denial leaves the store as it was;
        an admission replaces only this key's list by its live times followed by `now`. */
    method Check(userId: string, action: Action, now: int) returns (allowed: bool)
      modifies this
      ensures allowed == Admit(old(Entry(StoreKey(userId, action))), LimitOf(action), now).allowed
      ensures store == Charged(old(store), userId, action, now)
    {
      var key := StoreKey(userId, action);
      var limit := LimitOf(action);
      var valid := Live(Entry(key), now, limit.window);
      if |valid| >= limit.requests {
        return false;
      }
      store := store[key := valid + [now]];
      allowed := true;
    }

    /** `RateLimiter.getRemainingRequests(userId, action)` at time `now`: never negative, never
        above the limit, and positive exactly when a check at the same time would be admitted. */
    function RemainingRequests(userId: string, action: Action, now: int): (n: nat)
      reads this
      ensures n <= LimitOf(action).requests
      ensures n > 0 <==> Admit(Entry(StoreKey(userId, action)), LimitOf(action), now).allowed
      ensures n > 0 ==> n + |Live(Entry(StoreKey(userId, action)), now, LimitOf(action).window)| == LimitOf(action).requests
    {
      var limit := LimitOf(action);
      var valid := Live(Entry(StoreKey(userId, action)), now, limit.window);
      if limit.requests - |valid| > 0 then limit.requests - |valid| else 0
    }
  }

  // ---------------------------------------------------------------------------------------
  // A run of checks on one key, and the sliding-window guarantee it gives.

  predicate Sorted(times: seq<int>) {
    forall i, j | 0 <= i < j < |times| :: times[i] <= times[j]
  }

  /** The stored list and the admitted times after checking the key at each of `times`,
      starting from an empty entry. */
  function Replay(times: seq<int>, limit: Limit): (r: (seq<int>, seq<int>))
    decreases |times|
  {
    if times == [] then ([], [])
    else
      var t := times[|times| - 1];
      var (entry, admitted) := Replay(times[..|times| - 1], limit);
      var d := Admit(entry, limit, t);
      (d.entry, if d.allowed then admitted + [t] else admitted)
  }

  /** The admitted times that fall in the window `(end - window, end]`. */
  function InWindow(times: seq<int>, end: int, window: int): seq<int> {
    Live(UpTo(times, end), end, window)
  }

  function UpTo(times: seq<int>, end: int): (r: seq<int>)
    ensures forall i | 0 <= i < |r| :: r[i] <= end
    decreases |times|
  {
    if times == [] then []
    else
      var last := times[|times| - 1];
      var rest := UpTo(times[..|times| - 1], end);
      if last <= end then rest + [last] else rest
  }

  /** Pruning at `t` and then at a later `now` is pruning at `now`. */
  lemma {:induction false} LiveTwice(times: seq<int>, t: int, now: int, window: int)
    requires t <= now
    ensures Live(Live(times, t, window), now, window) == Live(times, now, window)
    decreases |times|
  {
    if times != [] {
      var init := times[..|times| - 1];
      LiveTwice(init, t, now, window);
      var last := times[|times| - 1];
      var inner := Live(init, t, window);
      if t - last < window {
        LiveSnoc(inner, last, now, window);
      }
    }
  }

  lemma LiveSnoc(times: seq<int>, x: int, now: int, window: int)
    ensures Live(times + [x], now, window) == if now - x < window then Live(times, now, window) + [x] else Live(times, now, window)
  {
    assert (times + [x])[..|times|] == times;
  }

  /** A later `now` never leaves more times live. */
  lemma {:induction false} LiveShrinks(times: seq<int>, t: int, now: int, window: int)
    requires t <= now
    ensures |Live(times, now, window)| <= |Live(times, t, window)|
    decreases |times|
  {
    if times != [] {
      LiveShrinks(times[..|times| - 1], t, now, window);
    }
  }

  /** Nothing is live once the window has passed every time. */
  lemma {:induction false} LiveNone(times: seq<int>, now: int, window: int)
    requires forall i | 0 <= i < |times| :: now - times[i] >= window
    ensures Live(times, now, window) == []
    decreases |times|
  {
    if times != [] {
      LiveNone(times[..|times| - 1], now, window);
    }
  }

  lemma UpToSnoc(times: seq<int>, x: int, end: int)
    ensures UpTo(times + [x], end) == if x <= end then UpTo(times, end) + [x] else UpTo(times, end)
  {
    assert (times + [x])[..|times|] == times;
  }

  lemma {:induction false} UpToAll(times: seq<int>, end: int)
    requires forall i | 0 <= i < |times| :: times[i] <= end
    ensures UpTo(times, end) == times
    decreases |times|
  {
    if times != [] {
      UpToAll(times[..|times| - 1], end);
    }
  }

  /** Every admitted time is one of the checked times, so none is later than the last check. */
  lemma {:induction false} ReplayAdmittedBounded(times: seq<int>, limit: Limit, bound: int)
    requires forall i | 0 <= i < |times| :: times[i] <= bound
    ensures forall i | 0 <= i < |Replay(times, limit).1| :: Replay(times, limit).1[i] <= bound
    decreases |times|
  {
    if times != [] {
      var init := times[..|times| - 1];
      ReplayAdmittedBounded(init, limit, bound);
      var entry, admitted := Replay(init, limit).0, Replay(init, limit).1;
      var d := Admit(entry, limit, times[|times| - 1]);
      var r := if d.allowed then admitted + [times[|times| - 1]] else admitted;
      assert Replay(times, limit).1 == r;
      assert forall i | 0 <= i < |admitted| :: admitted[i] <= bound;
      assert forall i | 0 <= i < |r| :: r[i] <= bound;
    }
  }

  /** The stored list and the admitted times agree on what is live at any time not before the last check. */
  lemma {:induction false} ReplayLive(times: seq<int>, limit: Limit, now: int)
    requires Sorted(times)
    requires forall i | 0 <= i < |times| :: times[i] <= now
    ensures var (entry, admitted) := Replay(times, limit);
      Live(entry, now, limit.window) == Live(admitted, now, limit.window)
    decreases |times|
  {
    if times != [] {
      var init := times[..|times| - 1];
      var t := times[|times| - 1];
      var (entry, admitted) := Replay(init, limit);
      ReplayLive(init, limit, now);
      var d := Admit(entry, limit, t);
      if d.allowed {
        ReplayLive(init, limit, t);
        LiveSnoc(Live(entry, t, limit.window), t, now, limit.window);
        LiveTwice(entry, t, now, limit.window);
        LiveSnoc(admitted, t, now, limit.window);
      }
    }
  }

  /**
   * The sliding-window guarantee: whatever the sequence of check times, no window of
   * `limit.window` milliseconds holds more than `limit.requests` admitted requests.
   */
  lemma {:induction false} WindowCap(times: seq<int>, limit: Limit, end: int)
    requires Sorted(times)
    ensures |InWindow(Replay(times, limit).1, end, limit.window)| <= limit.requests
    decreases |times|
  {
    if times != [] {
      var init := times[..|times| - 1];
      var t := times[|times| - 1];
      var entry, admitted := Replay(init, limit).0, Replay(init, limit).1;
      assert Sorted(init);
      WindowCap(init, limit, end);
      var d := Admit(entry, limit, t);
      assert Replay(times, limit).1 == if d.allowed then admitted + [t] else admitted;
      if d.allowed {
        assert forall i | 0 <= i < |init| :: init[i] <= t;
        ReplayAdmittedBounded(init, limit, t);
        ReplayLive(init, limit, t);
        WindowCapStep(admitted, entry, t, end, limit);
      }
    }
  }

  /** Admitting a request at `t` keeps every window within the limit. */
  lemma WindowCapStep(admitted: seq<int>, entry: seq<int>, t: int, end: int, limit: Limit)
    requires forall i | 0 <= i < |admitted| :: admitted[i] <= t
    requires Live(entry, t, limit.window) == Live(admitted, t, limit.window)
    requires |Live(entry, t, limit.window)| < limit.requests
    requires |InWindow(admitted, end, limit.window)| <= limit.requests
    ensures |InWindow(admitted + [t], end, limit.window)| <= limit.requests
  {
    var w := limit.window;
    UpToSnoc(admitted, t, end);
    if t <= end {
      UpToAll(admitted, end);
      assert UpTo(admitted + [t], end) == admitted + [t];
      if end - t >= w {
        LiveNone(admitted + [t], end, w);
      } else {
        LiveSnoc(admitted, t, end, w);
        LiveShrinks(admitted, t, end, w);
      }
    }
  }
}
