/**
 * `HealthMonitor`: a log of reported errors, newest first and never longer than 1000 entries,
 * and the statistics computed over the entries of a recent time window.  Times are
 * milliseconds; the clock reading `now` is a parameter.
 */
module Health {
  import opened Wrappers
  import opened Errors

  /** The parts of an `ErrorDetails` record the statistics read (its timestamp as milliseconds). */
  datatype ErrorRecord = ErrorRecord(kind: ErrorType, statusCode: int, retryable: bool, timestamp: int)

  const MaxErrors: nat := 1000
  const DefaultWindow: int := 3600000

  /** The log after `recordError(e)`: `e` in front, then the oldest entries cut beyond the cap. */
  function Recorded(log: seq<ErrorRecord>, e: ErrorRecord): (r: seq<ErrorRecord>)
    ensures |r| == if |log| + 1 > MaxErrors then MaxErrors else |log| + 1
    ensures r[0] == e
    ensures r[1..] <= log
  {
    var grown := [e] + log;
    assert grown[1..] == log;
    if |grown| > MaxErrors then grown[..MaxErrors] else grown
  }

  /** Only the entries strictly newer than `cutoff`, in log order. */
  function Recent(log: seq<ErrorRecord>, cutoff: int): (r: seq<ErrorRecord>)
    ensures |r| <= |log|
  {
    if log == [] then []
    else if log[0].timestamp > cutoff then [log[0]] + Recent(log[1..], cutoff)
    else Recent(log[1..], cutoff)
  }

  /** The recent entries are exactly the log's entries newer than the cutoff. */
  lemma {:induction false} RecentMembers(log: seq<ErrorRecord>, cutoff: int, e: ErrorRecord)
    ensures e in Recent(log, cutoff) <==> e in log && e.timestamp > cutoff
  {
    if log != [] {
      RecentMembers(log[1..], cutoff, e);
      assert e in log <==> e == log[0] || e in log[1..] by {
        assert log == [log[0]] + log[1..];
      }
    }
  }

  function CountRetryable(s: seq<ErrorRecord>): (n: nat)
    ensures n <= |s|
  {
    if s == [] then 0 else (if s[|s| - 1].retryable then 1 else 0) + CountRetryable(s[..|s| - 1])
  }

  /** Entries whose status is 500 or above. */
  function CountCritical(s: seq<ErrorRecord>): (n: nat)
    ensures n <= |s|
  {
    if s == [] then 0 else (if s[|s| - 1].statusCode >= 500 then 1 else 0) + CountCritical(s[..|s| - 1])
  }

  function CountKind(s: seq<ErrorRecord>, k: ErrorType): (n: nat)
    ensures n <= |s|
  {
    if s == [] then 0 else (if s[|s| - 1].kind == k then 1 else 0) + CountKind(s[..|s| - 1], k)
  }

  /** `byType[name] = (byType[name] || 0) + 1`. */
  function Bump(byType: map<string, nat>, name: string): (r: map<string, nat>)
    ensures name in r && r[name] == (if name in byType then byType[name] else 0) + 1
    ensures forall n | n != name :: (n in r <==> n in byType) && (n in byType ==> r[n] == byType[n])
  {
    byType[name := (if name in byType then byType[name] else 0) + 1]
  }

  /** The `byType` dictionary after counting the entries of `s` in order. */
  function ByType(s: seq<ErrorRecord>): map<string, nat> {
    if s == [] then map[] else Bump(ByType(s[..|s| - 1]), TypeName(s[|s| - 1].kind))
  }

  /** `byType` holds, under each kind's name, exactly the number of entries of that kind, and
      names no kind that does not occur. */
  lemma {:induction false} ByTypeCounts(s: seq<ErrorRecord>, k: ErrorType)
    ensures TypeName(k) in ByType(s) <==> CountKind(s, k) > 0
    ensures TypeName(k) in ByType(s) ==> ByType(s)[TypeName(k)] == CountKind(s, k)
  {
    if s != [] {
      var init := s[..|s| - 1];
      ByTypeCounts(init, k);
      if s[|s| - 1].kind != k {
        if TypeName(s[|s| - 1].kind) == TypeName(k) {
          TypeNameInjective(s[|s| - 1].kind, k);
        }
      }
    }
  }

  /** Every name in `byType` is the name of a kind that occurs. */
  lemma {:induction false} ByTypeKeys(s: seq<ErrorRecord>, name: string)
    requires name in ByType(s)
    ensures exists i :: 0 <= i < |s| && TypeName(s[i].kind) == name
  {
    var init := s[..|s| - 1];
    if name != TypeName(s[|s| - 1].kind) {
      ByTypeKeys(init, name);
      var i :| 0 <= i < |init| && TypeName(init[i].kind) == name;
      assert s[i] == init[i];
    }
  }

  /** The per-kind counts added up over all ten kinds. */
  function KindSum(s: seq<ErrorRecord>): nat {
    CountKind(s, ValidationKind) + CountKind(s, AuthenticationKind) + CountKind(s, AuthorizationKind)
    + CountKind(s, NotFoundKind) + CountKind(s, RateLimitKind) + CountKind(s, WordPressApiKind)
    + CountKind(s, SupabaseKind) + CountKind(s, NetworkKind) + CountKind(s, InternalKind)
    + CountKind(s, ExternalServiceKind)
  }

  /** The per-kind counts add up to the number of entries: every entry is counted under one kind. */
  lemma {:induction false} KindCountsSum(s: seq<ErrorRecord>)
    ensures KindSum(s) == |s|
  {
    if s != [] {
      KindCountsSum(s[..|s| - 1]);
    }
  }

  /** Counting one more entry of the log. */
  lemma CountStep(s: seq<ErrorRecord>, i: nat)
    requires i < |s|
    ensures ByType(s[..i + 1]) == Bump(ByType(s[..i]), TypeName(s[i].kind))
    ensures CountRetryable(s[..i + 1]) == CountRetryable(s[..i]) + if s[i].retryable then 1 else 0
    ensures CountCritical(s[..i + 1]) == CountCritical(s[..i]) + if s[i].statusCode >= 500 then 1 else 0
  {
    assert s[..i + 1][..i] == s[..i];
  }

  datatype ErrorStats = ErrorStats(total: nat, byType: map<string, nat>, retryableErrors: nat, criticalErrors: nat)

  /** The statistics of `getErrorStats(window)` over a log at time `now`. */
  function Stats(log: seq<ErrorRecord>, now: int, window: int): ErrorStats {
    var recent := Recent(log, now - window);
    ErrorStats(|recent|, ByType(recent), CountRetryable(recent), CountCritical(recent))
  }

  /** What the statistics promise: counts bounded by the total, the kinds summing to it. */
  lemma StatsConsistent(log: seq<ErrorRecord>, now: int, window: int)
    ensures var st := Stats(log, now, window);
      st.retryableErrors <= st.total && st.criticalErrors <= st.total && st.total <= |log|
    ensures KindSum(Recent(log, now - window)) == Stats(log, now, window).total
  {
    KindCountsSum(Recent(log, now - window));
  }

  class HealthMonitor {
    var errors: seq<ErrorRecord>

    predicate Valid()
      reads this
    {
      |errors| <= MaxErrors
    }

    constructor()
      ensures errors == [] && Valid()
    {
      errors := [];
    }

    /** `HealthMonitor.recordError(error)`. */
    method RecordError(e: ErrorRecord)
      modifies this
      ensures errors == Recorded(old(errors), e)
      ensures Valid()
    {
      errors := [e] + errors;
      if |errors| > MaxErrors {
        errors := errors[..MaxErrors];
      }
    }

    /** `HealthMonitor.getErrorStats(timeWindow = 3600000)` at time `now`. */
    method GetErrorStats(now: int, timeWindow: Option<int>) returns (st: ErrorStats)
      ensures st == Stats(errors, now, timeWindow.GetOr(DefaultWindow))
      ensures st.retryableErrors <= st.total && st.criticalErrors <= st.total
    {
      var cutoff := now - timeWindow.GetOr(DefaultWindow);
      var recent := Recent(errors, cutoff);
      var byType: map<string, nat> := map[];
      var retryableErrors := 0;
      var criticalErrors := 0;
      var i := 0;
      while i < |recent|
        invariant 0 <= i <= |recent|
        invariant byType == ByType(recent[..i])
        invariant retryableErrors == CountRetryable(recent[..i])
        invariant criticalErrors == CountCritical(recent[..i])
      {
        var error := recent[i];
        CountStep(recent, i);
        byType := Bump(byType, TypeName(error.kind));
        if error.retryable {
          retryableErrors := retryableErrors + 1;
        }
        if error.statusCode >= 500 {
          criticalErrors := criticalErrors + 1;
        }
        i := i + 1;
      }
      assert recent[..i] == recent;
      st := ErrorStats(|recent|, byType, retryableErrors, criticalErrors);
    }

    /** `HealthMonitor.isHealthy()` at time `now`: fewer than 10 critical and fewer than 100 errors
        in the last hour. */
    method IsHealthy(now: int) returns (healthy: bool)
      ensures healthy <==>
        CountCritical(Recent(errors, now - DefaultWindow)) < 10 && |Recent(errors, now - DefaultWindow)| < 100
    {
      var stats := GetErrorStats(now, None);
      healthy := stats.criticalErrors < 10 && stats.total < 100;
    }
  }
}
