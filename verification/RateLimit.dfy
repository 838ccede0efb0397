/** The shared fixed-window rate limiter (app/ratelimit.py). Instants are microseconds since the epoch;
    windows are aligned to multiples of their length in whole seconds. Every call, on any scope, first
    prunes all buckets that started more than an hour before it. */
module RateLimit {

  const SECOND: int := 1_000_000
  const PRUNE_AFTER: int := 3_600_000_000

  type Buckets = map<(string, int), nat>

  datatype Call = Call(scope: string, limit: nat, window: nat, now: nat)

  datatype Outcome = Within | Limited(retryAfter: nat)

  predicate Sensible(c: Call) {
    c.window > 0
  }

  function WindowStart(now: int, window: nat): int
    requires window > 0
  {
    (now / SECOND - now / SECOND % window) * SECOND
  }

  function Key(c: Call): (string, int)
    requires Sensible(c)
  {
    (c.scope, WindowStart(c.now, c.window))
  }

  function Pruned(b: Buckets, now: int): Buckets {
    map k | k in b && k.1 >= now - PRUNE_AFTER :: b[k]
  }

  function CountOf(b: Buckets, k: (string, int)): nat {
    if k in b then b[k] else 0
  }

  /** The table after one call: a rejected call consumes budget too. */
  function Counted(b: Buckets, c: Call): Buckets
    requires Sensible(c)
  {
    var kept := Pruned(b, c.now);
    kept[Key(c) := CountOf(kept, Key(c)) + 1]
  }

  class RateLimiter {
    var buckets: Buckets

    constructor ()
      ensures buckets == map[]
    {
      buckets := map[];
    }

    /** `check_rate`. */
    method CheckRate(c: Call) returns (r: Outcome)
      requires Sensible(c)
      modifies this
      ensures buckets == Counted(old(buckets), c)
      ensures forall k :: k != Key(c) ==>
        && (k in buckets <==> k in old(buckets) && c.now - 60 * 60 * 1_000_000 <= k.1)
        && (k in buckets ==> buckets[k] == old(buckets)[k])
      ensures r.Within? <==> CountOf(buckets, Key(c)) <= c.limit
      ensures r.Limited? ==> 1 <= r.retryAfter <= c.window && (c.now / SECOND + r.retryAfter) * SECOND == WindowStart(c.now, c.window) + c.window * SECOND
    {
      var epoch := c.now / SECOND;
      var start := (epoch - epoch % c.window) * SECOND;
      buckets := Pruned(buckets, c.now);
      var count := 1;
      if (c.scope, start) in buckets { count := buckets[(c.scope, start)] + 1; }
      buckets := buckets[(c.scope, start) := count];
      if count > c.limit { return Limited(c.window - epoch % c.window); }
      r := Within;
    }
  }

  // ------------------------------------------------------------------ runs

  /** The table after a run of calls. */
  function After(calls: seq<Call>): Buckets
    requires forall c :: c in calls ==> Sensible(c)
  {
    if calls == [] then map[] else Counted(After(calls[..|calls| - 1]), calls[|calls| - 1])
  }

  /** Whether the last call of a run was let through. */
  predicate LastPasses(calls: seq<Call>)
    requires calls != [] && forall c :: c in calls ==> Sensible(c)
  {
    CountOf(After(calls), Key(calls[|calls| - 1])) <= calls[|calls| - 1].limit
  }

  /** The clock never goes back. */
  predicate InOrder(calls: seq<Call>) {
    forall i, j :: 0 <= i <= j < |calls| ==> calls[i].now <= calls[j].now
  }

  /** One scope is always called with one limit and one window; other scopes may do as they like. */
  predicate Uniform(calls: seq<Call>, scope: string, limit: nat, window: nat) {
    forall c :: c in calls ==> Sensible(c) && (c.scope == scope ==> c.limit == limit && c.window == window)
  }

  /** The call falls in the aligned window beginning at `start`. */
  predicate Falls(c: Call, scope: string, window: nat, start: int)
    requires window > 0
  {
    c.scope == scope && WindowStart(c.now, window) == start
  }

  function CallsIn(calls: seq<Call>, scope: string, window: nat, start: int): nat
    requires window > 0
  {
    if calls == [] then 0
    else CallsIn(calls[..|calls| - 1], scope, window, start) + if Falls(calls[|calls| - 1], scope, window, start) then 1 else 0
  }

  function AcceptedIn(calls: seq<Call>, scope: string, window: nat, start: int): nat
    requires window > 0 && forall c :: c in calls ==> Sensible(c)
  {
    if calls == [] then 0
    else AcceptedIn(calls[..|calls| - 1], scope, window, start)
         + if Falls(calls[|calls| - 1], scope, window, start) && LastPasses(calls) then 1 else 0
  }

  /** Accepted calls in any half-open interval of one window's length. */
  function AcceptedFrom(calls: seq<Call>, scope: string, window: nat, a: int): nat
    requires forall c :: c in calls ==> Sensible(c)
  {
    if calls == [] then 0
    else
      var c := calls[|calls| - 1];
      AcceptedFrom(calls[..|calls| - 1], scope, window, a)
      + if c.scope == scope && a <= c.now < a + window * SECOND && LastPasses(calls) then 1 else 0
  }

  lemma InsideWindow(now: int, window: nat)
    requires window > 0
    ensures WindowStart(now, window) <= now < WindowStart(now, window) + window * SECOND
  {
  }

  /** While a window of at most an hour is live its bucket holds exactly the calls made in it: whatever
      other scopes do, it is never pruned. */
  lemma {:induction false} LiveBucketCounts(calls: seq<Call>, scope: string, limit: nat, window: nat, start: int, t: int)
    requires 0 < window <= 3600 && Uniform(calls, scope, limit, window)
    requires t < start + window * SECOND && forall c :: c in calls ==> c.now <= t
    ensures CountOf(After(calls), (scope, start)) == CallsIn(calls, scope, window, start)
  {
    if calls != [] {
      var front, c := calls[..|calls| - 1], calls[|calls| - 1];
      assert c in calls;
      LiveBucketCounts(front, scope, limit, window, start, t);
    }
  }

  /** In every aligned window exactly the first `limit` calls are let through. */
  lemma {:induction false} ExactlyTheFirstPass(calls: seq<Call>, scope: string, limit: nat, window: nat, start: int)
    requires 0 < window <= 3600 && Uniform(calls, scope, limit, window) && InOrder(calls)
    ensures AcceptedIn(calls, scope, window, start)
         == if CallsIn(calls, scope, window, start) < limit then CallsIn(calls, scope, window, start) else limit
  {
    if calls != [] {
      var c := calls[|calls| - 1];
      assert c in calls;
      ExactlyTheFirstPass(calls[..|calls| - 1], scope, limit, window, start);
      if Falls(c, scope, window, start) {
        InsideWindow(c.now, window);
        LiveBucketCounts(calls, scope, limit, window, start, c.now);
      }
    }
  }

  lemma Multiples(q: int, p: int, window: nat)
    requires window > 0 && (q - 1) * window < p * window < (q + 2) * window
    ensures p == q || p == q + 1
  {
  }

  /** An interval of one window's length meets at most two aligned windows. */
  lemma TwoWindows(a: int, now: int, window: nat)
    requires window > 0 && a <= now < a + window * SECOND
    ensures WindowStart(now, window) == WindowStart(a, window) || WindowStart(now, window) == WindowStart(a, window) + window * SECOND
  {
    InsideWindow(a, window);
    InsideWindow(now, window);
    var q, p := a / SECOND / window, now / SECOND / window;
    assert a / SECOND - a / SECOND % window == q * window;
    assert now / SECOND - now / SECOND % window == p * window;
    assert (q - 1) * window == q * window - window && (q + 2) * window == q * window + 2 * window;
    Multiples(q, p, window);
    assert (q + 1) * window == q * window + window;
  }

  lemma {:induction false} TwoWindowsCover(calls: seq<Call>, scope: string, window: nat, a: int)
    requires window > 0 && forall c :: c in calls ==> Sensible(c)
    ensures AcceptedFrom(calls, scope, window, a)
         <= AcceptedIn(calls, scope, window, WindowStart(a, window)) + AcceptedIn(calls, scope, window, WindowStart(a, window) + window * SECOND)
  {
    if calls != [] {
      var c := calls[|calls| - 1];
      TwoWindowsCover(calls[..|calls| - 1], scope, window, a);
      if a <= c.now < a + window * SECOND { TwoWindows(a, c.now, window); }
    }
  }

  /** Windows of up to an hour: at most `limit` calls pass in an aligned window and at most twice that in any
      interval of the same length, over every run whose clock never goes back. */
  lemma AtMostTwiceTheLimit(calls: seq<Call>, scope: string, limit: nat, window: nat, a: int)
    requires 0 < window <= 3600 && Uniform(calls, scope, limit, window) && InOrder(calls)
    ensures AcceptedIn(calls, scope, window, a) <= limit
    ensures AcceptedFrom(calls, scope, window, a) <= 2 * limit
  {
    TwoWindowsCover(calls, scope, window, a);
    ExactlyTheFirstPass(calls, scope, limit, window, WindowStart(a, window));
    ExactlyTheFirstPass(calls, scope, limit, window, WindowStart(a, window) + window * SECOND);
    ExactlyTheFirstPass(calls, scope, limit, window, a);
  }

  // ------------------------------------------------------------------ longer windows

  /** Calls at the last microsecond of the first window. */
  function Burst(scope: string, limit: nat, window: nat, n: nat): seq<Call>
    requires window > 0
  {
    seq(n, i => Call(scope, limit, window, window * SECOND - 1))
  }

  lemma LastMoment(window: nat)
    requires window > 0
    ensures (window * SECOND - 1) / SECOND == window - 1 && WindowStart(window * SECOND - 1, window) == 0
  {
    assert window * SECOND - 1 == (window - 1) * SECOND + (SECOND - 1);
    assert (window - 1) % window == window - 1;
  }

  lemma {:induction false} BurstPasses(scope: string, limit: nat, window: nat, n: nat)
    requires limit > 0 && window > 3600
    ensures AcceptedIn(Burst(scope, limit, window, n), scope, window, 0) == n
    ensures n > 0 ==> CountOf(After(Burst(scope, limit, window, n)), (scope, 0)) == 1
  {
    LastMoment(window);
    if n > 0 {
      var calls := Burst(scope, limit, window, n);
      BurstPasses(scope, limit, window, n - 1);
      assert calls[..n - 1] == Burst(scope, limit, window, n - 1);
    }
  }

  ghost predicate KeepsLimit(limit: nat, window: nat)
    requires window > 0
  {
    forall calls: seq<Call>, scope, start ::
      Uniform(calls, scope, limit, window) && InOrder(calls) ==> AcceptedIn(calls, scope, window, start) <= limit
  }

  /** Exactly which windows are limited at all: those of at most an hour. In a longer one the bucket is pruned
      while it is live, so late calls count from nothing. */
  lemma KeepsLimitIffAtMostAnHour(limit: nat, window: nat)
    requires limit > 0 && window > 0
    ensures KeepsLimit(limit, window) <==> window <= 3600
  {
    if window <= 3600 {
      forall calls: seq<Call>, scope, start | Uniform(calls, scope, limit, window) && InOrder(calls)
        ensures AcceptedIn(calls, scope, window, start) <= limit
      {
        ExactlyTheFirstPass(calls, scope, limit, window, start);
      }
    } else {
      var calls := Burst("scope", limit, window, limit + 1);
      BurstPasses("scope", limit, window, limit + 1);
      assert Uniform(calls, "scope", limit, window) && InOrder(calls);
    }
  }
}
