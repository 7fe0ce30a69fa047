/**
 * The in-process sliding-window limiter of src/utils/rateLimiter.js.
 * State maps a key (an e-mail address) to the timestamps of its recent
 * attempts; the clock reading `now` (milliseconds) is passed in.
 */
module RateLimiter {

  datatype Limiter = Limiter(maxAttempts: int, timeWindow: int, attempts: map<string, seq<int>>)

  /** `new RateLimiter(maxAttempts, timeWindow)`: no attempts recorded. */
  function NewLimiter(maxAttempts: int, timeWindow: int): Limiter {
    Limiter(maxAttempts, timeWindow, map[])
  }

  /** Login and sign-up: 5 attempts per 5 minutes. */
  const AuthLimiter := NewLimiter(5, 300000)

  /** Password-reset requests: 3 attempts per 10 minutes. */
  const ResetLimiter := NewLimiter(3, 600000)

  /** AI requests: 3 per minute (configured, never consulted by the client). */
  const AiLimiter := NewLimiter(3, 60000)

  /** The stored list for `key`, `[]` when there is none (`get(key) || []`). */
  function Stored(l: Limiter, key: string): seq<int> {
    if key in l.attempts then l.attempts[key] else []
  }

  /** A timestamp still counts while it is strictly less than a window old. */
  predicate InWindow(t: int, now: int, window: int) {
    now - t < window
  }

  /** The attempts still inside the window, in their stored order. */
  function Recent(ts: seq<int>, now: int, window: int): (r: seq<int>)
    ensures |r| <= |ts|
    ensures forall i :: 0 <= i < |r| ==> InWindow(r[i], now, window)
    ensures forall t :: t in r <==> t in ts && InWindow(t, now, window)
  {
    if |ts| == 0 then []
    else (if InWindow(ts[0], now, window) then [ts[0]] else []) + Recent(ts[1..], now, window)
  }

  /**
   * Pruning keeps every recent attempt as often as it was stored and drops
   * every other: equal timestamps are counted, not merged.
   */
  lemma {:induction false} RecentCounts(ts: seq<int>, now: int, window: int)
    ensures forall t :: multiset(Recent(ts, now, window))[t] == (if InWindow(t, now, window) then multiset(ts)[t] else 0)
  {
    if |ts| > 0 {
      RecentCounts(ts[1..], now, window);
      assert ts == [ts[0]] + ts[1..];
    }
  }

  /** When every attempt is recent, nothing is pruned. */
  lemma {:induction false} RecentKeepsAll(ts: seq<int>, now: int, window: int)
    requires forall i :: 0 <= i < |ts| ==> InWindow(ts[i], now, window)
    ensures Recent(ts, now, window) == ts
  {
    if |ts| > 0 {
      RecentKeepsAll(ts[1..], now, window);
      assert [ts[0]] + ts[1..] == ts;
    }
  }

  predicate Sorted(ts: seq<int>) {
    forall i, j :: 0 <= i < j < |ts| ==> ts[i] <= ts[j]
  }

  /** Pruning keeps the surviving attempts in order. */
  lemma {:induction false} RecentSorted(ts: seq<int>, now: int, window: int)
    requires Sorted(ts)
    ensures Sorted(Recent(ts, now, window))
  {
    if |ts| > 0 {
      RecentSorted(ts[1..], now, window);
      var rest := Recent(ts[1..], now, window);
      forall t | t in rest
        ensures ts[0] <= t
      {
        var i :| 0 <= i < |ts[1..]| && ts[1..][i] == t;
        assert ts[i + 1] == t;
      }
    }
  }

  /**
   * `isRateLimited(key)`: `true` (and no change at all) when the key already
   * has `maxAttempts` recent attempts; otherwise `false`, and the key's list
   * becomes its recent attempts followed by `now`. Other keys are untouched.
   */
  function IsRateLimited(l: Limiter, key: string, now: int): (r: (bool, Limiter))
    ensures r.1.maxAttempts == l.maxAttempts && r.1.timeWindow == l.timeWindow
    ensures r.0 <==> |Recent(Stored(l, key), now, l.timeWindow)| >= l.maxAttempts
    ensures r.0 ==> r.1 == l
    ensures !r.0 ==> Stored(r.1, key) == Recent(Stored(l, key), now, l.timeWindow) + [now]
    ensures forall k :: k != key ==> (k in r.1.attempts <==> k in l.attempts) && Stored(r.1, k) == Stored(l, k)
  {
    var recent := Recent(Stored(l, key), now, l.timeWindow);
    if |recent| >= l.maxAttempts then (true, l)
    else (false, l.(attempts := l.attempts[key := recent + [now]]))
  }

  /**
   * `getRemainingTime(key)`: how long until the oldest stored attempt leaves
   * the window, never negative, and 0 for a key with nothing stored.
   */
  function RemainingTime(l: Limiter, key: string, now: int): (r: int)
    ensures r >= 0
    ensures Stored(l, key) == [] ==> r == 0
    ensures Stored(l, key) != [] && now >= Stored(l, key)[0] && l.timeWindow >= 0 ==> r <= l.timeWindow
    ensures Stored(l, key) != [] && r > 0 ==> r == l.timeWindow - (now - Stored(l, key)[0])
  {
    var ts := Stored(l, key);
    if |ts| == 0 then 0
    else
      var remaining := l.timeWindow - (now - ts[0]);
      if remaining > 0 then remaining else 0
  }

  /** `clearAttempts(key)`: forgets the key, and only that key. */
  function ClearAttempts(l: Limiter, key: string): (r: Limiter)
    ensures key !in r.attempts
    ensures r.maxAttempts == l.maxAttempts && r.timeWindow == l.timeWindow
    ensures forall k :: k != key ==> (k in r.attempts <==> k in l.attempts) && Stored(r, k) == Stored(l, k)
  {
    l.(attempts := l.attempts - {key})
  }

  /** No stored list is longer than the limit. */
  predicate Bounded(l: Limiter) {
    forall k :: k in l.attempts ==> |l.attempts[k]| <= l.maxAttempts
  }

  /** Every stored list is in time order and none lies in the future. */
  predicate Chronological(l: Limiter, now: int) {
    forall k :: k in l.attempts ==> Sorted(l.attempts[k]) && forall i :: 0 <= i < |l.attempts[k]| ==> l.attempts[k][i] <= now
  }

  /** A check never lets a stored list grow past `maxAttempts`. */
  lemma IsRateLimitedKeepsBounded(l: Limiter, key: string, now: int)
    requires Bounded(l)
    ensures Bounded(IsRateLimited(l, key, now).1)
  {
  }

  /** With a clock that does not run backwards, stored lists stay in time order. */
  lemma IsRateLimitedKeepsChronological(l: Limiter, key: string, before: int, now: int)
    requires Chronological(l, before) && before <= now
    ensures Chronological(IsRateLimited(l, key, now).1, now)
  {
    var ts := Stored(l, key);
    if key in l.attempts {
      RecentSorted(ts, now, l.timeWindow);
    }
    AppendLatest(Recent(ts, now, l.timeWindow), ts, now);
  }

  /** Appending a timestamp no earlier than any kept one keeps the list in order. */
  lemma AppendLatest(recent: seq<int>, ts: seq<int>, now: int)
    requires Sorted(recent)
    requires forall t :: t in recent ==> t in ts
    requires forall i :: 0 <= i < |ts| ==> ts[i] <= now
    ensures Sorted(recent + [now])
    ensures forall i :: 0 <= i < |recent + [now]| ==> (recent + [now])[i] <= now
  {
    var next := recent + [now];
    forall i | 0 <= i < |next|
      ensures next[i] <= now
    {
      if i < |recent| {
        assert recent[i] in recent;
        assert recent[i] in ts;
      }
    }
  }

  /** Clearing preserves both invariants. */
  lemma ClearAttemptsKeepsInvariants(l: Limiter, key: string, now: int)
    requires Bounded(l) && Chronological(l, now)
    ensures Bounded(ClearAttempts(l, key)) && Chronological(ClearAttempts(l, key), now)
  {
  }

  /** In a chronological limiter the wait never exceeds one window. */
  lemma RemainingTimeWithinWindow(l: Limiter, key: string, now: int)
    requires Chronological(l, now) && l.timeWindow >= 0
    ensures 0 <= RemainingTime(l, key, now) <= l.timeWindow
  {
  }

  /** After `clearAttempts(key)` there is no wait and the next check passes. */
  lemma ClearThenCheck(l: Limiter, key: string, now: int)
    requires l.maxAttempts >= 1
    ensures RemainingTime(ClearAttempts(l, key), key, now) == 0
    ensures !IsRateLimited(ClearAttempts(l, key), key, now).0
  {
  }

  /** The checks made at `times`, in order, against one key: each outcome and the final state. */
  function RunChecks(l: Limiter, key: string, times: seq<int>): (r: (seq<bool>, Limiter))
    ensures |r.0| == |times|
  {
    if |times| == 0 then ([], l)
    else
      var prev := RunChecks(l, key, times[..|times| - 1]);
      var step := IsRateLimited(prev.1, key, times[|times| - 1]);
      (prev.0 + [step.0], step.1)
  }

  predicate NonDecreasing(times: seq<int>) {
    forall i, j :: 0 <= i < j < |times| ==> times[i] <= times[j]
  }

  function Min(a: int, b: int): int {
    if a <= b then a else b
  }

  /**
   * Checks against a key with nothing stored, all within one window of the
   * first: the first `maxAttempts` pass, every later one is limited, and the
   * stored list holds the passing timestamps.
   */
  lemma {:induction false} BurstWithinWindow(l: Limiter, key: string, times: seq<int>)
    requires l.maxAttempts >= 0
    requires Stored(l, key) == []
    requires NonDecreasing(times)
    requires |times| > 0 ==> times[|times| - 1] - times[0] < l.timeWindow
    ensures forall i :: 0 <= i < |times| ==> (RunChecks(l, key, times).0[i] <==> i >= l.maxAttempts)
    ensures Stored(RunChecks(l, key, times).1, key) == times[..Min(|times|, l.maxAttempts)]
  {
    BurstState(l, key, times);
    if |times| > 0 {
      var n := |times| - 1;
      PrefixWithinWindow(times, l.timeWindow);
      BurstWithinWindow(l, key, times[..n]);
      BurstLastOutcome(l, key, times);
    }
  }

  /** The stored list after a burst holds the timestamps of the checks that passed. */
  lemma {:induction false} BurstState(l: Limiter, key: string, times: seq<int>)
    requires l.maxAttempts >= 0
    requires Stored(l, key) == []
    requires NonDecreasing(times)
    requires |times| > 0 ==> times[|times| - 1] - times[0] < l.timeWindow
    ensures Stored(RunChecks(l, key, times).1, key) == times[..Min(|times|, l.maxAttempts)]
    ensures RunChecks(l, key, times).1.maxAttempts == l.maxAttempts
    ensures RunChecks(l, key, times).1.timeWindow == l.timeWindow
  {
    if |times| > 0 {
      var n := |times| - 1;
      PrefixWithinWindow(times, l.timeWindow);
      BurstState(l, key, times[..n]);
      PassedAreRecent(times, Min(n, l.maxAttempts), l.timeWindow);
      BurstStateStep(RunChecks(l, key, times[..n]).1, key, times);
    }
  }

  /** One more check of a burst appends its timestamp while fewer than `maxAttempts` are stored. */
  lemma BurstStateStep(l: Limiter, key: string, times: seq<int>)
    requires l.maxAttempts >= 0 && |times| > 0
    requires Stored(l, key) == times[..Min(|times| - 1, l.maxAttempts)]
    requires forall i :: 0 <= i < |Stored(l, key)| ==> InWindow(Stored(l, key)[i], times[|times| - 1], l.timeWindow)
    ensures Stored(IsRateLimited(l, key, times[|times| - 1]).1, key) == times[..Min(|times|, l.maxAttempts)]
  {
    var n := |times| - 1;
    BurstStep(l, key, times[n]);
    if n < l.maxAttempts {
      TakeSnoc(times, n);
    } else {
      assert times[..n][..l.maxAttempts] == times[..l.maxAttempts];
    }
  }

  /** The last check of a burst is limited exactly when `maxAttempts` checks came before it. */
  lemma BurstLastOutcome(l: Limiter, key: string, times: seq<int>)
    requires l.maxAttempts >= 0
    requires Stored(l, key) == []
    requires |times| > 0 && NonDecreasing(times)
    requires times[|times| - 1] - times[0] < l.timeWindow
    ensures RunChecks(l, key, times).0[|times| - 1] <==> |times| - 1 >= l.maxAttempts
    ensures RunChecks(l, key, times).0[..|times| - 1] == RunChecks(l, key, times[..|times| - 1]).0
  {
    var n := |times| - 1;
    PrefixWithinWindow(times, l.timeWindow);
    BurstState(l, key, times[..n]);
    var prev := RunChecks(l, key, times[..n]);
    PassedAreRecent(times, Min(n, l.maxAttempts), l.timeWindow);
    BurstStep(prev.1, key, times[n]);
  }

  /** One check against a key whose stored attempts are all recent. */
  lemma BurstStep(l: Limiter, key: string, now: int)
    requires forall i :: 0 <= i < |Stored(l, key)| ==> InWindow(Stored(l, key)[i], now, l.timeWindow)
    ensures IsRateLimited(l, key, now).0 <==> |Stored(l, key)| >= l.maxAttempts
    ensures !IsRateLimited(l, key, now).0 ==> Stored(IsRateLimited(l, key, now).1, key) == Stored(l, key) + [now]
  {
    RecentKeepsAll(Stored(l, key), now, l.timeWindow);
  }

  lemma TakeSnoc(s: seq<int>, n: int)
    requires 0 <= n < |s|
    ensures s[..n] + [s[n]] == s[..n + 1]
  {
  }

  /** Dropping the last check keeps the burst within the window. */
  lemma PrefixWithinWindow(times: seq<int>, window: int)
    requires |times| > 0 && NonDecreasing(times)
    requires times[|times| - 1] - times[0] < window
    ensures NonDecreasing(times[..|times| - 1])
    ensures var p := times[..|times| - 1]; |p| > 0 ==> p[|p| - 1] - p[0] < window
  {
    var p := times[..|times| - 1];
    if |p| > 0 {
      assert p[|p| - 1] <= times[|times| - 1];
    }
  }

  /** Every passed check of a burst is still inside the window at its last check. */
  lemma PassedAreRecent(times: seq<int>, m: int, window: int)
    requires |times| > 0 && NonDecreasing(times)
    requires times[|times| - 1] - times[0] < window
    requires 0 <= m <= |times| - 1
    ensures forall i :: 0 <= i < m ==> InWindow(times[..m][i], times[|times| - 1], window)
  {
    forall i | 0 <= i < m
      ensures InWindow(times[..m][i], times[|times| - 1], window)
    {
      assert times[0] <= times[i];
    }
  }

  /**
   * The login limiter: five attempts within five minutes pass, the sixth is
   * refused, and the refusal comes with a positive wait.
   */
  lemma AuthLimiterSixthAttempt(key: string, times: seq<int>)
    requires |times| == 6 && NonDecreasing(times)
    requires times[5] - times[0] < 300000
    ensures RunChecks(AuthLimiter, key, times).0 == [false, false, false, false, false, true]
    ensures RemainingTime(RunChecks(AuthLimiter, key, times).1, key, times[5]) > 0
  {
    BurstWithinWindow(AuthLimiter, key, times);
    BurstState(AuthLimiter, key, times);
    var r := RunChecks(AuthLimiter, key, times);
    assert Stored(r.1, key) == times[..5];
    assert Stored(r.1, key)[0] == times[0];
    assert r.0 == [false, false, false, false, false, true];
  }

  /** The reset limiter: three attempts within ten minutes pass, the fourth is refused. */
  lemma ResetLimiterFourthAttempt(key: string, times: seq<int>)
    requires |times| == 4 && NonDecreasing(times)
    requires times[3] - times[0] < 600000
    ensures RunChecks(ResetLimiter, key, times).0 == [false, false, false, true]
  {
    BurstWithinWindow(ResetLimiter, key, times);
  }
}
