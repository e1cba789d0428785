/** The session-creation rate limit of `AcpGatewayAgent` (`src/openzues/services/acp_agent.py`). */
module RateLimit {
  /** A fixed window: when it started, and how many creations it has admitted. Times in milliseconds. */
  datatype Limiter = Limiter(max: nat, windowMs: int, startedAt: int, count: nat)

  datatype Verdict = Admitted | RetryAfter(seconds: int)

  predicate Valid(l: Limiter) {
    1 <= l.max && 1000 <= l.windowMs && l.count <= l.max
  }

  function Rolled(l: Limiter, now: int): Limiter {
    if now - l.startedAt >= l.windowMs then l.(startedAt := now, count := 0) else l
  }

  /** `_enforce_session_create_rate_limit` */
  function Enforce(l: Limiter, now: int): (Limiter, Verdict) {
    var r := Rolled(l, now);
    if r.count >= r.max then
      var retryMs := r.windowMs - (now - r.startedAt);
      (r, RetryAfter(((if retryMs < 1 then 1 else retryMs) + 999) / 1000))
    else (r.(count := r.count + 1), Admitted)
  }

  predicate Monotone(times: seq<int>) {
    forall i, j :: 0 <= i < j < |times| ==> times[i] <= times[j]
  }

  /** How many of these calls are admitted at a time in [lo, hi). */
  function AdmittedIn(l: Limiter, times: seq<int>, lo: int, hi: int): nat
    decreases |times|
  {
    if |times| == 0 then 0
    else
      var (n, verdict) := Enforce(l, times[0]);
      (if verdict.Admitted? && lo <= times[0] < hi then 1 else 0) + AdmittedIn(n, times[1..], lo, hi)
  }

  lemma {:induction false} WithinWindow(l: Limiter, times: seq<int>, lo: int, hi: int)
    requires Valid(l) && Monotone(times)
    requires hi <= l.startedAt + l.windowMs || (|times| > 0 && hi <= times[0])
    ensures AdmittedIn(l, times, lo, hi) <= l.max - l.count
    decreases |times|
  {
    if |times| > 0 {
      var n := Enforce(l, times[0]).0;
      if times[0] < hi {
        WithinWindow(n, times[1..], lo, hi);
      } else {
        NoneAfter(n, times[1..], lo, hi);
      }
    }
  }

  lemma {:induction false} NoneAfter(l: Limiter, times: seq<int>, lo: int, hi: int)
    requires forall i :: 0 <= i < |times| ==> hi <= times[i]
    ensures AdmittedIn(l, times, lo, hi) == 0
    decreases |times|
  {
    if |times| > 0 { NoneAfter(Enforce(l, times[0]).0, times[1..], lo, hi); }
  }

  lemma {:induction false} AfterStart(l: Limiter, times: seq<int>, lo: int, hi: int)
    requires Valid(l) && Monotone(times) && hi <= lo + l.windowMs
    requires forall i :: 0 <= i < |times| ==> lo <= times[i]
    ensures AdmittedIn(l, times, lo, hi) <= 2 * l.max - l.count
    decreases |times|
  {
    if |times| > 0 {
      var n := Enforce(l, times[0]).0;
      if times[0] - l.startedAt >= l.windowMs {
        WithinWindow(n, times[1..], lo, hi);
      } else {
        AfterStart(n, times[1..], lo, hi);
      }
    }
  }

  /** Under a clock that does not run backwards, no interval of one window length ever admits more than
      twice the configured maximum. */
  lemma {:induction false} AtMostTwiceTheMaximum(l: Limiter, times: seq<int>, lo: int)
    requires Valid(l) && Monotone(times)
    ensures AdmittedIn(l, times, lo, lo + l.windowMs) <= 2 * l.max
    decreases |times|
  {
    if |times| > 0 && times[0] < lo {
      AtMostTwiceTheMaximum(Enforce(l, times[0]).0, times[1..], lo);
    } else {
      AfterStart(l, times, lo, lo + l.windowMs);
    }
  }

  function Repeat(t: int, n: nat): seq<int> {
    seq(n, _ => t)
  }

  lemma {:induction false} BurstThen(l: Limiter, t: int, n: nat, rest: seq<int>, lo: int, hi: int)
    requires Valid(l) && l.startedAt <= t < l.startedAt + l.windowMs && l.count + n <= l.max && lo <= t < hi
    ensures AdmittedIn(l, Repeat(t, n) + rest, lo, hi) == n + AdmittedIn(l.(count := l.count + n), rest, lo, hi)
    decreases n
  {
    if n == 0 {
      assert Repeat(t, 0) + rest == rest;
    } else {
      assert (Repeat(t, n) + rest)[1..] == Repeat(t, n - 1) + rest;
      BurstThen(l.(count := l.count + 1), t, n - 1, rest, lo, hi);
    }
  }

  /** The bound is met: a full burst in the last millisecond of a window and another in the next. */
  lemma {:induction false} TwiceTheMaximumHappens(l: Limiter) returns (times: seq<int>)
    requires Valid(l) && l.count == 0
    ensures Monotone(times)
    ensures var lo := l.startedAt + l.windowMs - 1; AdmittedIn(l, times, lo, lo + l.windowMs) == 2 * l.max
  {
    var end := l.startedAt + l.windowMs;
    var lo, hi := end - 1, end - 1 + l.windowMs;
    var second := Repeat(end, l.max);
    times := Repeat(end - 1, l.max) + second;
    BurstThen(l, end - 1, l.max, second, lo, hi);
    var full := l.(count := l.max);
    assert second == [end] + Repeat(end, l.max - 1);
    assert second[1..] == Repeat(end, l.max - 1) + [];
    BurstThen(l.(startedAt := end, count := 1), end, l.max - 1, [], lo, hi);
  }

  /** A refused caller that comes back, with no other call in between, is admitted exactly when the window
      it hit has run out; waiting the advertised seconds is enough, and waits less than a second too long. */
  lemma RetryAdvice(l: Limiter, now: int, later: int)
    requires Valid(l) && l.startedAt <= now <= later && Enforce(l, now).1.RetryAfter?
    ensures Enforce(Enforce(l, now).0, later).1.Admitted? <==> later >= l.startedAt + l.windowMs
    ensures later >= now + 1000 * Enforce(l, now).1.seconds ==> Enforce(Enforce(l, now).0, later).1.Admitted?
    ensures now + 1000 * Enforce(l, now).1.seconds < l.startedAt + l.windowMs + 1000
  {
    var retryMs := l.windowMs - (now - l.startedAt);
    assert retryMs >= 1;
    assert 1000 * ((retryMs + 999) / 1000) >= retryMs;
  }

  class SessionCreateLimiter {
    const max: nat
    const windowMs: int
    var startedAt: int
    var count: nat

    ghost function View(): Limiter
      reads this
    {
      Limiter(max, windowMs, startedAt, count)
    }

    constructor (maxRequests: int, windowMs: int, now: int)
      ensures Valid(View()) && startedAt == now && count == 0
      ensures max == (if maxRequests < 1 then 1 else maxRequests)
      ensures this.windowMs == if windowMs < 1000 then 1000 else windowMs
    {
      max := if maxRequests < 1 then 1 else maxRequests;
      this.windowMs := if windowMs < 1000 then 1000 else windowMs;
      startedAt, count := now, 0;
    }

    method EnforceSessionCreateRateLimit(now: int) returns (verdict: Verdict)
      modifies this
      ensures (View(), verdict) == Enforce(old(View()), now)
    {
      var elapsed := now - startedAt;
      if elapsed >= windowMs {
        startedAt, count, elapsed := now, 0, 0;
      }
      if count >= max {
        var retryMs := if windowMs - elapsed < 1 then 1 else windowMs - elapsed;
        return RetryAfter((retryMs + 999) / 1000);
      }
      count := count + 1;
      return Admitted;
    }
  }
}
