/**
 The token bucket and the retrying wrapper of microvm/throttle.py.

 Time is a real number of seconds read from the monotonic clock inside the lock, so the visits of
 all threads to one bucket happen one after another at non-decreasing times. What a visit does is
 the function Visit; the class carries the fields the source updates.
 */
module Throttle {
  import opened Common

  // ---------------------------------------------------------------- one visit to a bucket

  datatype Bucket = Bucket(rate: real, capacity: nat, tokens: real, updated: real) {
    ghost predicate Valid() {
      rate > 0.0 && capacity >= 1 && 0.0 <= tokens <= capacity as real
    }
  }

  function Min(a: real, b: real): real { if a <= b then a else b }

  /** int(rate) for a positive rate. */
  function Truncate(rate: real): int { rate.Floor }

  function DefaultCapacity(rate: real, burst: Option<nat>): nat
    requires rate > 0.0
  {
    if burst.Some? && burst.value != 0 then burst.value
    else if Truncate(rate) > 1 then Truncate(rate) else 1
  }

  function Fresh(rate: real, burst: Option<nat>, now: real): Bucket
    requires rate > 0.0
  {
    var capacity := DefaultCapacity(rate, burst);
    Bucket(rate, capacity, capacity as real, now)
  }

  /** What a visit leaves behind and answers: a grant, or the time to wait. */
  datatype Visited = Granted(after: Bucket) | Denied(after: Bucket, wait: real)

  /** What flows in over a span of time. */
  function Inflow(rate: real, span: real): real { span * rate }

  lemma InflowIsAdditive(rate: real, a: real, b: real, c: real)
    requires a + b == c
    ensures Inflow(rate, a) + Inflow(rate, b) == Inflow(rate, c)
  {
  }

  lemma InflowIsMonotone(rate: real, a: real, b: real)
    requires rate > 0.0 && a <= b
    ensures Inflow(rate, a) <= Inflow(rate, b)
    ensures a >= 0.0 ==> Inflow(rate, a) >= 0.0
  {
    assert Inflow(rate, b) - Inflow(rate, a) == (b - a) * rate;
  }

  function Refill(b: Bucket, now: real): Bucket {
    b.(tokens := Min(b.capacity as real, b.tokens + Inflow(b.rate, now - b.updated)), updated := now)
  }

  function Visit(b: Bucket, now: real): Visited
    requires b.Valid()
  {
    var r := Refill(b, now);
    if r.tokens >= 1.0 then Granted(r.(tokens := r.tokens - 1.0)) else Denied(r, (1.0 - r.tokens) / b.rate)
  }

  lemma RefillStaysValid(b: Bucket, now: real)
    requires b.Valid() && b.updated <= now
    ensures Refill(b, now).Valid() && b.tokens <= Refill(b, now).tokens <= b.tokens + Inflow(b.rate, now - b.updated)
    ensures Visit(b, now).after.Valid()
  {
    InflowIsMonotone(b.rate, 0.0, now - b.updated);
  }

  /** A visit grants only what was there or flowed in. */
  lemma VisitBalances(b: Bucket, now: real)
    requires b.Valid() && b.updated <= now
    ensures var v := Visit(b, now);
            v.after.tokens + (if v.Granted? then 1.0 else 0.0) == Refill(b, now).tokens
            <= b.tokens + Inflow(b.rate, now - b.updated)
  {
    RefillStaysValid(b, now);
  }

  // ---------------------------------------------------------------- any interleaving of visits

  /** The visits of any number of threads in the order they took the lock: visit i, at times[i] on the
      monotonic clock, takes buckets[i] to buckets[i + 1]. */
  ghost predicate IsRun(buckets: seq<Bucket>, times: seq<real>) {
    && |buckets| == |times| + 1
    && buckets[0].Valid()
    && forall i :: 0 <= i < |times| ==> VisitAt(buckets, times, i)
  }

  ghost predicate VisitAt(buckets: seq<Bucket>, times: seq<real>, i: nat)
    requires |buckets| == |times| + 1 && i < |times|
  {
    buckets[i].Valid() && buckets[i].updated <= times[i] && buckets[i + 1] == Visit(buckets[i], times[i]).after
  }

  /** The number of grants among visits lo..hi-1. */
  ghost function Grants(buckets: seq<Bucket>, times: seq<real>, lo: nat, hi: nat): nat
    requires IsRun(buckets, times) && lo <= hi <= |times|
    decreases hi - lo
  {
    if lo == hi then 0
    else
      assert VisitAt(buckets, times, hi - 1);
      Grants(buckets, times, lo, hi - 1) + if Visit(buckets[hi - 1], times[hi - 1]).Granted? then 1 else 0
  }

  /** Tokens stay between 0 and the capacity, and rate and capacity never change. */
  lemma {:induction false} TokensInRange(buckets: seq<Bucket>, times: seq<real>, i: nat)
    requires IsRun(buckets, times) && i <= |times|
    ensures buckets[i].Valid() && buckets[i].rate == buckets[0].rate && buckets[i].capacity == buckets[0].capacity
    ensures i > 0 ==> buckets[i].updated == times[i - 1]
  {
    if i > 0 {
      TokensInRange(buckets, times, i - 1);
      assert VisitAt(buckets, times, i - 1);
      RefillStaysValid(buckets[i - 1], times[i - 1]);
    }
  }

  /** Conservation: what is granted from visit lo on, plus what is left, came from what was there at
      visit lo and what flowed in since. */
  lemma {:induction false} GrantsAreFunded(buckets: seq<Bucket>, times: seq<real>, lo: nat, hi: nat)
    requires IsRun(buckets, times) && lo < hi <= |times|
    ensures times[lo] <= times[hi - 1]
    ensures Grants(buckets, times, lo, hi) as real + buckets[hi].tokens
            <= Refill(buckets[lo], times[lo]).tokens + Inflow(buckets[0].rate, times[hi - 1] - times[lo])
    decreases hi
  {
    assert VisitAt(buckets, times, hi - 1);
    TokensInRange(buckets, times, hi - 1);
    VisitBalances(buckets[hi - 1], times[hi - 1]);
    if hi == lo + 1 {
      assert Grants(buckets, times, lo, lo) == 0;
    } else {
      GrantsAreFunded(buckets, times, lo, hi - 1);
      InflowIsAdditive(buckets[0].rate, times[hi - 2] - times[lo], times[hi - 1] - times[hi - 2],
          times[hi - 1] - times[lo]);
    }
  }

  /** Sliding window: whatever threads call and whenever, the visits that fall in a window [s, t] are
      granted at most capacity + rate * (t - s) times. */
  lemma SlidingWindow(buckets: seq<Bucket>, times: seq<real>, lo: nat, hi: nat, s: real, t: real)
    requires IsRun(buckets, times) && lo <= hi <= |times| && s <= t
    requires forall i :: lo <= i < hi ==> s <= times[i] <= t
    ensures Grants(buckets, times, lo, hi) as real <= buckets[0].capacity as real + Inflow(buckets[0].rate, t - s)
  {
    InflowIsMonotone(buckets[0].rate, 0.0, t - s);
    if lo < hi {
      GrantsAreFunded(buckets, times, lo, hi);
      TokensInRange(buckets, times, lo);
      TokensInRange(buckets, times, hi);
      InflowIsMonotone(buckets[0].rate, times[hi - 1] - times[lo], t - s);
    }
  }

  /** A refill with no time gone, or of a full bucket, changes nothing but the time stamp. */
  lemma RefillKeeps(b: Bucket, now: real)
    requires b.Valid() && b.updated <= now
    requires b.updated == now || b.tokens == b.capacity as real
    ensures Refill(b, now).tokens == b.tokens
  {
    RefillStaysValid(b, now);
  }

  /** The burst term of the bound is real: a full bucket grants the first capacity visits even when they
      come at one instant, so the bucket does not keep calls under the rate. */
  lemma {:induction false} BurstIsGranted(buckets: seq<Bucket>, times: seq<real>, n: nat)
    requires IsRun(buckets, times) && buckets[0].tokens == buckets[0].capacity as real
    requires n <= |times| && n <= buckets[0].capacity
    requires forall i, j :: 0 <= i < n && 0 <= j < n ==> times[i] == times[j]
    ensures Grants(buckets, times, 0, n) == n
    ensures buckets[n].tokens == (buckets[0].capacity - n) as real
    decreases n
  {
    if n > 0 {
      BurstIsGranted(buckets, times, n - 1);
      assert VisitAt(buckets, times, n - 1);
      TokensInRange(buckets, times, n - 1);
      RefillKeeps(buckets[n - 1], times[n - 1]);
    }
  }

  // ---------------------------------------------------------------- a lone acquirer

  /** When a lone acquire that starts at `now` gets its token, and the bucket it leaves, if its sleep
      lasts `late` longer than asked. */
  function LoneAcquire(b: Bucket, now: real, late: real): (r: (Bucket, real))
    requires b.Valid() && b.updated <= now && late >= 0.0
  {
    var v := Visit(b, now);
    if v.Granted? then (v.after, now)
    else
      RefillStaysValid(b, now);
      var t := now + v.wait + late;
      (Visit(v.after, t).after, t)
  }

  lemma WaitFillsOneToken(rate: real, missing: real, late: real)
    requires rate > 0.0 && missing >= 0.0 && late >= 0.0
    ensures missing / rate >= 0.0
    ensures Inflow(rate, missing / rate + late) >= missing
    ensures late == 0.0 ==> Inflow(rate, missing / rate + late) == missing
  {
    assert (missing / rate) * rate == missing;
    InflowIsMonotone(rate, 0.0, late);
    InflowIsAdditive(rate, missing / rate, late, missing / rate + late);
  }

  /** A denied lone acquirer is granted on its next visit: it sleeps at most once, and never longer
      than one token takes to flow in. */
  lemma SleepsAtMostOnce(b: Bucket, now: real, late: real)
    requires b.Valid() && b.updated <= now && late >= 0.0 && Visit(b, now).Denied?
    ensures var v := Visit(b, now);
            && v.wait >= 0.0 && v.after.Valid()
            && Visit(v.after, now + v.wait + late).Granted?
            && v.wait <= 1.0 / b.rate
            && (late == 0.0 ==> Visit(v.after, now + v.wait).after.tokens == 0.0)
  {
    var v := Visit(b, now);
    RefillStaysValid(b, now);
    WaitFillsOneToken(b.rate, 1.0 - v.after.tokens, late);
    WaitFillsOneToken(b.rate, 1.0 - v.after.tokens, 0.0);
    WaitFillsOneToken(b.rate, v.after.tokens, 0.0);
    assert v.wait + v.after.tokens / b.rate == 1.0 / b.rate;
  }

  lemma LoneAcquireValid(b: Bucket, now: real, late: real)
    requires b.Valid() && b.updated <= now && late >= 0.0
    ensures var (c, t) := LoneAcquire(b, now, late);
            c.Valid() && c.updated == t >= now && c.rate == b.rate && c.capacity == b.capacity
  {
    RefillStaysValid(b, now);
    if Visit(b, now).Denied? {
      SleepsAtMostOnce(b, now, late);
      RefillStaysValid(Visit(b, now).after, now + Visit(b, now).wait + late);
    }
  }

  class TokenBucket {
    const rate: real
    const capacity: nat
    var tokens: real
    var updated: real
    ghost var granted: nat  // tokens taken so far

    ghost function View(): Bucket
      reads this
    {
      Bucket(rate, capacity, tokens, updated)
    }

    constructor (ratePerSecond: real, burst: Option<nat>, now: real)
      requires ratePerSecond > 0.0
      ensures View() == Fresh(ratePerSecond, burst, now) && View().Valid()
    {
      rate := ratePerSecond;
      capacity := DefaultCapacity(ratePerSecond, burst);
      tokens := DefaultCapacity(ratePerSecond, burst) as real;
      updated := now;
      granted := 0;
    }

    /** One pass through the locked block of acquire(): None when a token was taken. */
    method TryAcquire(now: real) returns (wait: Option<real>)
      requires View().Valid() && updated <= now
      modifies this`tokens, this`updated, this`granted
      ensures granted == old(granted) + if wait == None then 1 else 0
      ensures View() == Visit(old(View()), now).after && View().Valid()
      ensures wait == match Visit(old(View()), now) case Granted(_) => None case Denied(_, w) => Some(w)
    {
      RefillStaysValid(View(), now);
      tokens := Min(capacity as real, tokens + Inflow(rate, now - updated));
      updated := now;
      if tokens >= 1.0 {
        tokens := tokens - 1.0;
        granted := granted + 1;
        return None;
      }
      return Some((1.0 - tokens) / rate);
    }

    /** acquire() when no other thread visits the bucket in between: it ends after one or two passes. */
    method Acquire(now: real, late: real) returns (end: real, passes: nat)
      requires View().Valid() && updated <= now && late >= 0.0
      modifies this`tokens, this`updated, this`granted
      ensures granted == old(granted) + 1
      ensures View().Valid() && (View(), end) == LoneAcquire(old(View()), now, late)
      ensures passes == if Visit(old(View()), now).Granted? then 1 else 2
    {
      end, passes := now, 0;
      var taken := false;
      LoneAcquireValid(View(), now, late);
      while !taken
        invariant View().Valid() && updated <= end && passes <= 2
        invariant granted == old(granted) + if taken then 1 else 0
        invariant passes == 0 ==> View() == old(View()) && end == now && !taken
        invariant passes == 1 ==> taken == Visit(old(View()), now).Granted? && View() == Visit(old(View()), now).after
        invariant passes == 1 ==> end == if taken then now else now + Visit(old(View()), now).wait + late
        invariant passes == 2 ==>
                  taken && Visit(old(View()), now).Denied? && (View(), end) == LoneAcquire(old(View()), now, late)
        decreases 2 - passes, !taken
      {
        if passes == 1 {
          SleepsAtMostOnce(old(View()), now, late);
        }
        var wait := TryAcquire(end);
        passes := passes + 1;
        if wait == None {
          taken := true;
        } else {
          if passes == 1 {
            SleepsAtMostOnce(old(View()), now, late);
          }
          end := end + wait.value + late;
        }
      }
    }
  }

  // ---------------------------------------------------------------- retries

  /** The error code of a ClientError; Other stands for every code outside RETRYABLE. */
  datatype Code = Throttling | TooManyRequests | ServiceQuotaExceeded | Other(code: string)

  /** What the wrapped API call does on one attempt. */
  datatype Answer = Success(value: int) | ClientError(code: Code) | OtherError(text: string) {
    predicate Retryable() { ClientError? && !code.Other? }
    predicate OverQuota() { ClientError? && code.ServiceQuotaExceeded? }
  }

  /** The environment of one attempt: the answer, how long the call took, the random jitter drawn after
      it, and how late a sleep in acquire() woke. */
  datatype Attempt = Attempt(answer: Answer, latency: real, jitter: real, late: real)

  function QuotaPause(attempt: nat): real { if 10 * attempt < 45 then (10 * attempt) as real else 45.0 }

  /** How long the loop sleeps after a retryable error of the given attempt (1, 2, ...). */
  function Pause(attempt: nat, a: Attempt, delay: real): real {
    if a.answer.OverQuota() then QuotaPause(attempt) + a.jitter else delay + a.jitter
  }

  function NextDelay(a: Attempt, delay: real): real {
    if a.answer.OverQuota() then delay else Min(delay * 2.0, 8.0)
  }

  /** n attempts are made: up to the first answer that is not retried, or the last attempt allowed. */
  ghost predicate EndsAfter(env: seq<Attempt>, max: int, n: nat)
    requires max <= |env|
  {
    if max <= 0 then n == 0
    else
      && 1 <= n <= max
      && (forall k :: 0 <= k < n - 1 ==> env[k].answer.Retryable())
      && (n < max ==> !env[n - 1].answer.Retryable())
  }

  /** The loop's `delay` before attempt n + 1. */
  function DelayAfter(env: seq<Attempt>, n: nat): real
    requires n <= |env|
  {
    if n == 0 then 0.5 else NextDelay(env[n - 1], DelayAfter(env, n - 1))
  }

  function ThrottlingErrors(env: seq<Attempt>, n: nat): nat
    requires n <= |env|
  {
    if n == 0 then 0 else ThrottlingErrors(env, n - 1) + if env[n - 1].answer.OverQuota() then 0 else 1
  }

  function Doubled(n: nat): (d: real)
    ensures d >= 0.5
  {
    if n == 0 then 0.5 else 2.0 * Doubled(n - 1)
  }

  /** The backoff in closed form: half a second, doubled once for each throttling error so far, at most
      8 s. Quota errors do not move it. */
  lemma {:induction false} BackoffClosedForm(env: seq<Attempt>, n: nat)
    requires n <= |env|
    ensures DelayAfter(env, n) == Min(Doubled(ThrottlingErrors(env, n)), 8.0)
    ensures 0.5 <= DelayAfter(env, n) <= 8.0
  {
    if n > 0 {
      BackoffClosedForm(env, n - 1);
    }
  }

  /** The jitter of each attempt falls in the interval random.uniform is given. */
  ghost predicate Possible(env: seq<Attempt>) {
    forall k :: 0 <= k < |env| ==> PossibleAt(env, k)
  }

  ghost predicate PossibleAt(env: seq<Attempt>, k: nat)
    requires k < |env|
  {
    env[k].latency >= 0.0 && env[k].late >= 0.0 &&
    0.0 <= env[k].jitter <= if env[k].answer.OverQuota() then 5.0 else DelayAfter(env, k)
  }

  /** Every pause is positive, and at most twice the backoff delay (50 s after a quota error). */
  lemma PauseInRange(env: seq<Attempt>, k: nat)
    requires k < |env| && PossibleAt(env, k)
    ensures var delay := DelayAfter(env, k);
            var pause := Pause(k + 1, env[k], delay);
            0.5 <= delay <= 8.0 && 0.0 < pause <= if env[k].answer.OverQuota() then 50.0 else 2.0 * delay
  {
    BackoffClosedForm(env, k);
  }

  class Throttled {
    const bucket: TokenBucket
    const maxAttempts: int

    constructor (ratePerSecond: real, maxAttempts: int, now: real)
      requires ratePerSecond > 0.0
      ensures fresh(bucket) && bucket.View() == Fresh(ratePerSecond, None, now) && this.maxAttempts == maxAttempts
    {
      this.maxAttempts := maxAttempts;
      bucket := new TokenBucket(ratePerSecond, None, now);
    }

    /** One attempt: take a token, then make the API call. */
    method TryOnce(a: Attempt, start: real) returns (end: real)
      requires bucket.View().Valid() && bucket.updated <= start && a.latency >= 0.0 && a.late >= 0.0
      modifies bucket
      ensures bucket.View().Valid() && bucket.updated <= end && start <= end
      ensures bucket.granted == old(bucket.granted) + 1
    {
      LoneAcquireValid(bucket.View(), start, a.late);
      var passes;
      end, passes := bucket.Acquire(start, a.late);
      end := end + a.latency;
    }

    /** One call through the wrapper, in the environment env. The answer is None only when no attempt is
        allowed. */
    method Call(env: seq<Attempt>, start: real)
                returns (answer: Option<Answer>, calls: nat, sleeps: seq<real>, end: real)
      requires bucket.View().Valid() && bucket.updated <= start
      requires maxAttempts <= |env| && Possible(env)
      modifies bucket
      ensures bucket.View().Valid() && bucket.updated <= end && start <= end
      ensures EndsAfter(env, maxAttempts, calls)
      ensures bucket.granted == old(bucket.granted) + calls
      ensures answer == if calls == 0 then None else Some(env[calls - 1].answer)
      ensures |sleeps| == if calls == 0 then 0 else calls - 1
      ensures forall k {:trigger sleeps[k]} ::
              0 <= k < |sleeps| ==> sleeps[k] == Pause(k + 1, env[k], DelayAfter(env, k))
    {
      var delay := 0.5;
      answer, calls, sleeps, end := None, 0, [], start;
      var attempt := 1;
      while attempt <= maxAttempts
        invariant 1 <= attempt && (attempt <= maxAttempts || (attempt == 1 && maxAttempts <= 0))
        invariant bucket.View().Valid() && bucket.updated <= end && start <= end
        invariant calls == |sleeps| == attempt - 1 && answer == None
        invariant bucket.granted == old(bucket.granted) + calls
        invariant attempt - 1 <= |env| && forall k :: 0 <= k < attempt - 1 ==> env[k].answer.Retryable()
        invariant delay == DelayAfter(env, attempt - 1)
        invariant forall k {:trigger sleeps[k]} ::
                  0 <= k < |sleeps| ==> sleeps[k] == Pause(k + 1, env[k], DelayAfter(env, k))
      {
        var a := env[attempt - 1];
        assert PossibleAt(env, attempt - 1);
        end := TryOnce(a, end);
        calls := calls + 1;
        if !a.answer.Retryable() || attempt == maxAttempts {
          return Some(a.answer), calls, sleeps, end;
        }
        PauseInRange(env, attempt - 1);
        var pause;
        if a.answer.OverQuota() {
          pause := QuotaPause(attempt) + a.jitter;
        } else {
          pause := delay + a.jitter;
          delay := Min(delay * 2.0, 8.0);
        }
        sleeps := sleeps + [pause];
        end := end + pause;
        attempt := attempt + 1;
      }
    }
  }
}
