/**
 The launch time of plan_fanout (microvm/lease.py) measured against the token bucket it has to go
 through (microvm/throttle.py).

 A wave takes its tokens one after another from a bucket nobody else uses, with no API latency; a VM
 is running RESTORE_S after its launch; and the next wave starts when the whole wave is running.
 */
module WaveSchedule {
  import opened Common
  import Throttle
  import Sizing

  type Bucket = Throttle.Bucket

  /** n tokens taken one after another from `now`: the bucket afterwards and the time of the last one. */
  function Take(b: Bucket, now: real, n: nat): (r: (Bucket, real))
    requires b.Valid() && b.updated <= now
    ensures n == 0 ==> r == (b, now)
    ensures r.0.Valid() && r.0.updated <= r.1 && now <= r.1 && r.0.rate == b.rate && r.0.capacity == b.capacity
    ensures n > 0 ==> r.0.updated == r.1
  {
    if n == 0 then (b, now)
    else
      var (c, t) := Take(b, now, n - 1);
      Throttle.LoneAcquireValid(c, t, 0.0);
      Throttle.LoneAcquire(c, t, 0.0)
  }

  /** When every shard is running, the waves starting at `now`. */
  function AllRunning(b: Bucket, now: real, shards: nat, concurrency: nat): real
    requires b.Valid() && b.updated <= now && concurrency > 0
    decreases shards
  {
    var (c, t) := Take(b, now, if shards <= concurrency then shards else concurrency);
    if shards <= concurrency then t + Sizing.RESTORE_S
    else AllRunning(c, t + Sizing.RESTORE_S, shards - concurrency, concurrency)
  }

  /** Multiples of the time one token takes to flow in. */
  function Gaps(rate: real, n: real): real
    requires rate > 0.0
  {
    n / rate
  }

  lemma GapsAdd(rate: real, a: real, b: real, c: real)
    requires rate > 0.0 && a + b == c
    ensures Gaps(rate, a) + Gaps(rate, b) == Gaps(rate, c)
  {
  }

  /** Gaps(rate, rate * s) is s: the tokens that flow in over s seconds take s seconds. */
  lemma GapsOfInflow(rate: real, s: real)
    requires rate > 0.0
    ensures Gaps(rate, Throttle.Inflow(rate, s)) == s
  {
    assert (s * rate) / rate == s;
  }

  lemma GapsMonotone(rate: real, a: real, b: real)
    requires rate > 0.0
    ensures a <= b <==> Gaps(rate, a) <= Gaps(rate, b)
  {
    assert Gaps(rate, a) * rate == a && Gaps(rate, b) * rate == b;
  }

  // ---------------------------------------------------------------- one wave

  /** Starting with a token in hand, n tokens take at most n - 1 gaps. */
  lemma {:induction false} WaveIsFast(b: Bucket, now: real, n: nat)
    requires b.Valid() && b.updated <= now && n >= 1
    requires Throttle.Refill(b, now).tokens >= 1.0
    ensures Take(b, now, n).1 <= now + Gaps(b.rate, (n - 1) as real)
  {
    if n == 1 {
      assert Take(b, now, 0) == (b, now);
    } else {
      WaveIsFast(b, now, n - 1);
      var (c, t) := Take(b, now, n - 1);
      if Throttle.Visit(c, t).Denied? {
        Throttle.SleepsAtMostOnce(c, t, 0.0);
      }
      GapsAdd(b.rate, (n - 2) as real, 1.0, (n - 1) as real);
      GapsMonotone(b.rate, 0.0, 1.0);
    }
  }

  /** With a capacity of one token the time is exact: n tokens take n gaps less what was in hand, and
      leave the bucket empty. */
  lemma {:induction false} WaveIsExact(b: Bucket, now: real, n: nat)
    requires b.Valid() && b.updated <= now && n >= 1 && b.capacity == 1
    ensures Take(b, now, n).1 == now + Gaps(b.rate, n as real - Throttle.Refill(b, now).tokens)
    ensures Take(b, now, n).0.tokens == 0.0
  {
    var (c, t) := Take(b, now, n - 1);
    if n > 1 {
      WaveIsExact(b, now, n - 1);
      Throttle.RefillKeeps(c, t);
      GapsAdd(b.rate, (n - 1) as real - Throttle.Refill(b, now).tokens, 1.0,
          n as real - Throttle.Refill(b, now).tokens);
    }
    OneTokenAcquire(c, t);
  }

  lemma OneTokenAcquire(b: Bucket, now: real)
    requires b.Valid() && b.updated <= now && b.capacity == 1
    ensures Throttle.LoneAcquire(b, now, 0.0).1 == now + Gaps(b.rate, 1.0 - Throttle.Refill(b, now).tokens)
    ensures Throttle.LoneAcquire(b, now, 0.0).0.tokens == 0.0
  {
    Throttle.RefillStaysValid(b, now);
    if Throttle.Visit(b, now).Denied? {
      Throttle.SleepsAtMostOnce(b, now, 0.0);
    } else {
      assert Throttle.Refill(b, now).tokens == 1.0;
      assert Gaps(b.rate, 0.0) == 0.0;
    }
  }

  // ---------------------------------------------------------------- all waves, token in hand

  /** A restore refills a whole token when rate * RESTORE_S >= 1. */
  lemma RestoreRefills(b: Bucket)
    requires b.Valid() && Throttle.Inflow(b.rate, Sizing.RESTORE_S) >= 1.0
    ensures Throttle.Refill(b, b.updated + Sizing.RESTORE_S).tokens >= 1.0
  {
    assert b.updated + Sizing.RESTORE_S - b.updated == Sizing.RESTORE_S;
  }

  function WavesNeeded(shards: nat, concurrency: nat): nat
    requires concurrency > 0
  {
    Sizing.CeilDivIsNatural(shards, concurrency);
    Sizing.CeilDiv(shards, concurrency)
  }

  lemma OneWaveLess(shards: nat, concurrency: nat)
    requires 0 < concurrency < shards
    ensures WavesNeeded(shards, concurrency) == WavesNeeded(shards - concurrency, concurrency) + 1
  {
    Sizing.CeilDivStep(shards, concurrency);
  }

  lemma OneWave(shards: nat, concurrency: nat)
    requires 0 < shards <= concurrency
    ensures WavesNeeded(shards, concurrency) == 1
  {
    Sizing.CeilDivIsLeast(shards, concurrency);
  }

  function Repeated(x: real, n: nat): real {
    if n == 0 then 0.0 else x + Repeated(x, n - 1)
  }

  lemma {:induction false} RepeatedIsProduct(x: real, n: nat)
    ensures Repeated(x, n) == x * n as real
  {
    if n > 0 {
      RepeatedIsProduct(x, n - 1);
    }
  }

  lemma {:induction false} FastEnough(b: Bucket, now: real, shards: nat, concurrency: nat)
    requires b.Valid() && b.updated <= now && shards > 0 && concurrency > 0
    requires Throttle.Refill(b, now).tokens >= 1.0
    requires Throttle.Inflow(b.rate, Sizing.RESTORE_S) >= 1.0
    ensures AllRunning(b, now, shards, concurrency)
            <= now + Repeated(Sizing.PerWave(concurrency, b.rate), WavesNeeded(shards, concurrency))
    decreases shards
  {
    var n := if shards <= concurrency then shards else concurrency;
    WaveIsFast(b, now, n);
    GapsMonotone(b.rate, (n - 1) as real, (concurrency - 1) as real);
    var (c, t) := Take(b, now, n);
    if shards <= concurrency {
      OneWave(shards, concurrency);
      assert Repeated(Sizing.PerWave(concurrency, b.rate), 1) == Sizing.PerWave(concurrency, b.rate);
    } else {
      RestoreRefills(c);
      FastEnough(c, t + Sizing.RESTORE_S, shards - concurrency, concurrency);
      OneWaveLess(shards, concurrency);
    }
  }

  // ---------------------------------------------------------------- all waves, slow rate

  /** With one token of capacity and a restore too short to refill it, the schedule is exact: every shard
      costs one gap, except that the first token was in hand and each restore brings in a part. */
  lemma {:induction false} SlowIsExact(b: Bucket, now: real, shards: nat, concurrency: nat)
    requires b.Valid() && b.updated <= now && shards > 0 && concurrency > 0 && b.capacity == 1
    requires Throttle.Inflow(b.rate, Sizing.RESTORE_S) < 1.0
    ensures AllRunning(b, now, shards, concurrency)
            == now + Gaps(b.rate, shards as real - Throttle.Refill(b, now).tokens) + Sizing.RESTORE_S
    decreases shards
  {
    if shards <= concurrency {
      WaveIsExact(b, now, shards);
    } else {
      WaveIsExact(b, now, concurrency);
      var (c, t) := Take(b, now, concurrency);
      var r := Throttle.Refill(b, now).tokens;
      var brought := Throttle.Inflow(b.rate, Sizing.RESTORE_S);
      Throttle.InflowIsMonotone(b.rate, 0.0, Sizing.RESTORE_S);
      assert t + Sizing.RESTORE_S - c.updated == Sizing.RESTORE_S;
      assert Throttle.Refill(c, t + Sizing.RESTORE_S).tokens == brought;
      SlowIsExact(c, t + Sizing.RESTORE_S, shards - concurrency, concurrency);
      GapsOfInflow(b.rate, Sizing.RESTORE_S);
      GapsAdd(b.rate, (shards - concurrency) as real - brought, brought, (shards - concurrency) as real);
      GapsAdd(b.rate, concurrency as real - r, (shards - concurrency) as real, shards as real - r);
    }
  }

  /** What the bucket lacks at the start of each wave but the first does not exceed the places the last
      wave leaves empty. A caller can check it on the plan. */
  ghost predicate RestoresKeepUp(rate: real, shards: nat, concurrency: nat)
    requires concurrency > 0
  {
    var w := WavesNeeded(shards, concurrency);
    (w as real - 1.0) * (1.0 - Throttle.Inflow(rate, Sizing.RESTORE_S)) <= (w * concurrency - shards) as real
  }

  /** plan_fanout's launch_to_all_running_s, before rounding. */
  ghost function PlannedTime(rate: real, shards: nat, concurrency: nat): real
    requires concurrency > 0
  {
    Sizing.PerWave(concurrency, rate) * WavesNeeded(shards, concurrency) as real
  }

  /** The slow schedule against waves * per_wave: later by what waves - 1 restores leave missing, earlier by
      the places the last wave leaves empty. */
  lemma SlowAgainstPlan(rate: real, shards: nat, concurrency: nat)
    requires rate > 0.0 && shards > 0 && concurrency > 0
    ensures Gaps(rate, shards as real - 1.0) + Sizing.RESTORE_S <= PlannedTime(rate, shards, concurrency) <==>
            RestoresKeepUp(rate, shards, concurrency)
  {
    var w := WavesNeeded(shards, concurrency) as real;
    var c := concurrency as real;
    var i := Throttle.Inflow(rate, Sizing.RESTORE_S);
    GapsOfInflow(rate, Sizing.RESTORE_S);
    GapsAdd(rate, shards as real - 1.0, i, shards as real - 1.0 + i);
    GapsAdd(rate, c - 1.0, i, c - 1.0 + i);
    GapsTimes(rate, c - 1.0 + i, w);
    assert PlannedTime(rate, shards, concurrency) == Gaps(rate, (c - 1.0 + i) * w);
    GapsMonotone(rate, shards as real - 1.0 + i, (c - 1.0 + i) * w);
    assert (c - 1.0 + i) * w == w * c - w + i * w;
    assert (w - 1.0) * (1.0 - i) == w - 1.0 - i * w + i;
  }

  lemma GapsTimes(rate: real, n: real, k: real)
    requires rate > 0.0
    ensures Gaps(rate, n) * k == Gaps(rate, n * k)
  {
    var g := Gaps(rate, n);
    assert g * rate == n;
    assert (g * k) * rate == n * k;
    assert ((g * k) * rate) / rate == g * k;
  }

  lemma FreshHasATokenInHand(rate: real, now: real)
    requires rate > 0.0
    ensures var b := Throttle.Fresh(rate, None, now);
            b.Valid() && b.updated == now && b.rate == rate
                && Throttle.Refill(b, now).tokens == b.capacity as real >= 1.0
  {
    Throttle.RefillKeeps(Throttle.Fresh(rate, None, now), now);
  }

  lemma FastKeepsUp(rate: real, shards: nat, concurrency: nat)
    requires rate > 0.0 && 0 < concurrency && 0 < shards && Throttle.Inflow(rate, Sizing.RESTORE_S) >= 1.0
    ensures RestoresKeepUp(rate, shards, concurrency)
  {
    Sizing.CeilDivIsLeast(shards, concurrency);
    NotPositive(WavesNeeded(shards, concurrency) as real - 1.0, 1.0 - Throttle.Inflow(rate, Sizing.RESTORE_S));
  }

  lemma FastCase(rate: real, now: real, shards: nat, concurrency: nat)
    requires rate > 0.0 && 0 < concurrency && 0 < shards && Throttle.Inflow(rate, Sizing.RESTORE_S) >= 1.0
    ensures var b := Throttle.Fresh(rate, None, now);
            b.Valid() && AllRunning(b, now, shards, concurrency) <= now + PlannedTime(rate, shards, concurrency)
  {
    FreshHasATokenInHand(rate, now);
    var b := Throttle.Fresh(rate, None, now);
    FastEnough(b, now, shards, concurrency);
    PlannedIsRepeated(rate, shards, concurrency);
  }

  lemma PlannedIsRepeated(rate: real, shards: nat, concurrency: nat)
    requires 0 < concurrency
    ensures PlannedTime(rate, shards, concurrency) ==
            Repeated(Sizing.PerWave(concurrency, rate), WavesNeeded(shards, concurrency))
  {
    RepeatedIsProduct(Sizing.PerWave(concurrency, rate), WavesNeeded(shards, concurrency));
  }

  lemma SlowCase(rate: real, now: real, shards: nat, concurrency: nat)
    requires rate > 0.0 && 0 < concurrency && 0 < shards && Throttle.Inflow(rate, Sizing.RESTORE_S) < 1.0
    ensures var b := Throttle.Fresh(rate, None, now);
            b.Valid() && (AllRunning(b, now, shards, concurrency) <= now + PlannedTime(rate, shards, concurrency) <==>
                          RestoresKeepUp(rate, shards, concurrency))
  {
    FreshHasATokenInHand(rate, now);
    SlowRateHasOneToken(rate);
    SlowIsExact(Throttle.Fresh(rate, None, now), now, shards, concurrency);
    SlowAgainstPlan(rate, shards, concurrency);
  }

  /** plan_fanout's launch time bounds the real schedule from a fresh bucket exactly when
      RestoresKeepUp: always when one restore refills a token, and for a single wave. */
  lemma LaunchTimeIsABoundIff(rate: real, now: real, shards: nat, concurrency: nat)
    requires rate > 0.0 && 0 < concurrency && 0 < shards
    ensures var b := Throttle.Fresh(rate, None, now);
            b.Valid() && (AllRunning(b, now, shards, concurrency) <= now + PlannedTime(rate, shards, concurrency) <==>
                          RestoresKeepUp(rate, shards, concurrency))
    ensures rate * Sizing.RESTORE_S >= 1.0 || shards <= concurrency ==> RestoresKeepUp(rate, shards, concurrency)
  {
    if Throttle.Inflow(rate, Sizing.RESTORE_S) >= 1.0 {
      FastKeepsUp(rate, shards, concurrency);
      FastCase(rate, now, shards, concurrency);
    } else {
      SlowCase(rate, now, shards, concurrency);
      if shards <= concurrency {
        OneWave(shards, concurrency);
      }
    }
  }

  lemma NotPositive(x: real, y: real)
    requires x >= 0.0 && y <= 0.0
    ensures x * y <= 0.0
  {
  }

  lemma SlowRateHasOneToken(rate: real)
    requires rate > 0.0 && Throttle.Inflow(rate, Sizing.RESTORE_S) < 1.0
    ensures Throttle.DefaultCapacity(rate, None) == 1
  {
    assert Sizing.RESTORE_S * rate < 1.0;
    assert rate < 1.0;
  }

  lemma TwoSlowWavesDoNotKeepUp()
    ensures !RestoresKeepUp(0.2, 2, 1)
  {
    assert WavesNeeded(2, 1) == 2;
    assert Throttle.Inflow(0.2, Sizing.RESTORE_S) == 0.7;
  }

  /** A rate for which the planned time is not a bound: 0.2 launches a second, two waves of one. */
  lemma LaunchTimeFailsForSlowRates()
    ensures var b := Throttle.Fresh(0.2, None, 0.0);
            b.Valid() && AllRunning(b, 0.0, 2, 1) > PlannedTime(0.2, 2, 1)
  {
    TwoSlowWavesDoNotKeepUp();
    LaunchTimeIsABoundIff(0.2, 0.0, 2, 1);
    var planned, b := PlannedTime(0.2, 2, 1), Throttle.Fresh(0.2, None, 0.0);
    assert 0.0 + planned == planned;
  }
}
