/** The heartbeat interval of LeasePolicy.heartbeat_every and what it buys the loop in _heartbeat_loop. */
module KeepAlive {
  import opened Common

  function MaxReal(a: real, b: real): real { if a >= b then a else b }
  function MinReal(a: real, b: real): real { if a <= b then a else b }

  /** The interval for a heartbeat timeout (seconds) and the requested interval, if any. */
  function HeartbeatEvery(timeoutS: int, requested: Option<real>): int {
    var want := requested.GetOr(30.0);
    var ceiling := MaxReal(5.0, timeoutS as real / 3.0);
    MaxReal(5.0, MinReal(want, ceiling)).Floor
  }

  /** The interval is the greatest whole number of seconds within both the request and a third of the
      timeout, but never under 5 s; three of them fit in the timeout exactly when it is at least 15 s. */
  lemma IntervalIsClamped(timeoutS: int, requested: Option<real>)
    ensures var h := HeartbeatEvery(timeoutS, requested);
            && h >= 5
            && (3 * h <= timeoutS <==> timeoutS >= 15)
            && (forall n: int {:trigger n as real} :: n > h ==> n as real > requested.GetOr(30.0) || 3 * n > timeoutS)
            && (h > 5 ==> h as real <= requested.GetOr(30.0))
  {
    var h := HeartbeatEvery(timeoutS, requested);
    assert timeoutS as real / 3.0 * 3.0 == timeoutS as real;
    forall n: int {:trigger n as real} | n > h
      ensures n as real > requested.GetOr(30.0) || 3 * n > timeoutS
    {
      assert n as real >= h as real + 1.0;
    }
  }

  // ---------------------------------------------------------------- runs of the loop

  /** One heartbeat: when the send started and ended, whether it returned normally, and, if it did, when the
      orchestrator accepted it and started its clock anew. */
  datatype Beat = Beat(start: real, end: real, ok: bool, accepted: real)

  /** A run of the loop in which no send takes longer than `slowest`: the first heartbeat goes out at once,
      each further one when _stop.wait(interval) has timed out. */
  ghost predicate IsRun(beats: seq<Beat>, launched: real, interval: real, slowest: real) {
    && (|beats| > 0 ==> beats[0].start == launched)
    && (forall k :: 0 <= k < |beats| ==> beats[k].start <= beats[k].end <= beats[k].start + slowest)
    && (forall k :: 0 <= k < |beats| && beats[k].ok ==> beats[k].start <= beats[k].accepted <= beats[k].end)
    && (forall k :: 0 < k < |beats| ==> beats[k].start == beats[k - 1].end + interval)
  }

  /** No more than f heartbeats in a row fail. */
  ghost predicate AtMostInARow(beats: seq<Beat>, f: nat) {
    forall k :: 0 <= k && k + f < |beats| ==> SomeOk(beats, k, f)
  }

  ghost predicate SomeOk(beats: seq<Beat>, k: int, f: nat)
    requires 0 <= k && k + f < |beats|
  {
    exists j :: k <= j <= k + f && beats[j].ok
  }

  /** The longest n rounds of the loop can take: n waits and n sends. */
  function Rounds(n: nat, interval: real, slowest: real): real {
    if n == 0 then 0.0 else Rounds(n - 1, interval, slowest) + interval + slowest
  }

  lemma {:induction false} RoundsGrow(a: nat, b: nat, interval: real, slowest: real)
    requires a <= b && interval + slowest >= 0.0
    ensures Rounds(a, interval, slowest) <= Rounds(b, interval, slowest)
    decreases b
  {
    if a < b {
      RoundsGrow(a, b - 1, interval, slowest);
    }
  }

  lemma {:induction false} Spread(beats: seq<Beat>, launched: real, interval: real, slowest: real, j: nat, k: nat)
    requires IsRun(beats, launched, interval, slowest) && j <= k < |beats|
    ensures beats[k].end - beats[j].end <= Rounds(k - j, interval, slowest)
    decreases k - j
  {
    if j < k {
      Spread(beats, launched, interval, slowest, j, k - 1);
    }
  }

  /** If at most f heartbeats in a row fail, every success is followed by another within f + 1 rounds. */
  lemma NextSuccess(beats: seq<Beat>, launched: real, interval: real, slowest: real, f: nat, k: nat) returns (j: nat)
    requires IsRun(beats, launched, interval, slowest) && AtMostInARow(beats, f)
    requires interval + slowest >= 0.0 && k + f + 1 < |beats|
    ensures k < j <= k + f + 1 && beats[j].ok && beats[j].end - beats[k].end <= Rounds(f + 1, interval, slowest)
  {
    assert SomeOk(beats, k + 1, f);
    j :| k + 1 <= j <= k + 1 + f && beats[j].ok;
    Spread(beats, launched, interval, slowest, k, j);
    RoundsGrow(j - k, f + 1, interval, slowest);
  }

  /** And the first success comes within f rounds and one send of the launch. */
  lemma FirstSuccess(beats: seq<Beat>, launched: real, interval: real, slowest: real, f: nat) returns (j: nat)
    requires IsRun(beats, launched, interval, slowest) && AtMostInARow(beats, f)
    requires interval + slowest >= 0.0 && f < |beats|
    ensures j <= f && beats[j].ok && beats[j].end - launched <= Rounds(f, interval, slowest) + slowest
  {
    assert SomeOk(beats, 0, f);
    j :| 0 <= j <= f && beats[j].ok;
    Spread(beats, launched, interval, slowest, 0, j);
    RoundsGrow(j, f, interval, slowest);
    assert beats[0].end - launched <= slowest;
  }

  /** As the VM sees it: with the clamped interval of a timeout of at least 15 s, if no send takes longer than a sixth
      of the timeout and no two heartbeats in a row fail, no more than the timeout passes from the end of one successful
      send to the end of the next, nor from the start of the loop to the end of the first. */
  lemma SuccessesAreClose(timeoutS: int, requested: Option<real>, beats: seq<Beat>, launched: real, k: nat)
    requires timeoutS >= 15
    requires IsRun(beats, launched, HeartbeatEvery(timeoutS, requested) as real, timeoutS as real / 6.0)
    requires AtMostInARow(beats, 1)
    ensures k + 2 < |beats| ==> exists j ::
            k < j <= k + 2 && beats[j].ok && beats[j].end - beats[k].end <= timeoutS as real
    ensures 1 < |beats| ==> exists j :: 0 <= j <= 1 && beats[j].ok && beats[j].end - launched <= timeoutS as real
  {
    var h := HeartbeatEvery(timeoutS, requested) as real;
    var d := timeoutS as real / 6.0;
    IntervalIsClamped(timeoutS, requested);
    assert Rounds(2, h, d) == h + d + h + d <= timeoutS as real;
    assert Rounds(1, h, d) == h + d;
    if k + 2 < |beats| {
      var j := NextSuccess(beats, launched, h, d, 1, k);
    }
    if 1 < |beats| {
      var j := FirstSuccess(beats, launched, h, d, 1);
    }
  }

  // ---------------------------------------------------------------- the orchestrator's clock

  /** Heartbeats k and j succeed and none between them does. */
  ghost predicate Consecutive(beats: seq<Beat>, k: nat, j: nat) {
    k < j < |beats| && beats[k].ok && beats[j].ok && forall i :: k < i < j ==> !beats[i].ok
  }

  /** Heartbeat j is the first that succeeds. */
  ghost predicate First(beats: seq<Beat>, j: nat) {
    j < |beats| && beats[j].ok && forall i :: 0 <= i < j ==> !beats[i].ok
  }

  /** In this run the orchestrator never waits longer than the timeout between two heartbeats it accepts. */
  ghost predicate GapsWithin(beats: seq<Beat>, timeout: real) {
    forall k: nat, j: nat :: Consecutive(beats, k, j) ==> beats[j].accepted - beats[k].accepted <= timeout
  }

  ghost predicate FirstWithin(beats: seq<Beat>, timeout: real) {
    forall j: nat :: First(beats, j) ==> beats[j].accepted <= timeout
  }

  lemma GapIsBounded(beats: seq<Beat>, launched: real, interval: real, slowest: real, k: nat, j: nat)
    requires IsRun(beats, launched, interval, slowest) && AtMostInARow(beats, 1) && interval + slowest >= 0.0
    requires Consecutive(beats, k, j)
    ensures beats[j].accepted - beats[k].accepted <= 2.0 * interval + 3.0 * slowest
  {
    if k + 2 < |beats| {
      assert SomeOk(beats, k + 1, 1);
    }
    Spread(beats, launched, interval, slowest, k, j);
    RoundsGrow(j - k, 2, interval, slowest);
    assert Rounds(1, interval, slowest) == interval + slowest;
    assert Rounds(2, interval, slowest) == interval + slowest + interval + slowest;
  }

  lemma FirstIsBounded(beats: seq<Beat>, launched: real, interval: real, slowest: real, j: nat)
    requires IsRun(beats, launched, interval, slowest) && AtMostInARow(beats, 1) && interval + slowest >= 0.0
             && First(beats, j)
    ensures beats[j].accepted <= launched + interval + 2.0 * slowest
  {
    if 1 < |beats| {
      assert SomeOk(beats, 0, 1);
    }
    Spread(beats, launched, interval, slowest, 0, j);
    RoundsGrow(j, 1, interval, slowest);
    assert Rounds(1, interval, slowest) == interval + slowest;
  }

  /** The slowest run: accepted as its send starts, a failure, accepted as its send ends. */
  function Slowest(launched: real, interval: real, slowest: real): seq<Beat> {
    var second := launched + slowest + interval;
    var third := second + slowest + interval;
    [Beat(launched, launched + slowest, true, launched), Beat(second, second + slowest, false, 0.0),
     Beat(third, third + slowest, true, third + slowest)]
  }

  /** The slowest start: a failure, then accepted as its send ends. */
  function SlowestStart(launched: real, interval: real, slowest: real): seq<Beat> {
    var second := launched + slowest + interval;
    [Beat(launched, launched + slowest, false, 0.0), Beat(second, second + slowest, true, second + slowest)]
  }

  lemma SlowestIsARun(launched: real, interval: real, slowest: real)
    requires interval >= 0.0 && slowest >= 0.0
    ensures var beats := Slowest(launched, interval, slowest);
            && IsRun(beats, launched, interval, slowest) && AtMostInARow(beats, 1) && Consecutive(beats, 0, 2)
            && beats[2].accepted - beats[0].accepted == 2.0 * interval + 3.0 * slowest
  {
    var beats := Slowest(launched, interval, slowest);
    assert beats[0].ok && beats[2].ok;
    assert SomeOk(beats, 0, 1) && SomeOk(beats, 1, 1);
  }

  lemma SlowestStartIsARun(launched: real, interval: real, slowest: real)
    requires interval >= 0.0 && slowest >= 0.0
    ensures var beats := SlowestStart(launched, interval, slowest);
            && IsRun(beats, launched, interval, slowest) && AtMostInARow(beats, 1) && First(beats, 1)
            && beats[1].accepted == launched + interval + 2.0 * slowest
  {
    var beats := SlowestStart(launched, interval, slowest);
    assert beats[1].ok;
    assert SomeOk(beats, 0, 1);
  }

  /** As the orchestrator sees it: when no two heartbeats in a row fail, it waits at most the timeout between accepted
      heartbeats, in every run, if and only if two intervals and three of the slowest sends fit the timeout. */
  lemma GapsAreWithinIff(timeout: real, interval: real, slowest: real)
    requires interval >= 0.0 && slowest >= 0.0
    ensures (forall beats: seq<Beat>, launched: real ::
              IsRun(beats, launched, interval, slowest) && AtMostInARow(beats, 1) ==> GapsWithin(beats, timeout))
            <==> 2.0 * interval + 3.0 * slowest <= timeout
  {
    if 2.0 * interval + 3.0 * slowest <= timeout {
      forall beats: seq<Beat>, launched: real | IsRun(beats, launched, interval, slowest) && AtMostInARow(beats, 1)
        ensures GapsWithin(beats, timeout)
      {
        forall k: nat, j: nat | Consecutive(beats, k, j) ensures beats[j].accepted - beats[k].accepted <= timeout {
          GapIsBounded(beats, launched, interval, slowest, k, j);
        }
      }
    } else {
      SlowestIsARun(0.0, interval, slowest);
      assert !GapsWithin(Slowest(0.0, interval, slowest), timeout);
    }
  }

  /** Its clock started at time 0, before the loop did at `launched`: it waits at most the timeout for the first
      accepted heartbeat, in every run, if and only if the start, one interval and two sends fit the timeout. */
  lemma FirstIsWithinIff(timeout: real, launched: real, interval: real, slowest: real)
    requires interval >= 0.0 && slowest >= 0.0
    ensures (forall beats: seq<Beat> ::
              IsRun(beats, launched, interval, slowest) && AtMostInARow(beats, 1) ==> FirstWithin(beats, timeout))
            <==> launched + interval + 2.0 * slowest <= timeout
  {
    if launched + interval + 2.0 * slowest <= timeout {
      forall beats: seq<Beat> | IsRun(beats, launched, interval, slowest) && AtMostInARow(beats, 1)
        ensures FirstWithin(beats, timeout)
      {
        forall j: nat | First(beats, j) ensures beats[j].accepted <= timeout {
          FirstIsBounded(beats, launched, interval, slowest, j);
        }
      }
    } else {
      SlowestStartIsARun(launched, interval, slowest);
      assert !FirstWithin(SlowestStart(launched, interval, slowest), timeout);
    }
  }

  /** Keep-alive: with the clamped interval of a timeout of at least 15 s, if no send takes longer than a ninth of the
      timeout and no two heartbeats in a row fail, the orchestrator never waits longer than the timeout between
      heartbeats it accepts, nor for the first if the loop starts within four ninths of it. */
  lemma LeaseStaysAlive(timeoutS: int, requested: Option<real>, beats: seq<Beat>, launched: real)
    requires timeoutS >= 15 && launched <= timeoutS as real * 4.0 / 9.0
    requires IsRun(beats, launched, HeartbeatEvery(timeoutS, requested) as real, timeoutS as real / 9.0)
    requires AtMostInARow(beats, 1)
    ensures GapsWithin(beats, timeoutS as real) && FirstWithin(beats, timeoutS as real)
  {
    var h, d, t := HeartbeatEvery(timeoutS, requested) as real, timeoutS as real / 9.0, timeoutS as real;
    IntervalIsClamped(timeoutS, requested);
    assert 3.0 * h <= t && 9.0 * d == t;
    GapsAreWithinIff(t, h, d);
    FirstIsWithinIff(t, launched, h, d);
  }

  /** Sends of a sixth of the timeout are too slow for that: the orchestrator can wait 140 s of a timeout of 120 s. */
  lemma SlowSendsCanLoseTheLease()
    ensures exists beats: seq<Beat> ::
      && IsRun(beats, 0.0, HeartbeatEvery(120, Some(60.0)) as real, 20.0) && AtMostInARow(beats, 1)
      && !GapsWithin(beats, 120.0)
  {
    assert HeartbeatEvery(120, Some(60.0)) == 40;
    SlowestIsARun(0.0, 40.0, 20.0);
    assert !GapsWithin(Slowest(0.0, 40.0, 20.0), 120.0);
  }

  /** And with two failures in a row even sends of 1 s can lose it: here the orchestrator waits 123 s. */
  lemma TwoFailuresCanLoseTheLease()
    ensures exists beats: seq<Beat> ::
      && IsRun(beats, 0.0, HeartbeatEvery(120, Some(60.0)) as real, 1.0) && AtMostInARow(beats, 2)
      && !GapsWithin(beats, 120.0)
  {
    var beats := [Beat(0.0, 1.0, true, 0.0), Beat(41.0, 42.0, false, 0.0), Beat(82.0, 83.0, false, 0.0),
        Beat(123.0, 124.0, true, 123.0)];
    assert HeartbeatEvery(120, Some(60.0)) == 40;
    assert beats[0].ok && beats[3].ok;
    assert forall k :: 0 <= k && k + 2 < |beats| ==> SomeOk(beats, k, 2) by {
      assert SomeOk(beats, 0, 2) && SomeOk(beats, 1, 2);
    }
    assert Consecutive(beats, 0, 3);
    assert IsRun(beats, 0.0, 40.0, 1.0) && !GapsWithin(beats, 120.0);
  }
}
