/**
 One Throttled shared by any number of concurrent callers (microvm/throttle.py, as FleetManager shares it among its
 pool threads). A call of the wrapper arrives at any moment; visiting the bucket, starting the API call, its end and the
 end of a backoff are each a step of one caller, and any caller may take the next step. How long a caller sleeps is left
 open: it may come back at any later time.
 */
module ThrottledCallers {
  import opened Common
  import opened Throttle

  /** Where a caller is, in its attempt number 1, 2, ... */
  datatype Pc =
    | Acquiring(attempt: nat)   // in acquire(), at the lock or asleep until its next visit
    | Holding(attempt: nat)     // acquire() has returned, the API call has not started
    | Calling(attempt: nat)     // the API call is in progress
    | Sleeping(attempt: nat)    // backing off
    | Ended                     // the answer was returned or raised, or no attempt is allowed

  /** made is history: how many API calls the caller has started. */
  datatype Caller = Caller(pc: Pc, made: nat)

  datatype State = State(bucket: Bucket, callers: seq<Caller>, clock: real)

  datatype Step =
    | Arrive(now: real)
    | Take(k: nat, now: real)
    | Start(k: nat, now: real)
    | End(k: nat, answer: Answer, now: real)
    | Wake(k: nat, now: real)

  function Initial(rate: real, now: real): State
    requires rate > 0.0
  {
    State(Throttle.Fresh(rate, None, now), [], now)
  }

  predicate Enabled(s: State, step: Step) {
    && s.clock <= step.now
    && match step
       case Arrive(_) => true
       case Take(k, _) => k < |s.callers| && s.callers[k].pc.Acquiring?
       case Start(k, _) => k < |s.callers| && s.callers[k].pc.Holding?
       case End(k, _, _) => k < |s.callers| && s.callers[k].pc.Calling?
       case Wake(k, _) => k < |s.callers| && s.callers[k].pc.Sleeping?
  }

  /** The visit finds a token. */
  ghost predicate IsGrant(s: State, step: Step) { step.Take? && s.bucket.Valid() && Visit(s.bucket, step.now).Granted? }

  function Put(s: State, k: nat, pc: Pc, made: nat): seq<Caller>
    requires k < |s.callers|
  {
    s.callers[k := Caller(pc, made)]
  }

  function Next(max: int, s: State, step: Step): State
    requires s.bucket.Valid() && Enabled(s, step)
  {
    match step
    case Arrive(now) => State(s.bucket, s.callers + [Caller(if max < 1 then Ended else Acquiring(1), 0)], now)
    case Take(k, now) =>
      var c := s.callers[k];
      var v := Visit(s.bucket, now);
      State(v.after, if v.Granted? then Put(s, k, Holding(c.pc.attempt), c.made) else s.callers, now)
    case Start(k, now) => State(s.bucket, Put(s, k, Calling(s.callers[k].pc.attempt), s.callers[k].made + 1), now)
    case End(k, answer, now) =>
      var c := s.callers[k];
      State(s.bucket,
          Put(s, k, if answer.Retryable() && c.pc.attempt != max then Sleeping(c.pc.attempt) else Ended, c.made), now)
    case Wake(k, now) => State(s.bucket, Put(s, k, Acquiring(s.callers[k].pc.attempt + 1), s.callers[k].made), now)
  }

  // ---------------------------------------------------------------- the invariant

  ghost predicate CallerOk(max: int, c: Caller) {
    match c.pc
    case Acquiring(a) => 1 <= a <= max && c.made == a - 1
    case Holding(a) => 1 <= a <= max && c.made == a - 1
    case Calling(a) => 1 <= a <= max && c.made == a
    case Sleeping(a) => 1 <= a < max && c.made == a
    case Ended => c.made <= if max < 1 then 0 else max
  }

  ghost predicate Inv(max: int, s: State) {
    && s.bucket.Valid() && s.bucket.updated <= s.clock
    && forall k :: 0 <= k < |s.callers| ==> CallerOk(max, s.callers[k])
  }

  lemma StepInv(max: int, s: State, step: Step)
    requires Inv(max, s) && Enabled(s, step)
    ensures Inv(max, Next(max, s, step))
    ensures Next(max, s, step).bucket.rate == s.bucket.rate && Next(max, s, step).bucket.capacity == s.bucket.capacity
  {
    if step.Take? {
      RefillStaysValid(s.bucket, step.now);
    }
  }

  /** steps is a run from s, at the times of its steps. */
  ghost predicate Runs(max: int, s: State, steps: seq<Step>)
    requires Inv(max, s)
    decreases |steps|
  {
    |steps| == 0 ||
    (Enabled(s, steps[0]) && (StepInv(max, s, steps[0]); Runs(max, Next(max, s, steps[0]), steps[1..])))
  }

  ghost function Exec(max: int, s: State, steps: seq<Step>): (t: State)
    requires Inv(max, s) && Runs(max, s, steps)
    ensures Inv(max, t)
    decreases |steps|
  {
    if |steps| == 0 then s
    else
      StepInv(max, s, steps[0]);
      Exec(max, Next(max, s, steps[0]), steps[1..])
  }

  // ---------------------------------------------------------------- counting

  /** API calls started in a stretch of steps. */
  function Calls(steps: seq<Step>): nat {
    if |steps| == 0 then 0 else (if steps[0].Start? then 1 else 0) + Calls(steps[1..])
  }

  function CallsOf(k: nat, steps: seq<Step>): nat {
    if |steps| == 0 then 0 else (if steps[0].Start? && steps[0].k == k then 1 else 0) + CallsOf(k, steps[1..])
  }

  /** Tokens taken in it. */
  ghost function Grants(max: int, s: State, steps: seq<Step>): nat
    requires Inv(max, s) && Runs(max, s, steps)
    decreases |steps|
  {
    if |steps| == 0 then 0
    else
      StepInv(max, s, steps[0]);
      (if IsGrant(s, steps[0]) then 1 else 0) + Grants(max, Next(max, s, steps[0]), steps[1..])
  }

  /** Callers that hold a token and have not started their API call. */
  function Held(callers: seq<Caller>): nat {
    if |callers| == 0 then 0 else Held(callers[..|callers| - 1]) + if callers[|callers| - 1].pc.Holding? then 1 else 0
  }

  lemma {:induction false} HeldUpdate(callers: seq<Caller>, k: nat, c: Caller)
    requires k < |callers|
    ensures Held(callers[k := c]) == Held(callers) - (if callers[k].pc.Holding? then 1 else 0)
            + (if c.pc.Holding? then 1 else 0)
  {
    var last := |callers| - 1;
    if k == last {
      assert callers[k := c][..last] == callers[..last];
    } else {
      assert callers[k := c][..last] == callers[..last][k := c];
      HeldUpdate(callers[..last], k, c);
    }
  }

  /** A grant adds a held token, a start takes one away, nothing else changes their number. */
  lemma HeldStep(max: int, s: State, step: Step)
    requires Inv(max, s) && Enabled(s, step)
    ensures Held(Next(max, s, step).callers) + (if step.Start? then 1 else 0) == Held(s.callers)
            + (if IsGrant(s, step) then 1 else 0)
  {
    var t := Next(max, s, step);
    if step.Arrive? {
      assert t.callers[..|s.callers|] == s.callers;
    } else if t.callers != s.callers {
      HeldUpdate(s.callers, step.k, t.callers[step.k]);
    }
  }

  /** Every token taken is spent on exactly one API call, or still held. */
  lemma {:induction false} EveryCallSpendsAToken(max: int, s: State, steps: seq<Step>)
    requires Inv(max, s) && Runs(max, s, steps)
    ensures Calls(steps) + Held(Exec(max, s, steps).callers) == Held(s.callers) + Grants(max, s, steps)
    decreases |steps|
  {
    if |steps| > 0 {
      StepInv(max, s, steps[0]);
      HeldStep(max, s, steps[0]);
      EveryCallSpendsAToken(max, Next(max, s, steps[0]), steps[1..]);
    }
  }

  // ---------------------------------------------------------------- a window

  ghost predicate Within(steps: seq<Step>, from: real, to: real) {
    forall j :: 0 <= j < |steps| ==> from <= steps[j].now <= to
  }

  /** Tokens taken and left, against what was there and flows in until `to`. */
  lemma {:induction false} GrantsAreFunded(max: int, s: State, steps: seq<Step>, from: real, to: real)
    requires Inv(max, s) && Runs(max, s, steps) && Within(steps, from, to) && s.bucket.updated <= to
    ensures Grants(max, s, steps) as real <= s.bucket.tokens + Inflow(s.bucket.rate, to - s.bucket.updated)
    decreases |steps|
  {
    var b := s.bucket;
    if |steps| == 0 {
      InflowIsMonotone(b.rate, 0.0, to - b.updated);
    } else {
      StepInv(max, s, steps[0]);
      var now := steps[0].now;
      GrantsAreFunded(max, Next(max, s, steps[0]), steps[1..], from, to);
      if steps[0].Take? {
        VisitBalances(b, now);
        InflowIsAdditive(b.rate, now - b.updated, to - now, to - b.updated);
      }
    }
  }

  /** In a window at most the capacity and what flows in is granted. */
  lemma {:induction false} GrantsInWindow(max: int, s: State, steps: seq<Step>, from: real, to: real)
    requires Inv(max, s) && Runs(max, s, steps) && Within(steps, from, to) && from <= to
    ensures Grants(max, s, steps) as real <= s.bucket.capacity as real + Inflow(s.bucket.rate, to - from)
    decreases |steps|
  {
    var b := s.bucket;
    InflowIsMonotone(b.rate, 0.0, to - from);
    if |steps| > 0 {
      StepInv(max, s, steps[0]);
      var next, now := Next(max, s, steps[0]), steps[0].now;
      if steps[0].Take? {
        RefillStaysValid(b, now);
        GrantsAreFunded(max, next, steps[1..], from, to);
        InflowIsMonotone(b.rate, to - now, to - from);
      } else {
        GrantsInWindow(max, next, steps[1..], from, to);
      }
    }
  }

  /** The window bound: however many callers share the wrapper and however their steps interleave, the API calls started
      in [from, to], retries included, are at most capacity + rate * (to - from), plus the tokens that callers held when
      the window began. */
  lemma CallsInWindow(max: int, s: State, steps: seq<Step>, from: real, to: real)
    requires Inv(max, s) && Runs(max, s, steps) && Within(steps, from, to) && from <= to
    ensures Calls(steps) as real <= s.bucket.capacity as real + Inflow(s.bucket.rate, to - from)
            + Held(s.callers) as real
  {
    EveryCallSpendsAToken(max, s, steps);
    GrantsInWindow(max, s, steps, from, to);
  }

  lemma InitialInv(max: int, rate: real, now: real)
    requires rate > 0.0
    ensures Inv(max, Initial(rate, now)) && Held(Initial(rate, now).callers) == 0
  {
  }

  /** steps is a run from the creation of the wrapper. */
  ghost predicate RunsFromCreation(max: int, rate: real, created: real, steps: seq<Step>)
    requires rate > 0.0
  {
    InitialInv(max, rate, created);
    Runs(max, Initial(rate, created), steps)
  }

  /** Since its creation the wrapper has let through at most capacity + rate * elapsed API calls. */
  lemma CallsSinceCreation(max: int, rate: real, created: real, steps: seq<Step>, to: real)
    requires rate > 0.0 && RunsFromCreation(max, rate, created, steps) && Within(steps, created, to) && created <= to
    ensures Calls(steps) as real <= DefaultCapacity(rate, None) as real + Inflow(rate, to - created)
  {
    InitialInv(max, rate, created);
    CallsInWindow(max, Initial(rate, created), steps, created, to);
  }

  // ---------------------------------------------------------------- attempts

  /** The API calls of caller k are the ones its history counts. */
  lemma {:induction false} CallsOfAre(max: int, s: State, steps: seq<Step>, k: nat)
    requires Inv(max, s) && Runs(max, s, steps)
    ensures |Exec(max, s, steps).callers| >= |s.callers|
    ensures k < |Exec(max, s, steps).callers| ==>
              CallsOf(k, steps)
                  + (if k < |s.callers| then s.callers[k].made else 0) == Exec(max, s, steps).callers[k].made
    ensures k >= |Exec(max, s, steps).callers| ==> CallsOf(k, steps) == 0
    decreases |steps|
  {
    if |steps| > 0 {
      StepInv(max, s, steps[0]);
      CallsOfAre(max, Next(max, s, steps[0]), steps[1..], k);
    }
  }

  /** No call of the wrapper makes more than max_attempts API calls, or any if none is allowed. */
  lemma AtMostMaxAttempts(max: int, s: State, steps: seq<Step>, k: nat)
    requires Inv(max, s) && Runs(max, s, steps) && k >= |s.callers|
    ensures CallsOf(k, steps) <= if max < 1 then 0 else max
  {
    CallsOfAre(max, s, steps, k);
    var t := Exec(max, s, steps);
    if k < |t.callers| {
      assert CallerOk(max, t.callers[k]);
    }
  }

  // ---------------------------------------------------------------- callers that are not held up

  /** Every API call starts at the moment its token was taken, before any other step. */
  ghost predicate Prompt(max: int, s: State, steps: seq<Step>)
    requires Inv(max, s) && Runs(max, s, steps)
    decreases |steps|
  {
    |steps| == 0 ||
    (StepInv(max, s, steps[0]);
     && (IsGrant(s, steps[0]) ==> |steps| > 1 && steps[1] == Start(steps[0].k, steps[0].now))
     && Prompt(max, Next(max, s, steps[0]), steps[1..]))
  }

  lemma {:induction false} RunsSplit(max: int, s: State, a: seq<Step>, b: seq<Step>)
    requires Inv(max, s) && Runs(max, s, a + b)
    ensures Runs(max, s, a) && Runs(max, Exec(max, s, a), b)
    decreases |a|
  {
    if |a| == 0 {
      assert a + b == b;
    } else {
      assert (a + b)[1..] == a[1..] + b;
      StepInv(max, s, a[0]);
      RunsSplit(max, Next(max, s, a[0]), a[1..], b);
    }
  }

  /** When a prompt run is cut by time, no token is held at the cut. */
  lemma {:induction false} NoneHeldAtCut(max: int, s: State, a: seq<Step>, b: seq<Step>, cut: real)
    requires Inv(max, s) && Runs(max, s, a + b) && Prompt(max, s, a + b) && Runs(max, s, a)
    requires (forall j :: 0 <= j < |a| ==> a[j].now < cut) && (forall j :: 0 <= j < |b| ==> b[j].now >= cut)
    requires Held(s.callers) == 0 || (Held(s.callers) == 1 && |a| > 0 && a[0].Start?)
    ensures Held(Exec(max, s, a).callers) == 0
    decreases |a|
  {
    if |a| > 0 {
      assert (a + b)[0] == a[0] && (a + b)[1..] == a[1..] + b;
      StepInv(max, s, a[0]);
      HeldStep(max, s, a[0]);
      var next := Next(max, s, a[0]);
      RunsSplit(max, next, a[1..], b);
      if IsGrant(s, a[0]) {
        assert (a + b)[1] == Start(a[0].k, a[0].now);
        assert |a| == 1 ==> (a + b)[1] == b[0];
      }
      NoneHeldAtCut(max, next, a[1..], b, cut);
    }
  }

  ghost predicate PromptFromCreation(max: int, rate: real, created: real, steps: seq<Step>)
    requires rate > 0.0 && RunsFromCreation(max, rate, created, steps)
  {
    InitialInv(max, rate, created);
    Prompt(max, Initial(rate, created), steps)
  }

  /** The held term vanishes when every API call starts at its grant: then calls in any window [from, to] are at most
      capacity + rate * (to - from). */
  lemma PromptCallsInWindow(max: int, rate: real, created: real, before: seq<Step>, window: seq<Step>, from: real,
                            to: real)
    requires rate > 0.0 && from <= to && RunsFromCreation(max, rate, created, before + window)
    requires PromptFromCreation(max, rate, created, before + window)
    requires (forall j :: 0 <= j < |before| ==> before[j].now < from) && Within(window, from, to)
    ensures Calls(window) as real <= DefaultCapacity(rate, None) as real + Inflow(rate, to - from)
  {
    var s := Initial(rate, created);
    InitialInv(max, rate, created);
    RunsSplit(max, s, before, window);
    NoneHeldAtCut(max, s, before, window, from);
    RateStays(max, s, before);
    CallsInWindow(max, Exec(max, s, before), window, from, to);
  }

  lemma {:induction false} RateStays(max: int, s: State, steps: seq<Step>)
    requires Inv(max, s) && Runs(max, s, steps)
    ensures Exec(max, s, steps).bucket.rate == s.bucket.rate && Exec(max, s, steps).bucket.capacity == s.bucket.capacity
    decreases |steps|
  {
    if |steps| > 0 {
      StepInv(max, s, steps[0]);
      RateStays(max, Next(max, s, steps[0]), steps[1..]);
    }
  }

  // ---------------------------------------------------------------- the held term is needed

  const WAITING := Caller(Acquiring(1), 0)
  const HOLDING := Caller(Holding(1), 0)

  const NOBODY := State(Bucket(1.0, 1, 1.0, 0.0), [], 0.0)
  const ONE_CALLER := State(Bucket(1.0, 1, 1.0, 0.0), [WAITING], 0.0)
  const TWO_CALLERS := State(Bucket(1.0, 1, 1.0, 0.0), [WAITING, WAITING], 0.0)
  const ONE_HOLDS := State(Bucket(1.0, 1, 0.0, 0.0), [HOLDING, WAITING], 0.0)
  const BOTH_HOLD := State(Bucket(1.0, 1, 0.0, 1.0), [HOLDING, HOLDING], 1.0)
  const ONE_CALLS := State(Bucket(1.0, 1, 0.0, 1.0), [Caller(Calling(1), 1), HOLDING], 1.0)

  /** The first caller takes the one token and is held up before its API call. */
  const HELD_UP: seq<Step> := [Arrive(0.0)] + ([Arrive(0.0)] + ([Take(0, 0.0)] + []))
  /** A second later the second caller takes the next one, and both calls start. */
  const TOGETHER: seq<Step> := [Take(1, 1.0)] + ([Start(0, 1.0)] + ([Start(1, 1.0)] + []))

  lemma Onward(s: State, step: Step, next: State, rest: seq<Step>)
    requires Inv(6, s) && Enabled(s, step) && Next(6, s, step) == next && Inv(6, next) && Runs(6, next, rest)
    ensures Runs(6, s, [step] + rest) && Exec(6, s, [step] + rest) == Exec(6, next, rest)
    ensures Calls([step] + rest) == Calls(rest) + if step.Start? then 1 else 0
  {
    assert ([step] + rest)[1..] == rest;
  }

  ghost predicate Leads(s: State, step: Step, next: State) {
    Inv(6, s) && Enabled(s, step) && Next(6, s, step) == next && Inv(6, next)
  }

  lemma ThreeSteps(s: State, a: Step, t: State, b: Step, u: State, c: Step, v: State)
    requires Leads(s, a, t) && Leads(t, b, u) && Leads(u, c, v)
    ensures var steps := [a] + ([b] + ([c] + []));
            && Inv(6, s) && Runs(6, s, steps) && Exec(6, s, steps) == v
            && Calls(steps) == (if a.Start? then 1 else 0) + (if b.Start? then 1 else 0) + (if c.Start? then 1 else 0)
  {
    assert Runs(6, v, []) && Exec(6, v, []) == v && Calls([]) == 0;
    Onward(u, c, v, []);
    Onward(t, b, u, [c] + []);
    Onward(s, a, t, [b] + ([c] + []));
  }

  lemma StartsWithNobody()
    ensures Initial(1.0, 0.0) == NOBODY
  {
  }

  lemma TakeTheOnlyToken(b: Bucket, now: real)
    requires b.Valid() && b.capacity == 1 && Refill(b, now).tokens == 1.0
    ensures Visit(b, now) == Granted(Bucket(b.rate, 1, 0.0, now))
  {
  }

  lemma FirstTakes()
    ensures Leads(TWO_CALLERS, Take(0, 0.0), ONE_HOLDS)
  {
    RefillKeeps(TWO_CALLERS.bucket, 0.0);
    TakeTheOnlyToken(TWO_CALLERS.bucket, 0.0);
    assert Put(TWO_CALLERS, 0, Holding(1), 0) == [HOLDING, WAITING];
  }

  lemma SecondTakes()
    ensures Leads(ONE_HOLDS, Take(1, 1.0), BOTH_HOLD)
  {
    assert Inflow(1.0, 1.0) == 1.0;
    TakeTheOnlyToken(ONE_HOLDS.bucket, 1.0);
    assert Put(ONE_HOLDS, 1, Holding(1), 0) == [HOLDING, HOLDING];
  }

  lemma FirstCalls()
    ensures Leads(BOTH_HOLD, Start(0, 1.0), ONE_CALLS)
  {
    assert Put(BOTH_HOLD, 0, Calling(1), 1) == [Caller(Calling(1), 1), HOLDING];
  }

  lemma BothArrive()
    ensures Leads(NOBODY, Arrive(0.0), ONE_CALLER) && Leads(ONE_CALLER, Arrive(0.0), TWO_CALLERS)
  {
  }

  lemma FirstIsHeldUp()
    ensures Inv(6, NOBODY) && Runs(6, NOBODY, HELD_UP) && Exec(6, NOBODY, HELD_UP) == ONE_HOLDS
  {
    BothArrive();
    FirstTakes();
    ThreeSteps(NOBODY, Arrive(0.0), ONE_CALLER, Arrive(0.0), TWO_CALLERS, Take(0, 0.0), ONE_HOLDS);
  }

  lemma BothStart()
    ensures Inv(6, ONE_HOLDS) && Runs(6, ONE_HOLDS, TOGETHER) && Calls(TOGETHER) == 2
  {
    SecondTakes();
    FirstCalls();
    StepInv(6, ONE_CALLS, Start(1, 1.0));
    ThreeSteps(ONE_HOLDS, Take(1, 1.0), BOTH_HOLD, Start(0, 1.0), ONE_CALLS, Start(1, 1.0),
        Next(6, ONE_CALLS, Start(1, 1.0)));
  }

  /** Two calls in a window of no length, which the bound without the held term would not allow. */
  ghost predicate Exceeds(before: seq<Step>, window: seq<Step>) {
    && RunsFromCreation(6, 1.0, 0.0, before)
    && (InitialInv(6, 1.0, 0.0); Runs(6, Exec(6, Initial(1.0, 0.0), before), window))
    && Within(window, 1.0, 1.0)
    && Calls(window) as real > DefaultCapacity(1.0, None) as real + Inflow(1.0, 1.0 - 1.0)
  }

  /** Without the held term the bound is false: at 1 call a second and a capacity of 1, two API calls start at one
      instant, because the first caller was held up between acquire() and its call. */
  lemma HeldTermIsNeeded()
    ensures exists before, window :: Exceeds(before, window)
  {
    StartsWithNobody();
    FirstIsHeldUp();
    BothStart();
    TogetherIsAtOne();
    assert Inflow(1.0, 1.0 - 1.0) == 0.0;
    assert Exceeds(HELD_UP, TOGETHER);
  }

  lemma TogetherIsAtOne()
    ensures Within(TOGETHER, 1.0, 1.0)
  {
  }
}
