/**
 The durable orchestrator of microvm/integrations/durable.py: lease_microvm, lease_with_relaunch and lease_map,
 with the launches and terminations they make as a log of effects.
 */
module Durable {
  import opened Common
  import opened Completions
  import opened Json
  import opened Sizing

  datatype Effect = Launch(vm: string) | Terminated(vm: string) | TerminateFailed(vm: string)

  /** How the callback ends. Other is any other exception callback.result() may raise. */
  datatype Callback = Completed(raw: Raw) | TimedOut(text: string) | Failed(exc: External) | Other

  /** How TerminateMicrovm answers: ResourceNotFoundException counts as done. */
  datatype Termination = Accepted | AlreadyGone | Raises

  /** The environment of one lease; launch is None when the launch step raises. */
  datatype Attempt = Attempt(launch: Option<string>, callback: Callback, termination: Termination)

  datatype Status = StatusDone | StatusTimedOut | StatusFailed

  datatype Outcome = Outcome(status: Status, result: Json, error: Option<OrchestratorError>, retryable: bool,
      vm: string, attempt: nat)

  datatype Leased = Returned(outcome: Outcome) | Raised

  // ---------------------------------------------------------------- one lease

  /** The lease ends in an outcome dict rather than an exception. */
  predicate Returns(a: Attempt) { a.launch.Some? && !a.callback.Other? && !a.termination.Raises? }

  /** Its outcome asks for another attempt. */
  predicate Relaunchable(a: Attempt) {
    Returns(a) && (a.callback.TimedOut? || (a.callback.Failed? && ErrorFrom(a.callback.exc).retryable))
  }

  /** A VM is left running: its callback raised something else, or its termination failed. */
  predicate Leaks(a: Attempt) { a.launch.Some? && (a.callback.Other? || a.termination.Raises?) }

  function Effects(a: Attempt): seq<Effect> {
    match a.launch
    case None => []
    case Some(vm) =>
      if a.callback.Other? then [Launch(vm)]
      else [Launch(vm), if a.termination.Raises? then TerminateFailed(vm) else Terminated(vm)]
  }

  ghost predicate Answers(a: Attempt, r: Leased) {
    match r
    case Raised => !Returns(a)
    case Returned(o) =>
      && Returns(a) && o.vm == a.launch.value
      && (o.retryable <==> Relaunchable(a))
      && match a.callback {
           case Completed(raw) => o.status == StatusDone && o.result == ResultOf(raw) && o.error == None
           case TimedOut(text) =>
             o.status == StatusTimedOut
                 && o.error == Some(OrchestratorError(Str("CallbackTimeout"), Str(text), true, Empty))
           case Failed(exc) => o.status == StatusFailed && o.error == Some(ErrorFrom(exc))
           case Other => false
         }
  }

  method Terminate(vm: string, t: Termination) returns (ok: bool, effects: seq<Effect>)
    ensures ok <==> !t.Raises?
    ensures effects == [if t.Raises? then TerminateFailed(vm) else Terminated(vm)]
  {
    match t
    case Accepted => ok, effects := true, [Terminated(vm)];
    case AlreadyGone => ok, effects := true, [Terminated(vm)];
    case Raises => ok, effects := false, [TerminateFailed(vm)];
  }

  method LeaseMicrovm(a: Attempt) returns (r: Leased, effects: seq<Effect>)
    ensures Answers(a, r) && effects == Effects(a)
  {
    if a.launch.None? { return Raised, []; }
    var vm := a.launch.value;
    if a.callback.Other? { return Raised, [Launch(vm)]; }
    var ok, ended := Terminate(vm, a.termination);
    effects := [Launch(vm)] + ended;
    if !ok { return Raised, effects; }
    match a.callback
    case TimedOut(text) =>
      var err := OrchestratorError(Str("CallbackTimeout"), Str(text), true, Empty);
      r := Returned(Outcome(StatusTimedOut, Null, Some(err), true, vm, 0));
    case Failed(exc) =>
      var err := ErrorFrom(exc);
      r := Returned(Outcome(StatusFailed, Null, Some(err), err.retryable, vm, 0));
    case Completed(raw) =>
      r := Returned(Outcome(StatusDone, ResultOf(raw), None, false, vm, 0));
  }

  // ---------------------------------------------------------------- relaunching

  /** NoOutcome is the empty dict a negative max_relaunches leaves. */
  datatype Relaunched = NoOutcome | Ended(leased: Leased)

  /** The number of attempts made when at most limit are allowed. */
  function Attempts(env: seq<Attempt>, limit: int): (n: nat)
    requires limit <= |env|
    ensures n <= if limit <= 0 then 0 else limit
    ensures limit > 0 ==> n > 0
  {
    if limit <= 0 then 0 else if Relaunchable(env[0]) then 1 + Attempts(env[1..], limit - 1) else 1
  }

  /** The attempts stop at the first that is not relaunchable, or at the limit. */
  lemma {:induction false} AttemptsStop(env: seq<Attempt>, limit: int)
    requires limit <= |env|
    ensures var n := Attempts(env, limit);
            && (forall k :: 0 <= k < n - 1 ==> Relaunchable(env[k]))
            && (n > 0 ==> n == limit || !Relaunchable(env[n - 1]))
  {
    if limit > 0 && Relaunchable(env[0]) {
      AttemptsStop(env[1..], limit - 1);
      var n := Attempts(env, limit);
      assert forall k :: 0 < k < n ==> env[k] == env[1..][k - 1];
    }
  }

  function AllEffects(env: seq<Attempt>, n: nat): seq<Effect>
    requires n <= |env|
  {
    if n == 0 then [] else AllEffects(env, n - 1) + Effects(env[n - 1])
  }

  /** What lease_with_relaunch does, all in all. */
  function ItemLog(env: seq<Attempt>, maxRelaunches: int): seq<Effect>
    requires maxRelaunches + 1 <= |env|
  {
    AllEffects(env, Attempts(env, maxRelaunches + 1))
  }

  /** What lease_with_relaunch returns: the last attempt's answer, with its number. */
  ghost predicate Answered(env: seq<Attempt>, n: nat, r: Relaunched)
    requires n <= |env|
  {
    if n == 0 then r == NoOutcome
    else r.Ended? && Answers(env[n - 1], r.leased) && (r.leased.Returned? ==> r.leased.outcome.attempt == n - 1)
  }

  method LeaseWithRelaunch(env: seq<Attempt>, maxRelaunches: int) returns (r: Relaunched, effects: seq<Effect>)
    requires maxRelaunches + 1 <= |env|
    ensures Answered(env, Attempts(env, maxRelaunches + 1), r) && effects == ItemLog(env, maxRelaunches)
  {
    r, effects := NoOutcome, [];
    var attempt := 0;
    assert env[0..] == env;
    while attempt < maxRelaunches + 1
      invariant 0 <= attempt && (attempt <= maxRelaunches + 1 || maxRelaunches < 0 == attempt)
      invariant attempt <= |env| && maxRelaunches + 1 - attempt <= |env[attempt..]|
      invariant Attempts(env, maxRelaunches + 1) == attempt + Attempts(env[attempt..], maxRelaunches + 1 - attempt)
      invariant Answered(env, attempt, r) && effects == AllEffects(env, attempt)
    {
      var a := env[attempt];
      assert env[attempt..][0] == a && env[attempt..][1..] == env[attempt + 1..];
      var leased, more := LeaseMicrovm(a);
      effects := effects + more;
      if leased.Raised? { return Ended(Raised), effects; }
      var outcome := leased.outcome.(attempt := attempt);
      r := Ended(Returned(outcome));
      attempt := attempt + 1;
      if outcome.status.StatusDone? || !outcome.retryable { return; }
    }
  }

  // ---------------------------------------------------------------- what the effects promise

  /** VMs launched and not known to be terminated. */
  function Live(log: seq<Effect>): int {
    if |log| == 0 then 0
    else
      var e := log[|log| - 1];
      Live(log[..|log| - 1]) + if e.Launch? then 1 else if e.Terminated? then -1 else 0
  }

  lemma {:induction false} LiveJoin(a: seq<Effect>, b: seq<Effect>)
    ensures Live(a + b) == Live(a) + Live(b)
  {
    if |b| == 0 {
      assert a + b == a;
    } else {
      assert (a + b)[..|a + b| - 1] == a + b[..|b| - 1];
      LiveJoin(a, b[..|b| - 1]);
    }
  }

  lemma LivePrefix(a: seq<Effect>, b: seq<Effect>, p: nat)
    requires p <= |a| + |b|
    ensures Live((a + b)[..p]) == if p <= |a| then Live(a[..p]) else Live(a) + Live(b[..p - |a|])
  {
    if p <= |a| {
      assert (a + b)[..p] == a[..p];
    } else {
      assert (a + b)[..p] == a + b[..p - |a|];
      LiveJoin(a, b[..p - |a|]);
    }
  }

  lemma LiveOfAttempt(a: Attempt, p: nat)
    requires p <= |Effects(a)|
    ensures 0 <= Live(Effects(a)[..p]) <= 1
    ensures Live(Effects(a)) == if Leaks(a) then 1 else 0
  {
    var e := Effects(a);
    if |e| > 0 {
      assert e[..1] == [e[0]] && [e[0]][..0] == [];
      assert Live([e[0]]) == 1;
      if |e| == 2 {
        assert e[..2] == e && e[..|e| - 1] == [e[0]];
      } else {
        assert e == [e[0]];
      }
      assert e[..0] == [];
    }
  }

  /** Everything but the last attempt cleaned up after itself. */
  ghost predicate AllButLastRelaunch(env: seq<Attempt>, n: nat)
    requires n <= |env|
  {
    forall k :: 0 <= k < n - 1 ==> Relaunchable(env[k])
  }

  /** At any moment at most one VM is live; at the end none, unless the last attempt leaked its own. */
  lemma {:induction false} AtMostOneIsLive(env: seq<Attempt>, n: nat, p: nat)
    requires n <= |env| && AllButLastRelaunch(env, n) && p <= |AllEffects(env, n)|
    ensures 0 <= Live(AllEffects(env, n)[..p]) <= 1
    ensures Live(AllEffects(env, n)) == if n > 0 && Leaks(env[n - 1]) then 1 else 0
  {
    if n > 0 {
      var before, last := AllEffects(env, n - 1), Effects(env[n - 1]);
      AtMostOneIsLive(env, n - 1, if p <= |before| then p else 0);
      LiveJoin(before, last);
      LivePrefix(before, last, p);
      LiveOfAttempt(env[n - 1], if p <= |before| then 0 else p - |before|);
    }
  }

  /** Attempt k launched a VM and terminated that VM next. */
  ghost predicate CleanPair(env: seq<Attempt>, log: seq<Effect>, k: nat)
    requires k < |env| && 2 * k + 1 < |log|
  {
    env[k].launch.Some? && log[2 * k] == Launch(env[k].launch.value)
        && log[2 * k + 1] == Terminated(env[k].launch.value)
  }

  /** Attempt after attempt: a launch, then the termination of the same VM, before the next launch or the return. */
  lemma {:induction false} EachLaunchIsTerminated(env: seq<Attempt>, n: nat)
    requires n <= |env| && forall k :: 0 <= k < n ==> Returns(env[k])
    ensures var log := AllEffects(env, n);
            && |log| == 2 * n
            && forall k :: 0 <= k < n ==> CleanPair(env, log, k)
  {
    if n > 0 {
      EachLaunchIsTerminated(env, n - 1);
      var before, log := AllEffects(env, n - 1), AllEffects(env, n);
      forall k | 0 <= k < n ensures CleanPair(env, log, k) {
        assert k < n - 1 ==> CleanPair(env, before, k);
      }
    }
  }

  /** lease_with_relaunch makes at most max_relaunches + 1 leases, holds at most one live VM at any moment, and
      leaves one only when its last attempt leaked it. */
  lemma RelaunchHoldsOneVm(env: seq<Attempt>, maxRelaunches: int, p: nat)
    requires maxRelaunches + 1 <= |env| && p <= |ItemLog(env, maxRelaunches)|
    ensures var n := Attempts(env, maxRelaunches + 1);
            && n <= (if maxRelaunches < 0 then 0 else maxRelaunches + 1)
            && 0 <= Live(ItemLog(env, maxRelaunches)[..p]) <= 1
            && (Live(ItemLog(env, maxRelaunches)) == 1 <==> n > 0 && Leaks(env[n - 1]))
  {
    AttemptsStop(env, maxRelaunches + 1);
    AtMostOneIsLive(env, Attempts(env, maxRelaunches + 1), p);
  }

  /** When it returns an outcome, every VM it launched was terminated before the next launch and before the return;
      and the outcome is that of the first attempt that is done or not retryable, or of the last one allowed. */
  lemma RelaunchCleansUp(env: seq<Attempt>, maxRelaunches: int, o: Outcome)
    requires maxRelaunches + 1 <= |env| && Answered(env, Attempts(env, maxRelaunches + 1), Ended(Returned(o)))
    ensures var n := o.attempt + 1;
            var log := ItemLog(env, maxRelaunches);
            && n == Attempts(env, maxRelaunches + 1) <= |env| && Answers(env[n - 1], Returned(o))
            && (forall k :: 0 <= k < n - 1 ==> Relaunchable(env[k]))
            && (o.retryable ==> n == maxRelaunches + 1)
            && |log| == 2 * n
            && (forall k :: 0 <= k < n ==> CleanPair(env, log, k))
  {
    AttemptsStop(env, maxRelaunches + 1);
    EachLaunchIsTerminated(env, Attempts(env, maxRelaunches + 1));
  }

  /** A failure the VM itself reports is relaunched exactly when the VM marked it retryable and its report fits in
      ErrorData. */
  lemma VmFailureIsRelaunchedIff(b: Base, e: VmError, text: string, vm: string, termination: Termination)
    requires WellFormedBase(b) && WellFormedFields(e.data) && !(SDK_MODULE <= e.errorType) && !termination.Raises?
    ensures Relaunchable(Attempt(Some(vm), Failed(SendFailure(b, e, text)), termination)) <==>
            e.retryable && ErrorDataFits(b, e)
  {
    ErrorReachesOrchestrator(b, e, text);
  }

  /** A retryable failure with a message of 4096 characters is not relaunched. */
  lemma LongFailureIsNotRelaunched(text: string)
    ensures var b := Base(Str("mvm-1"), Null, Int(1));
            var e := VmError("Flaky", seq(ERROR_DATA_LIMIT, _ => 'x'), true, Empty);
            WellFormedBase(b) && !Relaunchable(Attempt(Some("mvm-1"), Failed(SendFailure(b, e, text)), Accepted))
  {
    var b, e := Base(Str("mvm-1"), Null, Int(1)), VmError("Flaky", seq(ERROR_DATA_LIMIT, _ => 'x'), true, Empty);
    FailureIsLongerThanMessage(b, e);
    assert |e.errorType| < |SDK_MODULE|;
    VmFailureIsRelaunchedIff(b, e, text, "mvm-1", Accepted);
  }

  // ---------------------------------------------------------------- the fan-out

  datatype Approval = Approved | ApprovalTimedOut | ApprovalFailed

  datatype Mapped =
    | PlanRaised
    | PlanRejected(why: Rejection)
    | ApprovalRequired
    | Denied
    | MapDone(concurrency: int, outcomes: seq<Relaunched>, succeeded: nat, failed: int, errors: nat)

  /** lease_map's gates: nothing, or why it stops. */
  function Gate(plan: Option<LeasePlan>, approve: bool, approval: Approval): Option<Mapped> {
    if plan.None? then Some(PlanRaised)
    else if plan.value.rejected.Some? then Some(PlanRejected(plan.value.rejected.value))
    else if plan.value.needsApproval && !approve then Some(ApprovalRequired)
    else if plan.value.needsApproval && !approval.Approved? then Some(Denied)
    else None
  }

  function Clamp(plan: LeasePlan, maxConcurrency: Option<int>): int {
    var c := if plan.concurrency != 0 then plan.concurrency else 1;
    if maxConcurrency.Some? then Max(1, Min(c, maxConcurrency.value)) else c
  }

  /** Item i's answer, decided by its own environment. */
  predicate Succeeds(env: seq<Attempt>, maxRelaunches: int)
    requires maxRelaunches + 1 <= |env|
  {
    var n := Attempts(env, maxRelaunches + 1);
    n > 0 && Returns(env[n - 1]) && env[n - 1].callback.Completed?
  }

  predicate Errs(env: seq<Attempt>, maxRelaunches: int)
    requires maxRelaunches + 1 <= |env|
  {
    var n := Attempts(env, maxRelaunches + 1);
    n > 0 && !Returns(env[n - 1])
  }

  ghost predicate EnoughEnv(envs: seq<seq<Attempt>>, maxRelaunches: int) {
    forall i :: 0 <= i < |envs| ==> maxRelaunches + 1 <= |envs[i]|
  }

  /** The items whose outcome is done, and those that raise. */
  ghost function Successes(envs: seq<seq<Attempt>>, maxRelaunches: int): set<nat>
    requires EnoughEnv(envs, maxRelaunches)
  {
    set i: nat | i < |envs| && Succeeds(envs[i], maxRelaunches)
  }

  ghost function Raising(envs: seq<seq<Attempt>>, maxRelaunches: int): set<nat>
    requires EnoughEnv(envs, maxRelaunches)
  {
    set i: nat | i < |envs| && Errs(envs[i], maxRelaunches)
  }

  /** The items in the order they complete: each task once. */
  ghost predicate IsOrder(order: seq<nat>, n: nat) {
    && |order| == n
    && (forall k :: 0 <= k < n ==> order[k] < n)
    && (forall j, k :: 0 <= j < k < n ==> order[j] != order[k])
    && (forall i: nat :: i < n ==> i in order)
  }

  /** How one item came out: an answer to collect, or an exception. */
  datatype Result = Result(item: Relaunched, raised: bool, done: bool)

  ghost predicate IsResult(env: seq<Attempt>, maxRelaunches: int, r: Result, log: seq<Effect>)
    requires maxRelaunches + 1 <= |env|
  {
    && Answered(env, Attempts(env, maxRelaunches + 1), r.item)
    && (r.raised <==> Errs(env, maxRelaunches)) && (r.done <==> Succeeds(env, maxRelaunches))
    && log == ItemLog(env, maxRelaunches)
  }

  method RunItem(env: seq<Attempt>, maxRelaunches: int) returns (r: Result, effects: seq<Effect>)
    requires maxRelaunches + 1 <= |env|
    ensures IsResult(env, maxRelaunches, r, effects)
  {
    var item;
    item, effects := LeaseWithRelaunch(env, maxRelaunches);
    var raised := item == Ended(Raised);
    r := Result(item, raised, !raised && item.Ended? && item.leased.outcome.status.StatusDone?);
  }

  /** How many of the first k of order belong to s. */
  ghost function CountIn(order: seq<nat>, k: nat, s: set<nat>): nat
    requires k <= |order|
  {
    if k == 0 then 0 else CountIn(order, k - 1, s) + if order[k - 1] in s then 1 else 0
  }

  /** The first k of order, as a set. */
  ghost function First(order: seq<nat>, k: nat): set<nat>
    requires k <= |order|
  {
    if k == 0 then {} else First(order, k - 1) + {order[k - 1]}
  }

  lemma {:induction false} InFirst(order: seq<nat>, k: nat, j: nat)
    requires j < |order| && k <= |order|
    requires forall a, b :: 0 <= a < b < |order| ==> order[a] != order[b]
    ensures order[j] in First(order, k) <==> j < k
  {
    if k > 0 {
      InFirst(order, k - 1, j);
    }
  }

  lemma {:induction false} CountIsSize(order: seq<nat>, k: nat, s: set<nat>)
    requires k <= |order| && forall a, b :: 0 <= a < b < |order| ==> order[a] != order[b]
    ensures CountIn(order, k, s) == |First(order, k) * s|
  {
    if k > 0 {
      var x := order[k - 1];
      CountIsSize(order, k - 1, s);
      InFirst(order, k - 1, k - 1);
      assert First(order, k) * s == First(order, k - 1) * s + if x in s then {x} else {};
    }
  }

  lemma CountAll(order: seq<nat>, s: set<nat>)
    requires IsOrder(order, |order|) && forall i :: i in s ==> i < |order|
    ensures CountIn(order, |order|, s) == |s|
  {
    CountIsSize(order, |order|, s);
    forall i | i in s ensures i in First(order, |order|) {
      assert i in order;
      var j :| 0 <= j < |order| && order[j] == i;
      InFirst(order, |order|, j);
    }
    assert First(order, |order|) * s == s;
  }

  ghost predicate AreResults(envs: seq<seq<Attempt>>, maxRelaunches: int, order: seq<nat>, results: seq<Result>,
                             logs: seq<seq<Effect>>)
    requires EnoughEnv(envs, maxRelaunches)
  {
    |results| == |logs| <= |order| &&
    forall k :: 0 <= k < |results| ==> order[k] < |envs| && IsResult(envs[order[k]], maxRelaunches, results[k], logs[k])
  }

  /** context.map with all_completed: every item runs. */
  method RunItems(envs: seq<seq<Attempt>>, maxRelaunches: int, order: seq<nat>)
                  returns (results: seq<Result>, logs: seq<seq<Effect>>)
    requires EnoughEnv(envs, maxRelaunches) && IsOrder(order, |envs|)
    ensures |results| == |order| && AreResults(envs, maxRelaunches, order, results, logs)
  {
    results, logs := [], [];
    for k := 0 to |order|
      invariant |results| == k && AreResults(envs, maxRelaunches, order, results, logs)
    {
      var r, effects := RunItem(envs[order[k]], maxRelaunches);
      results, logs := results + [r], logs + [effects];
    }
  }

  function CountRaised(results: seq<Result>, k: nat): nat
    requires k <= |results|
  {
    if k == 0 then 0 else CountRaised(results, k - 1) + if results[k - 1].raised then 1 else 0
  }

  function CountDone(results: seq<Result>, k: nat): nat
    requires k <= |results|
  {
    if k == 0 then 0 else CountDone(results, k - 1) + if results[k - 1].done then 1 else 0
  }

  /** get_results() and get_errors(), and the count of outcomes that are done. */
  method Tally(results: seq<Result>) returns (outcomes: seq<Relaunched>, errors: nat, succeeded: nat)
    requires forall k :: 0 <= k < |results| && results[k].done ==> !results[k].raised
    ensures |outcomes| + errors == |results| && succeeded <= |outcomes|
    ensures errors == CountRaised(results, |results|) && succeeded == CountDone(results, |results|)
  {
    outcomes, errors, succeeded := [], 0, 0;
    for k := 0 to |results|
      invariant |outcomes| + errors == k && succeeded <= |outcomes|
      invariant errors == CountRaised(results, k) && succeeded == CountDone(results, k)
    {
      if results[k].raised {
        errors := errors + 1;
      } else {
        outcomes := outcomes + [results[k].item];
        if results[k].done { succeeded := succeeded + 1; }
      }
    }
  }

  lemma Membership(envs: seq<seq<Attempt>>, maxRelaunches: int, i: nat)
    requires EnoughEnv(envs, maxRelaunches) && i < |envs|
    ensures i in Raising(envs, maxRelaunches) <==> Errs(envs[i], maxRelaunches)
    ensures i in Successes(envs, maxRelaunches) <==> Succeeds(envs[i], maxRelaunches)
  {
  }

  lemma {:induction false} CountsMatch(results: seq<Result>, order: seq<nat>, raising: set<nat>, successes: set<nat>,
                                       k: nat)
    requires k <= |results| <= |order|
    requires forall j :: 0 <= j < |results| ==>
               results[j].raised == (order[j] in raising) && results[j].done == (order[j] in successes)
    ensures CountRaised(results, k) == CountIn(order, k, raising)
            && CountDone(results, k) == CountIn(order, k, successes)
  {
    if k > 0 {
      CountsMatch(results, order, raising, successes, k - 1);
    }
  }

  lemma ResultFlags(envs: seq<seq<Attempt>>, maxRelaunches: int, order: seq<nat>, results: seq<Result>,
                    logs: seq<seq<Effect>>, k: nat)
    requires EnoughEnv(envs, maxRelaunches) && AreResults(envs, maxRelaunches, order, results, logs) && k < |results|
    ensures results[k].raised == (order[k] in Raising(envs, maxRelaunches))
    ensures results[k].done == (order[k] in Successes(envs, maxRelaunches))
  {
    assert IsResult(envs[order[k]], maxRelaunches, results[k], logs[k]);
    Membership(envs, maxRelaunches, order[k]);
  }

  /** Counted as the items complete, or over the tasks: the same. */
  lemma CountsAgree(envs: seq<seq<Attempt>>, maxRelaunches: int, order: seq<nat>, results: seq<Result>,
                                       logs: seq<seq<Effect>>, k: nat)
    requires EnoughEnv(envs, maxRelaunches) && AreResults(envs, maxRelaunches, order, results, logs) && k <= |results|
    ensures CountRaised(results, k) == CountIn(order, k, Raising(envs, maxRelaunches))
    ensures CountDone(results, k) == CountIn(order, k, Successes(envs, maxRelaunches))
  {
    var raising, successes := Raising(envs, maxRelaunches), Successes(envs, maxRelaunches);
    forall j | 0 <= j < |results|
      ensures results[j].raised == (order[j] in raising) && results[j].done == (order[j] in successes)
    {
      ResultFlags(envs, maxRelaunches, order, results, logs, j);
    }
    CountsMatch(results, order, raising, successes, k);
  }

  /** lease_map over the given plan; logs[k] is what the k-th item to complete did. It launches nothing unless the
      plan stands and is approved; then it accounts for every task. */
  method LeaseMap(envs: seq<seq<Attempt>>, plan: Option<LeasePlan>, approve: bool, approval: Approval,
                  maxConcurrency: Option<int>, maxRelaunches: int, order: seq<nat>)
      returns (r: Mapped, logs: seq<seq<Effect>>)
    requires EnoughEnv(envs, maxRelaunches) && IsOrder(order, |envs|)
    ensures Gate(plan, approve, approval).Some? ==> r == Gate(plan, approve, approval).value && logs == []
    ensures Gate(plan, approve, approval).None? ==>
              && r.MapDone? && r.concurrency == Clamp(plan.value, maxConcurrency)
              && |logs| == |envs| && |r.outcomes| + r.errors == |envs| && r.succeeded + r.failed == |envs|
              && (forall k :: 0 <= k < |order| ==> logs[k] == ItemLog(envs[order[k]], maxRelaunches))
              && r.errors == |Raising(envs, maxRelaunches)| && r.succeeded == |Successes(envs, maxRelaunches)|
              && r.failed >= r.errors
  {
    logs := [];
    if plan.None? { return PlanRaised, []; }
    if plan.value.rejected.Some? { return PlanRejected(plan.value.rejected.value), []; }
    if plan.value.needsApproval {
      if !approve { return ApprovalRequired, []; }
      if !approval.Approved? { return Denied, []; }
    }
    var concurrency := if plan.value.concurrency != 0 then plan.value.concurrency else 1;
    if maxConcurrency.Some? {
      concurrency := Max(1, Min(concurrency, maxConcurrency.value));
    }
    var results;
    results, logs := RunItems(envs, maxRelaunches, order);
    CountsAgree(envs, maxRelaunches, order, results, logs, |order|);
    CountAll(order, Successes(envs, maxRelaunches));
    CountAll(order, Raising(envs, maxRelaunches));
    assert forall k :: 0 <= k < |order| ==> IsResult(envs[order[k]], maxRelaunches, results[k], logs[k]);
    var outcomes, errors, succeeded := Tally(results);
    r := MapDone(concurrency, outcomes, succeeded, |envs| - succeeded, errors);
  }

  // ---------------------------------------------------------------- what the fan-out promises

  /** Item i has made the first at[i] effects of its log. */
  ghost predicate Progress(logs: seq<seq<Effect>>, at: seq<nat>) {
    |at| == |logs| && forall i :: 0 <= i < |logs| ==> at[i] <= |logs[i]|
  }

  /** VMs live among the first n items. */
  function TotalLive(logs: seq<seq<Effect>>, at: seq<nat>, n: nat): int
    requires n <= |logs| && Progress(logs, at)
  {
    if n == 0 then 0 else TotalLive(logs, at, n - 1) + Live(logs[n - 1][..at[n - 1]])
  }

  /** Items under way: begun and not finished. */
  function Busy(logs: seq<seq<Effect>>, at: seq<nat>, n: nat): nat
    requires n <= |logs| && Progress(logs, at)
  {
    if n == 0 then 0 else Busy(logs, at, n - 1) + if 0 < at[n - 1] < |logs[n - 1]| then 1 else 0
  }

  /** Items finished with a VM left running. */
  function Leaked(logs: seq<seq<Effect>>, at: seq<nat>, n: nat): nat
    requires n <= |logs| && Progress(logs, at)
  {
    if n == 0 then 0
    else Leaked(logs, at, n - 1) + if at[n - 1] == |logs[n - 1]| && Live(logs[n - 1]) == 1 then 1 else 0
  }

  ghost predicate AreItemLogs(logs: seq<seq<Effect>>, envs: seq<seq<Attempt>>, maxRelaunches: int)
    requires EnoughEnv(envs, maxRelaunches)
  {
    |logs| == |envs| && forall i :: 0 <= i < |envs| ==> logs[i] == ItemLog(envs[i], maxRelaunches)
  }

  lemma ItemLive(env: seq<Attempt>, maxRelaunches: int, log: seq<Effect>, p: nat)
    requires maxRelaunches + 1 <= |env| && log == ItemLog(env, maxRelaunches) && p <= |log|
    ensures Live(log[..p]) <= if 0 < p < |log| then 1 else if p == |log| && Live(log) == 1 then 1 else 0
  {
    AttemptsStop(env, maxRelaunches + 1);
    AtMostOneIsLive(env, Attempts(env, maxRelaunches + 1), p);
    if p == |log| {
      assert log[..p] == log;
    } else if p == 0 {
      assert log[..p] == [];
    }
  }

  /** However the items interleave, the VMs live at any moment are no more than the items under way, plus one for
      each item that ended in an exception and left its VM running. */
  lemma {:induction false} LiveVmsAreBounded(logs: seq<seq<Effect>>, envs: seq<seq<Attempt>>, maxRelaunches: int,
                                             at: seq<nat>, n: nat)
    requires EnoughEnv(envs, maxRelaunches) && AreItemLogs(logs, envs, maxRelaunches) && Progress(logs, at)
             && n <= |logs|
    ensures TotalLive(logs, at, n) <= Busy(logs, at, n) + Leaked(logs, at, n)
  {
    if n > 0 {
      LiveVmsAreBounded(logs, envs, maxRelaunches, at, n - 1);
      ItemLive(envs[n - 1], maxRelaunches, logs[n - 1], at[n - 1]);
    }
  }

  /** A map that keeps at most its concurrency under way never holds more live VMs than fit the memory quota, while
      no item has left one running. */
  lemma MapFitsTheQuota(logs: seq<seq<Effect>>, envs: seq<seq<Attempt>>, maxRelaunches: int, at: seq<nat>,
                        baselineMib: int, policy: LeasePolicy, account: Account, maxConcurrency: Option<int>)
    requires EnoughEnv(envs, maxRelaunches) && AreItemLogs(logs, envs, maxRelaunches) && Progress(logs, at)
    requires baselineMib >= 1
    requires var plan := Plan(|envs|, baselineMib, policy, account).value;
             && plan.rejected.None? && plan.concurrency >= 1
             && Busy(logs, at, |logs|) <= Clamp(plan, maxConcurrency) && Leaked(logs, at, |logs|) == 0
    ensures Fits(TotalLive(logs, at, |logs|), baselineMib, account)
    ensures policy.maxConcurrency.Some? ==> TotalLive(logs, at, |logs|) <= policy.maxConcurrency.value
  {
    LiveVmsAreBounded(logs, envs, maxRelaunches, at, |logs|);
    LimitIsGreatest(baselineMib, policy, account, TotalLive(logs, at, |logs|));
  }
}
