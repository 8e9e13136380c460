/** The sizing arithmetic of microvm/lease.py and the pre-flight of FleetManager.lease_many. */
module Sizing {
  import opened Common
  import opened Arithmetic

  const MAX_DURATION_SECONDS := 28_800
  const RESTORE_S := 3.5
  const DEFAULT_FANOUT_LIMIT := 8
  const VM_USD_PER_GB_S: real := 0.0000276944 / 2.0 + 0.0000036667

  datatype LeasePolicy = LeasePolicy(
    budgetS: int, heartbeatTimeoutS: int, slackS: int,
    maxConcurrency: Option<int>, maxVmSeconds: Option<int>, approvalUsd: Option<real>)
  {
    function MaxDuration(): int {
      if budgetS + slackS <= MAX_DURATION_SECONDS then budgetS + slackS else MAX_DURATION_SECONDS
    }
  }

  datatype Reason = ByMemory | ByPolicy | ByDefault

  datatype FanoutLimit = FanoutLimit(byMemory: Option<int>, byPolicy: Option<int>, limit: int, reason: Reason)

  datatype Rejection = TooFewShards | BaselineOverQuota | OverVmSeconds | FanoutOff

  datatype LeasePlan = LeasePlan(
    shards: int, limit: FanoutLimit, concurrency: int, waves: int, launchToAllRunningS: real,
    worstCaseVmSeconds: int, worstCaseUsd: real, needsApproval: bool, rejected: Option<Rejection>)

  /** The account: the applied memory quota when Service Quotas answered, and the launch rate. */
  datatype Account = Account(memoryQuotaGb: Option<real>, launchRate: real)

  function Max(a: int, b: int): int { if a >= b then a else b }
  function Min(a: int, b: int): int { if a <= b then a else b }

  /** None stands for the ValueError of a baseline under 1 MiB. */
  function MemoryLimit(baselineMib: int, quotaGb: real): int
    requires baselineMib >= 1
  {
    (quotaGb * 1024.0 / baselineMib as real).Floor
  }

  function Limit(baselineMib: int, policy: LeasePolicy, account: Account): Option<FanoutLimit> {
    if baselineMib < 1 then None
    else
      var byMemory := if account.memoryQuotaGb.None? then None
          else Some(MemoryLimit(baselineMib, account.memoryQuotaGb.value));
      var byPolicy := policy.maxConcurrency;
      if byMemory.Some? && (byPolicy.None? || byMemory.value <= byPolicy.value) then
        Some(FanoutLimit(byMemory, byPolicy, byMemory.value, ByMemory))
      else if byPolicy.Some? then
        Some(FanoutLimit(byMemory, byPolicy, byPolicy.value, ByPolicy))
      else
        Some(FanoutLimit(byMemory, byPolicy, DEFAULT_FANOUT_LIMIT, ByDefault))
  }

  /** math.ceil(a / b) for a positive divisor. */
  function CeilDiv(a: int, b: int): int
    requires b > 0
  {
    (a + b - 1) / b
  }

  function PerWave(concurrency: int, rate: real): real {
    (if rate > 0.0 then (concurrency - 1) as real / rate else 0.0) + RESTORE_S
  }

  function WhyRejected(shards: int, limit: FanoutLimit, policy: LeasePolicy): Option<Rejection> {
    if shards < 1 then Some(TooFewShards)
    else if limit.byMemory == Some(0) then Some(BaselineOverQuota)
    else if policy.maxVmSeconds.Some? && Max(shards, 0) * policy.MaxDuration() > policy.maxVmSeconds.value
        then Some(OverVmSeconds)
    else if policy.maxConcurrency == Some(0) then Some(FanoutOff)
    else None
  }

  function Plan(shards: int, baselineMib: int, policy: LeasePolicy, account: Account): Option<LeasePlan> {
    match Limit(baselineMib, policy, account)
    case None => None
    case Some(limit) =>
      var concurrency := Max(0, Min(shards, limit.limit));
      var waves := if concurrency > 0 then CeilDiv(shards, concurrency) else 0;
      var worst := Max(shards, 0) * policy.MaxDuration();
      var usd := worst as real * (baselineMib as real / 1024.0) * VM_USD_PER_GB_S;
      Some(LeasePlan(
        shards, limit, concurrency, waves, PerWave(concurrency, account.launchRate) * waves as real,
        worst, usd, policy.approvalUsd.Some? && usd > policy.approvalUsd.value, WhyRejected(shards, limit, policy)))
  }

  // ---------------------------------------------------------------- what the numbers mean

  /** n VMs of the baseline fit the memory quota, when it is known. */
  ghost predicate Fits(n: int, baselineMib: int, account: Account) {
    account.memoryQuotaGb.Some? ==> n as real * baselineMib as real <= account.memoryQuotaGb.value * 1024.0
  }

  lemma FloorOfQuotient(n: int, a: real, b: real)
    requires b > 0.0
    ensures n <= (a / b).Floor <==> n as real * b <= a
  {
    var q := a / b;
    assert q * b == a;
    if n as real <= q {
      assert n as real * b <= q * b;
    } else {
      assert n as real * b > q * b;
    }
  }

  /** The limit is the greatest number that fits the quota and the policy, or 8 when neither is known. */
  lemma LimitIsGreatest(baselineMib: int, policy: LeasePolicy, account: Account, n: int)
    requires baselineMib >= 1
    ensures var limit := Limit(baselineMib, policy, account);
            limit.Some? &&
            (n <= limit.value.limit <==>
               && Fits(n, baselineMib, account)
               && (policy.maxConcurrency.Some? ==> n <= policy.maxConcurrency.value)
               && (account.memoryQuotaGb.None? && policy.maxConcurrency.None? ==> n <= DEFAULT_FANOUT_LIMIT))
  {
    if account.memoryQuotaGb.Some? {
      FloorOfQuotient(n, account.memoryQuotaGb.value * 1024.0, baselineMib as real);
    }
  }

  lemma CeilDivIsLeast(a: int, b: int)
    requires a > 0 && b > 0
    ensures (CeilDiv(a, b) - 1) * b < a <= CeilDiv(a, b) * b
    ensures CeilDiv(a, b) >= 1
  {
    var q := (a + b - 1) / b;
    assert a + b - 1 == q * b + (a + b - 1) % b;
    assert (q - 1) * b == q * b - b;
  }

  lemma CeilDivIsNatural(a: int, b: int)
    requires a >= 0 && b > 0
    ensures CeilDiv(a, b) >= 0
  {
  }

  lemma CeilDivStep(a: int, b: int)
    requires b > 0
    ensures CeilDiv(a, b) == CeilDiv(a - b, b) + 1
  {
    var q := (a - 1) / b;
    assert a - 1 == q * b + (a - 1) % b;
    assert (q + 1) * b == q * b + b;
    QuotientIs(a + b - 1, b, q + 1);
    QuotientIs(a - b + b - 1, b, q);
  }

  /** A plan that is not rejected can launch exactly when neither max_concurrency nor the quota is
      negative; it then runs the least number of waves that covers the shards. */
  lemma PlanCoversShards(shards: int, baselineMib: int, policy: LeasePolicy, account: Account)
    requires baselineMib >= 1
    requires Plan(shards, baselineMib, policy, account).value.rejected.None?
    ensures var plan := Plan(shards, baselineMib, policy, account).value;
            && (plan.concurrency >= 1 <==>
                  (policy.maxConcurrency.None? || policy.maxConcurrency.value >= 0) &&
                  (account.memoryQuotaGb.None? || account.memoryQuotaGb.value >= 0.0))
            && (plan.concurrency >= 1 ==>
                  plan.waves >= 1 && (plan.waves - 1) * plan.concurrency < shards <= plan.waves * plan.concurrency)
            && plan.concurrency <= shards
  {
    var plan := Plan(shards, baselineMib, policy, account).value;
    LimitIsGreatest(baselineMib, policy, account, 1);
    LimitIsGreatest(baselineMib, policy, account, 0);
    if account.memoryQuotaGb.Some? {
      FloorOfQuotient(0, account.memoryQuotaGb.value * 1024.0, baselineMib as real);
      FloorOfQuotient(1, account.memoryQuotaGb.value * 1024.0, baselineMib as real);
    }
    if plan.concurrency >= 1 {
      CeilDivIsLeast(shards, plan.concurrency);
    }
  }

  /** A ceiling of -1 is not rejected, and launches nothing. */
  lemma NegativeCeilingLaunchesNothing(account: Account)
    requires account.memoryQuotaGb.None?
    ensures var plan := Plan(4, 2048, LeasePolicy(900, 120, 120, Some(-1), None, None), account).value;
            plan.rejected.None? && plan.concurrency == 0 && plan.waves == 0
  {
  }

  // ---------------------------------------------------------------- the worst case

  /** The VM-seconds of shards that live this long. */
  function Total(lives: seq<real>): real {
    if |lives| == 0 then 0.0 else Total(lives[..|lives| - 1]) + lives[|lives| - 1]
  }

  lemma {:induction false} TotalIsBounded(lives: seq<real>, longest: int)
    requires forall i :: 0 <= i < |lives| ==> lives[i] <= longest as real
    ensures Total(lives) <= (|lives| * longest) as real
  {
    if |lives| > 0 {
      TotalIsBounded(lives[..|lives| - 1], longest);
      assert (|lives| - 1) * longest + longest == |lives| * longest;
    }
  }

  /** What VM-seconds of a baseline cost. */
  function Cost(vmSeconds: real, baselineMib: int): real {
    vmSeconds * (baselineMib as real / 1024.0) * VM_USD_PER_GB_S
  }

  lemma CostIsMonotone(a: real, b: real, baselineMib: int)
    requires a <= b && baselineMib >= 1
    ensures Cost(a, baselineMib) <= Cost(b, baselineMib)
  {
    var gb := baselineMib as real / 1024.0;
    assert gb > 0.0;
    assert (b - a) * gb >= 0.0;
    assert (b - a) * gb == b * gb - a * gb;
  }

  /** No run can exceed the plan's worst case: shards that each live at most the policy's duration cap use no more
      VM-seconds than it says and cost no more; so a plan that needs no approval stays within approval_usd. */
  lemma WorstCaseIsABound(shards: nat, baselineMib: int, policy: LeasePolicy, account: Account, lives: seq<real>)
    requires baselineMib >= 1 && |lives| == shards
    requires forall i :: 0 <= i < |lives| ==> lives[i] <= policy.MaxDuration() as real
    ensures var plan := Plan(shards, baselineMib, policy, account).value;
            && Total(lives) <= plan.worstCaseVmSeconds as real
            && Cost(Total(lives), baselineMib) <= plan.worstCaseUsd
            && (!plan.needsApproval && policy.approvalUsd.Some? ==>
                 Cost(Total(lives), baselineMib) <= policy.approvalUsd.value)
            && (plan.rejected.None? && policy.maxVmSeconds.Some? ==> Total(lives) <= policy.maxVmSeconds.value as real)
  {
    TotalIsBounded(lives, policy.MaxDuration());
    CostIsMonotone(Total(lives), (shards * policy.MaxDuration()) as real, baselineMib);
  }

  // ---------------------------------------------------------------- lease_many

  datatype LeaseManyError = LengthMismatch | BadBaseline | Rejected(why: Rejection) | OverConcurrency

  /** The launches lease_many makes: lease i with task i, each once, in input order. */
  datatype LeaseMany<L, T> = Refused(error: LeaseManyError) | Launched(launches: seq<(L, T)>)

  function Zip<L, T>(leases: seq<L>, tasks: seq<T>): seq<(L, T)>
    requires |leases| == |tasks|
  {
    seq(|leases|, i requires 0 <= i < |leases| => (leases[i], tasks[i]))
  }

  function LeaseManyLaunches<L, T>(leases: seq<L>, tasks: seq<T>, policy: LeasePolicy, baselineMib: int,
                                   account: Account): LeaseMany<L, T> {
    if |leases| != |tasks| then Refused(LengthMismatch)
    else
      match Plan(|leases|, baselineMib, policy, account)
      case None => Refused(BadBaseline)
      case Some(plan) =>
        if plan.rejected.Some? then Refused(Rejected(plan.rejected.value))
        else if |leases| > plan.concurrency then Refused(OverConcurrency)
        else Launched(Zip(leases, tasks))
  }

  /** lease_many launches, one VM per lease in input order, exactly when there is a task for every lease
      and the count is positive, fits the quota and the concurrency ceiling, and its worst case fits the
      VM-second ceiling (8 leases at most when no ceiling is known). */
  lemma LeaseManyLaunchesIff<L, T>(leases: seq<L>, tasks: seq<T>, policy: LeasePolicy, baselineMib: int,
                                   account: Account)
    ensures var n := |leases|;
            var out := LeaseManyLaunches(leases, tasks, policy, baselineMib, account);
            && (out.Launched? <==>
                  && n == |tasks| && n >= 1 && baselineMib >= 1
                  && Fits(n, baselineMib, account)
                  && (policy.maxConcurrency.Some? ==> n <= policy.maxConcurrency.value)
                  && (policy.maxVmSeconds.Some? ==> n * policy.MaxDuration() <= policy.maxVmSeconds.value)
                  && (account.memoryQuotaGb.None? && policy.maxConcurrency.None? ==> n <= DEFAULT_FANOUT_LIMIT))
            && (out.Launched? ==> out.launches == Zip(leases, tasks))
  {
    if baselineMib >= 1 {
      LimitIsGreatest(baselineMib, policy, account, |leases|);
      LimitIsGreatest(baselineMib, policy, account, 1);
      if account.memoryQuotaGb.Some? {
        FloorOfQuotient(|leases|, account.memoryQuotaGb.value * 1024.0, baselineMib as real);
      }
    }
  }
}
