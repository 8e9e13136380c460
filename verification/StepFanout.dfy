/** What every run of a generated fan-out machine keeps: the approval gate, MaxConcurrency, and each shard's lease. */
module StepFanout {
  import opened Common
  import opened StateMachine
  import opened StepFunctions
  import opened StepPayloads
  import opened StepSafety

  /** A fan-out machine and the number of shards in its input. */
  datatype Job = Job(flow: Flow, spec: FanoutSpec, shards: nat)
  {
    function States(): seq<Entry> { FanoutStates(flow, spec) }
    predicate NeedsApproval() { spec.approval.Some? && shards > spec.approval.value }
  }

  ghost predicate Granted(job: Job, log: seq<Effect>) { job.NeedsApproval() ==> Approved in log }

  /** Every shard's iteration keeps the invariant of a lease flow. */
  ghost predicate ShardsInv(job: Job, kids: seq<Conf>) {
    |kids| == job.shards && forall i :: 0 <= i < |kids| ==> LeaseInv(job.flow, kids[i])
  }

  /** No more iterations under way than MaxConcurrency allows; 0 is no limit. */
  predicate Limited(spec: FanoutSpec, kids: seq<Conf>) {
    spec.maxConcurrency != 0 ==> Active(kids) <= Nat(spec.maxConcurrency)
  }

  function Nat(n: int): nat { if n > 0 then n else 0 }

  ghost predicate RootAt(job: Job, s: string, tries: nat, log: seq<Effect>, kids: seq<Conf>) {
    && (s == FANOUT || s == DONE || (job.spec.approval.Some? && (s == GATE || s == REQUEST_APPROVAL || s == DENIED)))
    && (s == FANOUT || s == DONE ==> Granted(job, log))
    && (s == FANOUT && tries > 0 ==> ShardsInv(job, kids) && Limited(job.spec, kids))
    && (s == DONE ==> ShardsInv(job, kids) && AllDone(kids))
    && (s == GATE || s == REQUEST_APPROVAL || s == DENIED || (s == FANOUT && tries == 0) ==> kids == [])
  }

  ghost predicate RootInv(job: Job, c: Conf) {
    match c
    case Waiting(_) => false
    case At(s, tries, vars, log, kids) => RootAt(job, s, tries, log, kids)
    case Done(_, log, kids) => Granted(job, log) && ShardsInv(job, kids) && AllDone(kids)
    case Broken(_, _, log, kids) => kids == [] || (Granted(job, log) && ShardsInv(job, kids))
  }

  lemma {:induction false} ActiveUpdate(kids: seq<Conf>, i: nat, kid: Conf)
    requires i < |kids|
    ensures Active(kids[i := kid]) == Active(kids) - (if kids[i].At? then 1 else 0) + (if kid.At? then 1 else 0)
  {
    var n := |kids|;
    if i == n - 1 {
      assert kids[i := kid][..n - 1] == kids[..n - 1];
    } else {
      assert kids[i := kid][..n - 1] == kids[..n - 1][i := kid];
      ActiveUpdate(kids[..n - 1], i, kid);
    }
  }

  lemma {:induction false} NoneActive(kids: seq<Conf>)
    requires forall i :: 0 <= i < |kids| ==> kids[i].Waiting?
    ensures Active(kids) == 0
  {
    if |kids| > 0 { NoneActive(kids[..|kids| - 1]); }
  }

  lemma OuterNames(job: Job)
    ensures FANOUT != DONE && GATE != DONE && REQUEST_APPROVAL != DONE && DENIED != DONE
    ensures FANOUT != GATE && FANOUT != REQUEST_APPROVAL && FANOUT != DENIED
    ensures GATE != REQUEST_APPROVAL && GATE != DENIED && REQUEST_APPROVAL != DENIED
  {
    OuterLiterals();
    OuterIsNew(FANOUT);
    OuterIsNew(GATE);
    OuterIsNew(REQUEST_APPROVAL);
    OuterIsNew(DENIED);
  }

  lemma FanoutInnerStep(job: Job, c: Conf, ev: Event)
    requires Proper(job.flow) && RootInv(job, c) && c.At? && c.state == FANOUT && ev.Inner?
    requires Step(job.States(), job.shards, c, ev).Some?
    ensures RootInv(job, Step(job.States(), job.shards, c, ev).value)
  {
    LookupFanout(job.flow, job.spec);
    OuterNames(job);
    var i := ev.i;
    var kid := Step(job.States(), job.shards, c, ev).value.kids[i];
    ActiveUpdate(c.kids, i, kid);
    if !c.kids[i].Waiting? {
      LeaseStep(job.flow, job.shards, c.kids[i], ev.event);
    } else {
      Literals();
    }
  }

  lemma FanoutOtherStep(job: Job, c: Conf, ev: Event)
    requires Proper(job.flow) && RootInv(job, c) && c.At? && c.state == FANOUT && !ev.Inner?
    requires Step(job.States(), job.shards, c, ev).Some?
    ensures RootInv(job, Step(job.States(), job.shards, c, ev).value)
  {
    LookupFanout(job.flow, job.spec);
    OuterNames(job);
    if ev.Expanded? {
      NoneActive(Step(job.States(), job.shards, c, ev).value.kids);
    }
  }

  lemma GateStep(job: Job, c: Conf, ev: Event)
    requires RootInv(job, c) && c.At? && c.state != FANOUT && Step(job.States(), job.shards, c, ev).Some?
    ensures RootInv(job, Step(job.States(), job.shards, c, ev).value)
  {
    LookupFanout(job.flow, job.spec);
    OuterNames(job);
  }

  lemma RootStep(job: Job, c: Conf, ev: Event)
    requires Proper(job.flow) && RootInv(job, c) && Step(job.States(), job.shards, c, ev).Some?
    ensures RootInv(job, Step(job.States(), job.shards, c, ev).value)
  {
    if c.state != FANOUT {
      GateStep(job, c, ev);
    } else if ev.Inner? {
      FanoutInnerStep(job, c, ev);
    } else {
      FanoutOtherStep(job, c, ev);
    }
  }

  lemma {:induction false} RootRun(job: Job, c: Conf, evs: seq<Event>)
    requires Proper(job.flow) && RootInv(job, c) && Run(job.States(), job.shards, c, evs).Some?
    ensures RootInv(job, Run(job.States(), job.shards, c, evs).value)
    decreases |evs|
  {
    if |evs| > 0 {
      RootStep(job, c, evs[0]);
      RootRun(job, Step(job.States(), job.shards, c, evs[0]).value, evs[1..]);
    }
  }

  /** What each shard holds of a VM is the VM of its last launch. */
  ghost predicate AllOwned(f: Flow, kids: seq<Conf>) { forall i :: 0 <= i < |kids| ==> Owned(f, kids[i]) }

  lemma ShardOwned(job: Job, c: Conf, ev: Event)
    requires Proper(job.flow) && RootInv(job, c) && c.At? && c.state == FANOUT && ev.Inner?
    requires AllOwned(job.flow, c.kids) && Own(ev) && Step(job.States(), job.shards, c, ev).Some?
    ensures !Step(job.States(), job.shards, c, ev).value.Waiting?
    ensures AllOwned(job.flow, Step(job.States(), job.shards, c, ev).value.kids)
  {
    LookupFanout(job.flow, job.spec);
    var kid := c.kids[ev.i];
    if kid.At? && kid.state == job.flow.name {
      LaunchOwned(job.flow, job.shards, kid, ev.event);
    } else if kid.At? {
      LaterOwned(job.flow, job.shards, kid, ev.event);
    }
  }

  lemma RootOwned(job: Job, c: Conf, ev: Event)
    requires Proper(job.flow) && RootInv(job, c) && c.At? && AllOwned(job.flow, c.kids) && Own(ev)
    requires Step(job.States(), job.shards, c, ev).Some?
    ensures !Step(job.States(), job.shards, c, ev).value.Waiting?
    ensures AllOwned(job.flow, Step(job.States(), job.shards, c, ev).value.kids)
  {
    if c.state == FANOUT && ev.Inner? {
      ShardOwned(job, c, ev);
    } else {
      LookupFanout(job.flow, job.spec);
      OuterNames(job);
    }
  }

  lemma {:induction false} RootOwnedRun(job: Job, c: Conf, evs: seq<Event>)
    requires Proper(job.flow) && RootInv(job, c) && !c.Waiting? && AllOwned(job.flow, c.kids) && AllOwn(evs)
    requires Run(job.States(), job.shards, c, evs).Some?
    ensures !Run(job.States(), job.shards, c, evs).value.Waiting?
    ensures AllOwned(job.flow, Run(job.States(), job.shards, c, evs).value.kids)
    decreases |evs|
  {
    if |evs| > 0 {
      RootStep(job, c, evs[0]);
      RootOwned(job, c, evs[0]);
      RootOwnedRun(job, Step(job.States(), job.shards, c, evs[0]).value, evs[1..]);
    }
  }

  /** Every run of a fan-out machine: no shard starts before the approval an input over the threshold needs; no
      more shards are under way than MaxConcurrency; a shard that failed with a cause naming its VM asked for
      that VM's termination; and if the run succeeds, every shard's VM had its termination accepted or answered
      not-found. */
  lemma FanoutIsSafe(name: string, maxDuration: int, spec: FanoutSpec, shards: nat, evs: seq<Event>)
    requires !IsFixed(name, SHARD_DONE)
    requires var m := LeaseStateMachine(name, maxDuration, Some(spec)); Run(m.states, shards, Initial(m), evs).Some?
    ensures var m := LeaseStateMachine(name, maxDuration, Some(spec));
            var c := Run(m.states, shards, Initial(m), evs).value;
            !c.Waiting?
            && (c.kids != [] && spec.approval.Some? && shards > spec.approval.value ==> Approved in c.log)
            && (c.At? && c.state == FANOUT && spec.maxConcurrency > 0 ==> Active(c.kids) <= spec.maxConcurrency)
            && (forall i :: 0 <= i < |c.kids| && FailedNaming(c.kids[i]) ==>
                  AskedFor(c.kids[i].log, ParsedVm(c.kids[i].vars.failure.value.cause).value))
            && (c.Done? ==> |c.kids| == shards && forall i :: 0 <= i < shards ==> Tidy(c.kids[i]))
  {
    var job := Job(Flow(name, maxDuration, SHARD_DONE), spec, shards);
    var m := LeaseStateMachine(name, maxDuration, Some(spec));
    OuterNames(job);
    RootRun(job, Initial(m), evs);
    var c := Run(m.states, shards, Initial(m), evs).value;
    assert RootInv(job, c);
    forall i | 0 <= i < |c.kids| ensures LeaseInv(job.flow, c.kids[i]) {}
    if c.Done? {
      forall i | 0 <= i < shards ensures Tidy(c.kids[i]) {
        assert LeaseInv(job.flow, c.kids[i]);
      }
    }
  }

  /** And when the answers are the launched VMs' own, each of those VMs is the one that shard launched last. */
  lemma ShardsTidyTheirOwn(name: string, maxDuration: int, spec: FanoutSpec, shards: nat, evs: seq<Event>)
    requires !IsFixed(name, SHARD_DONE) && AllOwn(evs)
    requires var m := LeaseStateMachine(name, maxDuration, Some(spec)); Run(m.states, shards, Initial(m), evs).Some?
    ensures var m := LeaseStateMachine(name, maxDuration, Some(spec));
            var c := Run(m.states, shards, Initial(m), evs).value;
            && !c.Waiting?
            && (forall i :: 0 <= i < |c.kids| && FailedNaming(c.kids[i]) ==>
                  ParsedVm(c.kids[i].vars.failure.value.cause) == LastLaunched(c.kids[i].log))
            && (c.Done? ==> forall i :: 0 <= i < |c.kids| ==>
                  Tidy(c.kids[i]) && c.kids[i].vars.vm == LastLaunched(c.kids[i].log))
  {
    var job := Job(Flow(name, maxDuration, SHARD_DONE), spec, shards);
    var m := LeaseStateMachine(name, maxDuration, Some(spec));
    OuterNames(job);
    FanoutIsSafe(name, maxDuration, spec, shards, evs);
    RootOwnedRun(job, Initial(m), evs);
  }
}
