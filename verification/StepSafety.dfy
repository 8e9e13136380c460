/** What every run of a generated state machine keeps, and why every run ends. */
module StepSafety {
  import opened Common
  import opened Completions
  import opened Json
  import opened StateMachine
  import opened StepFunctions
  import opened StepPayloads

  // ---------------------------------------------------------------- effects in a log

  /** The VM of the last launch. */
  function LastLaunched(log: seq<Effect>): Option<string> {
    if |log| == 0 then None
    else if log[|log| - 1].Launched? then Some(log[|log| - 1].vm)
    else LastLaunched(log[..|log| - 1])
  }

  lemma LastLaunchedAppend(log: seq<Effect>, e: Effect)
    ensures LastLaunched(log + [e]) == if e.Launched? then Some(e.vm) else LastLaunched(log)
  {
    assert (log + [e])[..|log|] == log;
  }

  /** terminateMicrovm was called for vm. */
  ghost predicate AskedFor(log: seq<Effect>, vm: string) { exists a :: Asked(vm, a) in log }

  /** terminateMicrovm was accepted for vm, or answered not-found. */
  ghost predicate Cleared(log: seq<Effect>, vm: string) { Asked(vm, None) in log || Asked(vm, Some(NotFound)) in log }

  /** If the failure names a VM, that VM's termination was attempted. */
  ghost predicate Handled(vars: Vars, log: seq<Effect>) {
    vars.failure.Some? && (NamesVm(vars.failure.value) ==> AskedFor(log, ParsedVm(vars.failure.value.cause).value))
  }

  // ---------------------------------------------------------------- an iteration of TerminateStale

  /** It asks only for the VM it was started for. */
  ghost predicate AsksOnly(log: seq<Effect>, item: string) {
    forall e :: e in log ==> e.Asked? && e.vm == item
  }

  ghost predicate StaleInv(item: string, c: Conf) {
    match c
    case Waiting(i) => i == item
    case At(s, tries, vars, log, _) =>
      (s == TERMINATE_ONE || s == ALREADY_GONE) && vars.item == item && AsksOnly(log, item) && tries <= MAX_ATTEMPTS
    case Done(vars, log, _) => AsksOnly(log, item)
    case Broken(_, vars, log, _) => AsksOnly(log, item)
  }

  function StaleMeasure(c: Conf): (m: nat)
    ensures m <= 12
  {
    match c
    case Waiting(_) => 12
    case At(s, tries, _, _, _) =>
      if s != TERMINATE_ONE then 1 else 3 + if tries < MAX_ATTEMPTS then MAX_ATTEMPTS - tries else 0
    case _ => 0
  }

  lemma StaleStep(shards: nat, item: string, c: Conf, ev: Event)
    requires StaleInv(item, c) && Step(StaleScope(), shards, c, ev).Some?
    ensures var next := Step(StaleScope(), shards, c, ev).value;
            StaleInv(item, next) && StaleMeasure(next) < StaleMeasure(c)
  {
    LookupStale();
    InnerIsNew(TERMINATE_ONE);
  }

  // ---------------------------------------------------------------- a lease flow

  ghost predicate StaleKids(kids: seq<Conf>, ids: seq<string>) {
    |kids| == |ids| && forall i :: 0 <= i < |kids| ==> StaleInv(ids[i], kids[i])
  }

  /** The iterations are those of VMs older than the flow's cap at some moment. */
  ghost predicate Reaping(f: Flow, vars: Vars, kids: seq<Conf>) {
    exists now :: StaleKids(kids, StaleIds(vars.listed, f.maxDuration * 1000, now))
  }

  ghost predicate AtInv(f: Flow, s: string, tries: nat, vars: Vars, log: seq<Effect>, kids: seq<Conf>) {
    && (s == f.name || IsFixed(s, f.done))
    && (s == f.name || s == TERMINATE || s == f.done ==> vars.failure.None?)
    && (s == f.done ==> vars.vm.Some? && Cleared(log, vars.vm.value))
    && (s == ON_LEASE_ERROR || s == TERMINATE_FAILED ==> vars.failure.Some?)
    && (s == REAP || s == TERMINATE_STALE || s == FAILED ==> Handled(vars, log))
    && (s == TERMINATE_STALE && tries > 0 ==> Reaping(f, vars, kids))
    && tries <= MAX_ATTEMPTS
  }

  ghost predicate LeaseInv(f: Flow, c: Conf) {
    match c
    case Waiting(_) => true
    case At(s, tries, vars, log, kids) => AtInv(f, s, tries, vars, log, kids)
    case Done(vars, log, _) => vars.vm.Some? && Cleared(log, vars.vm.value)
    case Broken(_, vars, log, _) => vars.failure.Some? ==> Handled(vars, log)
  }

  lemma LaunchStep(f: Flow, shards: nat, c: Conf, ev: Event)
    requires Proper(f) && LeaseInv(f, c) && c.At? && c.state == f.name && Step(LeaseStates(f), shards, c, ev).Some?
    ensures LeaseInv(f, Step(LeaseStates(f), shards, c, ev).value)
  {
    Lookup(f);
    Literals();
    assert Covers(StatesTimeout, TimedOut);
  }

  lemma ChooseStep(f: Flow, shards: nat, c: Conf, ev: Event)
    requires Proper(f) && LeaseInv(f, c) && c.At? && c.state == ON_LEASE_ERROR
             && Step(LeaseStates(f), shards, c, ev).Some?
    ensures LeaseInv(f, Step(LeaseStates(f), shards, c, ev).value)
  {
    Lookup(f);
    Literals();
  }

  lemma TerminateFailedStep(f: Flow, shards: nat, c: Conf, ev: Event)
    requires Proper(f) && LeaseInv(f, c) && c.At? && c.state == TERMINATE_FAILED
             && Step(LeaseStates(f), shards, c, ev).Some?
    ensures LeaseInv(f, Step(LeaseStates(f), shards, c, ev).value)
  {
    Lookup(f);
    Literals();
  }

  lemma TerminateStep(f: Flow, shards: nat, c: Conf, ev: Event)
    requires Proper(f) && LeaseInv(f, c) && c.At? && c.state == TERMINATE && Step(LeaseStates(f), shards, c, ev).Some?
    ensures LeaseInv(f, Step(LeaseStates(f), shards, c, ev).value)
  {
    Lookup(f);
    Literals();
  }

  lemma ReapStep(f: Flow, shards: nat, c: Conf, ev: Event)
    requires Proper(f) && LeaseInv(f, c) && c.At? && c.state == REAP && Step(LeaseStates(f), shards, c, ev).Some?
    ensures LeaseInv(f, Step(LeaseStates(f), shards, c, ev).value)
  {
    Lookup(f);
    Literals();
  }

  lemma StaleMapStep(f: Flow, shards: nat, c: Conf, ev: Event)
    requires Proper(f) && LeaseInv(f, c) && c.At? && c.state == TERMINATE_STALE
             && Step(LeaseStates(f), shards, c, ev).Some?
    ensures LeaseInv(f, Step(LeaseStates(f), shards, c, ev).value)
  {
    Lookup(f);
    Literals();
    if ev.Inner? {
      var now :| StaleKids(c.kids, StaleIds(c.vars.listed, f.maxDuration * 1000, now));
      var ids := StaleIds(c.vars.listed, f.maxDuration * 1000, now);
      assert StaleInv(ids[ev.i], c.kids[ev.i]);
      if !c.kids[ev.i].Waiting? {
        StaleStep(shards, ids[ev.i], c.kids[ev.i], ev.event);
      }
      assert StaleKids(Step(LeaseStates(f), shards, c, ev).value.kids, ids);
    } else if ev.Expanded? {
      assert StaleKids(Begin(StaleIds(c.vars.listed, f.maxDuration * 1000, ev.nowMs)),
          StaleIds(c.vars.listed, f.maxDuration * 1000, ev.nowMs));
    }
  }

  /** Every step of a lease flow keeps its invariant. */
  lemma LeaseStep(f: Flow, shards: nat, c: Conf, ev: Event)
    requires Proper(f) && LeaseInv(f, c) && Step(LeaseStates(f), shards, c, ev).Some?
    ensures LeaseInv(f, Step(LeaseStates(f), shards, c, ev).value)
  {
    if c.state == f.name {
      LaunchStep(f, shards, c, ev);
    } else if c.state == ON_LEASE_ERROR {
      ChooseStep(f, shards, c, ev);
    } else if c.state == TERMINATE_FAILED {
      TerminateFailedStep(f, shards, c, ev);
    } else if c.state == TERMINATE {
      TerminateStep(f, shards, c, ev);
    } else if c.state == REAP {
      ReapStep(f, shards, c, ev);
    } else if c.state == TERMINATE_STALE {
      StaleMapStep(f, shards, c, ev);
    } else {
      Lookup(f);
      Literals();
    }
  }

  lemma {:induction false} LeaseRun(f: Flow, shards: nat, c: Conf, evs: seq<Event>)
    requires Proper(f) && LeaseInv(f, c) && Run(LeaseStates(f), shards, c, evs).Some?
    ensures LeaseInv(f, Run(LeaseStates(f), shards, c, evs).value)
    decreases |evs|
  {
    if |evs| > 0 {
      LeaseStep(f, shards, c, evs[0]);
      LeaseRun(f, shards, Step(LeaseStates(f), shards, c, evs[0]).value, evs[1..]);
    }
  }

  // ---------------------------------------------------------------- the VM it is about

  /** Whatever the flow holds of a VM, in $vm or in the failure it caught, is the VM of its last launch. */
  ghost predicate Owned(f: Flow, c: Conf) {
    c.Waiting? ||
    (&& (c.At? && c.state == f.name ==> c.vars.vm.None? && c.vars.failure.None?)
     && (c.vars.vm.Some? ==> c.vars.vm == LastLaunched(c.log))
     && (c.vars.failure.Some? && NamesVm(c.vars.failure.value) ==>
          ParsedVm(c.vars.failure.value.cause) == LastLaunched(c.log)))
  }

  lemma LaunchOwned(f: Flow, shards: nat, c: Conf, ev: Event)
    requires Proper(f) && Owned(f, c) && Own(ev) && c.At? && c.state == f.name
    requires Step(LeaseStates(f), shards, c, ev).Some?
    ensures Owned(f, Step(LeaseStates(f), shards, c, ev).value)
  {
    Lookup(f);
    Literals();
    OwnNames(ev.answer);
    match ev.answer
    case Finished(vm, _) => LastLaunchedAppend(c.log, Launched(vm));
    case Err(Some(vm), _, _) => LastLaunchedAppend(c.log, Launched(vm));
    case _ =>
  }

  lemma TaskOwned(s: State, c: Conf, a: Answer)
    requires s.Task? && c.At? && Fits(s.action, a) && !s.action.RunAndWait?
             && (s.catcher.Some? ==> !s.catcher.value.assign)
    ensures var next := AfterTask(s, c, a);
            && !next.Waiting? && next.vars.vm == c.vars.vm && next.vars.failure == c.vars.failure
            && LastLaunched(next.log) == LastLaunched(c.log)
  {
    var log := Effects(s.action, c.vars, Outcome(s.action, c.vars, a));
    if log == [] {
      assert c.log + log == c.log;
    } else {
      LastLaunchedAppend(c.log, log[0]);
      assert log == [log[0]];
    }
  }

  lemma OtherOwned(states: seq<Entry>, shards: nat, c: Conf, ev: Event)
    requires c.At? && Find(states, c.state).Some? && Step(states, shards, c, ev).Some?
    requires var s := Find(states, c.state).value; !s.Task? && (s.Map? && s.catcher.Some? ==> !s.catcher.value.assign)
    ensures var next := Step(states, shards, c, ev).value;
            && !next.Waiting? && next.vars.vm == c.vars.vm && next.vars.failure == c.vars.failure && next.log == c.log
  {
  }

  lemma LaterTaskOwned(f: Flow, shards: nat, c: Conf, ev: Event)
    requires Proper(f) && Owned(f, c) && c.At?
             && (c.state == TERMINATE || c.state == TERMINATE_FAILED || c.state == REAP)
    requires Step(LeaseStates(f), shards, c, ev).Some?
    ensures Owned(f, Step(LeaseStates(f), shards, c, ev).value)
  {
    Lookup(f);
    Literals();
    TaskOwned(Find(LeaseStates(f), c.state).value, c, ev.answer);
  }

  /** After the launch no step changes what the flow knows of its VM, and none launches. */
  lemma LaterOwned(f: Flow, shards: nat, c: Conf, ev: Event)
    requires Proper(f) && LeaseInv(f, c) && Owned(f, c) && c.At? && c.state != f.name
    requires Step(LeaseStates(f), shards, c, ev).Some?
    ensures Owned(f, Step(LeaseStates(f), shards, c, ev).value)
  {
    if c.state == TERMINATE || c.state == TERMINATE_FAILED || c.state == REAP {
      LaterTaskOwned(f, shards, c, ev);
    } else {
      Lookup(f);
      Literals();
      OtherOwned(LeaseStates(f), shards, c, ev);
    }
  }

  lemma {:induction false} OwnedRun(f: Flow, shards: nat, c: Conf, evs: seq<Event>)
    requires Proper(f) && LeaseInv(f, c) && Owned(f, c) && AllOwn(evs) && Run(LeaseStates(f), shards, c, evs).Some?
    ensures Owned(f, Run(LeaseStates(f), shards, c, evs).value)
    decreases |evs|
  {
    if |evs| > 0 {
      if c.state == f.name {
        LaunchOwned(f, shards, c, evs[0]);
      } else {
        LaterOwned(f, shards, c, evs[0]);
      }
      LeaseStep(f, shards, c, evs[0]);
      OwnedRun(f, shards, Step(LeaseStates(f), shards, c, evs[0]).value, evs[1..]);
    }
  }

  /** Success: the VM in $vm had its termination accepted or answered not-found. */
  ghost predicate Tidy(c: Conf) { c.Done? && c.vars.vm.Some? && Cleared(c.log, c.vars.vm.value) }

  /** Failed after a failure that names a VM. */
  predicate FailedNaming(c: Conf) { c.Broken? && c.vars.failure.Some? && NamesVm(c.vars.failure.value) }

  /** Every run of a single-lease machine whose lease is not named like one of its other states: if it succeeds, the
      VM in $vm had its termination accepted or answered not-found; if it fails after a failure that names a VM, that
      VM's termination was attempted. When the answers are the launched VM's own, either is the VM launched last. */
  lemma SingleLeaseIsSafe(name: string, maxDuration: int, shards: nat, evs: seq<Event>)
    requires !IsFixed(name, DONE)
    requires var m := LeaseStateMachine(name, maxDuration, None); Run(m.states, shards, Initial(m), evs).Some?
    ensures var m := LeaseStateMachine(name, maxDuration, None);
            var c := Run(m.states, shards, Initial(m), evs).value;
            && (c.Done? ==> Tidy(c))
            && (FailedNaming(c) ==> AskedFor(c.log, ParsedVm(c.vars.failure.value.cause).value))
            && (AllOwn(evs) && c.Done? ==> c.vars.vm == LastLaunched(c.log))
            && (AllOwn(evs) && FailedNaming(c) ==> ParsedVm(c.vars.failure.value.cause) == LastLaunched(c.log))
  {
    var f := Flow(name, maxDuration, DONE);
    var m := LeaseStateMachine(name, maxDuration, None);
    LeaseRun(f, shards, Initial(m), evs);
    if AllOwn(evs) {
      OwnedRun(f, shards, Initial(m), evs);
    }
  }

  /** End to end: in every run that fails after a failure its VM reported in at most 32768 characters of JSON,
      terminateMicrovm was called for that VM, which is the one launched last. */
  lemma ReportedFailureIsCleanedUp(name: string, maxDuration: int, shards: nat, evs: seq<Event>, b: Base, e: VmError)
    requires WellFormedBase(b) && WellFormedFields(e.data) && b.microvmId.Str? && |FailureText(b, e)| <= CAUSE_LIMIT
    requires !IsFixed(name, DONE)
    requires var m := LeaseStateMachine(name, maxDuration, None);
             var c := Run(m.states, shards, Initial(m), evs);
             c.Some? && c.value.Broken? && c.value.vars.failure == Some(SendTaskFailure(b, e))
    ensures var m := LeaseStateMachine(name, maxDuration, None);
            var log := Run(m.states, shards, Initial(m), evs).value.log;
            AskedFor(log, b.microvmId.s) && (AllOwn(evs) ==> LastLaunched(log) == Some(b.microvmId.s))
  {
    FailureNamesVmIff(b, e);
    SingleLeaseIsSafe(name, maxDuration, shards, evs);
  }

  lemma SuccessStep(f: Flow, shards: nat, c: Conf, vm: string, b: Base, result: Json)
    requires Proper(f) && c.At? && c.state == f.name && WellFormedBase(b) && WellFormed(result)
    ensures var id := if b.microvmId.Str? then Some(b.microvmId.s) else None;
            Step(LeaseStates(f), shards, c, Answered(Finished(vm, SendTaskSuccess(b, result)))) ==
            Some(At(TERMINATE, 0, c.vars.(vm := id), c.log + [Launched(vm)], c.kids))
  {
    Lookup(f);
    SuccessNamesVm(b, result);
  }

  lemma NoVmStep(f: Flow, shards: nat, c: Conf, a: Answer)
    requires Proper(f) && c.At? && c.state == TERMINATE && c.vars.vm.None? && !a.Finished?
    ensures Step(LeaseStates(f), shards, c, Answered(a)) == Some(Broken(EvaluationFailed, c.vars, c.log, c.kids))
  {
    Lookup(f);
    assert c.log + [] == c.log;
  }

  lemma TwoSteps(states: seq<Entry>, shards: nat, c: Conf, first: Event, next: Conf, second: Event, end: Conf)
    requires Step(states, shards, c, first) == Some(next) && Step(states, shards, next, second) == Some(end)
    ensures Run(states, shards, c, [first, second]) == Some(end)
  {
    assert [first, second][1..] == [second] && [second][1..] == [];
    assert Run(states, shards, next, [second]) == Some(end);
  }

  /** A VM that did not know its id sends null: a success then ends the run in Terminate, whatever the service would
      answer, with no termination asked for, and the VM is left to its duration cap. */
  lemma NullIdIsNeverTerminated(f: Flow, shards: nat, c: Conf, vm: string, b: Base, result: Json, a: Answer)
    requires Proper(f) && c.At? && c.state == f.name && !a.Finished?
    requires WellFormedBase(b) && b.microvmId == Null && WellFormed(result)
    ensures Run(LeaseStates(f), shards, c, [Answered(Finished(vm, SendTaskSuccess(b, result))), Answered(a)]) ==
            Some(Broken(EvaluationFailed, c.vars.(vm := None), c.log + [Launched(vm)], c.kids))
  {
    var next := At(TERMINATE, 0, c.vars.(vm := None), c.log + [Launched(vm)], c.kids);
    SuccessStep(f, shards, c, vm, b, result);
    NoVmStep(f, shards, next, a);
    TwoSteps(LeaseStates(f), shards, c, Answered(Finished(vm, SendTaskSuccess(b, result))), next, Answered(a),
             Broken(EvaluationFailed, next.vars, next.log, next.kids));
  }

  /** A failure the VM reports is handled, and not answered with another launch, if and only if its type is not that of
      an error the Retry lists, or its eight retries are used up. */
  lemma ReportedFailureIsHandledIff(f: Flow, shards: nat, c: Conf, vm: string, b: Base, e: VmError)
    requires Proper(f) && c.At? && c.state == f.name
    ensures var failure := SendTaskFailure(b, e);
            var next := Step(LeaseStates(f), shards, c, Answered(Err(Some(vm), failure.error, failure.cause)));
            && next.Some? && next.value.At? && next.value.log == c.log + [Launched(vm)]
            && next.value.state == if e.errorType in {THROTTLING, QUOTA_EXCEEDED} && c.tries < MAX_ATTEMPTS then f.name
                                   else ON_LEASE_ERROR
  {
    Lookup(f);
    ThrottlingNames(e.errorType);
    var error := SendTaskFailure(b, e).error;
    assert [StatesTimeout, StatesHeartbeatTimeout, StatesTaskFailed][2] == StatesTaskFailed
        && Covers(StatesTaskFailed, error);
  }

  // ---------------------------------------------------------------- reaping

  /** TerminateStale selects exactly the listed VMs that are RUNNING, SUSPENDED or PENDING and older than the cap. */
  lemma {:induction false} StaleIdsAre(listed: seq<Vm>, olderThanMs: int, now: int, id: string)
    ensures id in StaleIds(listed, olderThanMs, now) <==>
            exists k :: 0 <= k < |listed| && listed[k].id == id && IsStale(listed[k], olderThanMs, now)
  {
    if |listed| > 0 {
      StaleIdsAre(listed[1..], olderThanMs, now, id);
      if exists k :: 0 <= k < |listed| && listed[k].id == id && IsStale(listed[k], olderThanMs, now) {
        var k :| 0 <= k < |listed| && listed[k].id == id && IsStale(listed[k], olderThanMs, now);
        assert k > 0 ==> listed[1..][k - 1] == listed[k];
      }
      assert forall k :: 0 <= k < |listed| - 1 ==> listed[1..][k] == listed[k + 1];
    }
  }

  /** A VM launched with a cap of capS seconds is never selected within that cap, whenever the reaper runs, if and
      only if the cap is no longer than that of the policy the machine was generated from. */
  lemma ReaperSparesTheYoungIff(maxDuration: int, capS: int)
    ensures (forall vm: Vm, now: int :: IsStale(vm, maxDuration * 1000, now) ==> now - vm.startedAtMs > capS * 1000)
            <==> capS <= maxDuration
  {
    if capS > maxDuration {
      var vm, now := Vm("", Running, 0), maxDuration * 1000 + 1;
      assert IsStale(vm, maxDuration * 1000, now) && now - vm.startedAtMs <= capS * 1000;
    }
  }

  /** From the moment its items are known, TerminateStale asks for the VMs selected then and no others. */
  ghost predicate Reaped(ids: seq<string>, c: Conf) {
    && (c.Broken? || (c.At? && ((c.state == TERMINATE_STALE && c.tries == 1) || c.state == FAILED)))
    && StaleKids(c.kids, ids)
  }

  lemma ReapedStep(f: Flow, shards: nat, ids: seq<string>, c: Conf, ev: Event)
    requires Proper(f) && Reaped(ids, c) && Step(LeaseStates(f), shards, c, ev).Some?
    ensures Reaped(ids, Step(LeaseStates(f), shards, c, ev).value)
  {
    Lookup(f);
    Literals();
    if ev.Inner? && c.state == TERMINATE_STALE {
      assert StaleInv(ids[ev.i], c.kids[ev.i]);
      if !c.kids[ev.i].Waiting? {
        StaleStep(shards, ids[ev.i], c.kids[ev.i], ev.event);
      }
    }
  }

  lemma {:induction false} ReaperAsksOnlyTheSelected(f: Flow, shards: nat, ids: seq<string>, c: Conf, evs: seq<Event>)
    requires Proper(f) && Reaped(ids, c) && Run(LeaseStates(f), shards, c, evs).Some?
    ensures Reaped(ids, Run(LeaseStates(f), shards, c, evs).value)
    decreases |evs|
  {
    if |evs| > 0 {
      ReapedStep(f, shards, ids, c, evs[0]);
      ReaperAsksOnlyTheSelected(f, shards, ids, Step(LeaseStates(f), shards, c, evs[0]).value, evs[1..]);
    }
  }

  /** The reaper as a whole: whatever happens after TerminateStale evaluates its items at some time, each of its
      calls is for a VM that was listed and, at that time, older than the machine's cap. */
  lemma ReaperIsSafe(f: Flow, shards: nat, c: Conf, now: int, evs: seq<Event>, i: nat, e: Effect)
    requires Proper(f) && c.At? && c.state == TERMINATE_STALE && c.tries == 0
    requires Run(LeaseStates(f), shards, c, [Expanded(now)] + evs).Some?
    requires var end := Run(LeaseStates(f), shards, c, [Expanded(now)] + evs).value;
             (end.At? || end.Broken?) && i < |end.kids| && !end.kids[i].Waiting? && e in end.kids[i].log
    ensures e.Asked? && exists k ::
            0 <= k < |c.vars.listed| && c.vars.listed[k].id == e.vm
            && IsStale(c.vars.listed[k], f.maxDuration * 1000, now)
  {
    Lookup(f);
    var all := [Expanded(now)] + evs;
    assert all[1..] == evs;
    var ids := StaleIds(c.vars.listed, f.maxDuration * 1000, now);
    var began := Step(LeaseStates(f), shards, c, Expanded(now)).value;
    assert StaleKids(began.kids, ids);
    ReaperAsksOnlyTheSelected(f, shards, ids, began, evs);
    var kid := Run(LeaseStates(f), shards, began, evs).value.kids[i];
    assert StaleInv(ids[i], kid);
    StaleIdsAre(c.vars.listed, f.maxDuration * 1000, now, ids[i]);
  }
}
