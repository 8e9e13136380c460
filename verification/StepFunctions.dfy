/** The state machines microvm/integrations/stepfunctions.py generates: their states, names and targets. */
module StepFunctions {
  import opened Common
  import opened StateMachine

  const ON_LEASE_ERROR := "OnLeaseError"
  const TERMINATE_FAILED := "TerminateFailed"
  const TERMINATE := "Terminate"
  const REAP := "Reap"
  const TERMINATE_STALE := "TerminateStale"
  const TERMINATE_ONE := "TerminateOne"
  const ALREADY_GONE := "AlreadyGone"
  const FAILED := "Failed"
  const DONE := "Done"
  const SHARD_DONE := "ShardDone"
  const FANOUT := "Fanout"
  const GATE := "Gate"
  const REQUEST_APPROVAL := "RequestApproval"
  const DENIED := "Denied"

  /** One lease flow: the name of its first state, the VM's duration cap in seconds, the name of its last state. */
  datatype Flow = Flow(name: string, maxDuration: int, done: string)

  /** approval holds approve_above_shards (0 when omitted) if there is an approval topic. */
  datatype FanoutSpec = FanoutSpec(maxConcurrency: int, approval: Option<int>)

  // ---------------------------------------------------------------- the generator

  function StaleScope(): seq<Entry> {
    [Entry(TERMINATE_ONE, Task(Terminate(ItemVm), true, Some(Catcher([NotFoundException], false, ALREADY_GONE)), None)),
     Entry(ALREADY_GONE, Pass)]
  }

  function LaunchState(f: Flow): State {
    Task(RunAndWait(f.maxDuration), true,
         Some(Catcher([StatesTimeout, StatesHeartbeatTimeout, StatesTaskFailed], true, ON_LEASE_ERROR)),
         Some(TERMINATE))
  }

  function OnLeaseErrorState(): State { Choice(CauseNamesVm, TERMINATE_FAILED, REAP) }

  function TerminateFailedState(): State {
    Task(Terminate(CauseVm), true, Some(Catcher([StatesAll], false, REAP)), Some(REAP))
  }

  function TerminateState(f: Flow): State {
    Task(Terminate(TheVm), true, Some(Catcher([NotFoundException], false, f.done)), Some(f.done))
  }

  function ReapState(): State { Task(List, false, Some(Catcher([StatesAll], false, FAILED)), Some(TERMINATE_STALE)) }

  function TerminateStaleState(f: Flow): State {
    Map(Stale(f.maxDuration * 1000), 4, TERMINATE_ONE, StaleScope(), Some(Catcher([StatesAll], false, FAILED)),
        Some(FAILED))
  }

  /** _lease_states */
  function LeaseStates(f: Flow): seq<Entry> {
    [Entry(f.name, LaunchState(f)),
     Entry(ON_LEASE_ERROR, OnLeaseErrorState()),
     Entry(TERMINATE_FAILED, TerminateFailedState()),
     Entry(TERMINATE, TerminateState(f)),
     Entry(REAP, ReapState()),
     Entry(TERMINATE_STALE, TerminateStaleState(f)),
     Entry(FAILED, Fail(LeaseFailed)),
     Entry(f.done, Succeed)]
  }

  function FanoutState(f: Flow, spec: FanoutSpec): State {
    Map(Shards, spec.maxConcurrency, f.name, LeaseStates(f), None, Some(DONE))
  }

  function GateState(threshold: int): State { Choice(MoreShardsThan(threshold), REQUEST_APPROVAL, FANOUT) }

  function RequestApprovalState(): State {
    Task(AskApproval, false, Some(Catcher([StatesTimeout, StatesTaskFailed], false, DENIED)), Some(FANOUT))
  }

  /** _fanout_states */
  function FanoutStates(f: Flow, spec: FanoutSpec): seq<Entry> {
    var states := [Entry(FANOUT, FanoutState(f, spec)), Entry(DONE, Succeed)];
    if spec.approval.None? then states
    else [Entry(GATE, GateState(spec.approval.value)), Entry(REQUEST_APPROVAL, RequestApprovalState()),
        Entry(DENIED, Fail(ApprovalDenied))] + states
  }

  /** lease_state_machine */
  function LeaseStateMachine(name: string, maxDuration: int, fanout: Option<FanoutSpec>): Machine {
    match fanout
    case None => Machine(name, LeaseStates(Flow(name, maxDuration, DONE)))
    case Some(spec) =>
        Machine(if spec.approval.Some? then GATE else FANOUT, FanoutStates(Flow(name, maxDuration, SHARD_DONE), spec))
  }

  // ---------------------------------------------------------------- names

  lemma Literals()
    ensures ON_LEASE_ERROR != TERMINATE_FAILED && ON_LEASE_ERROR != TERMINATE && ON_LEASE_ERROR != REAP
    ensures ON_LEASE_ERROR != TERMINATE_STALE && ON_LEASE_ERROR != FAILED && ON_LEASE_ERROR != DONE
            && ON_LEASE_ERROR != SHARD_DONE
    ensures TERMINATE_FAILED != TERMINATE && TERMINATE_FAILED != REAP && TERMINATE_FAILED != TERMINATE_STALE
    ensures TERMINATE_FAILED != FAILED && TERMINATE_FAILED != DONE && TERMINATE_FAILED != SHARD_DONE
    ensures TERMINATE != REAP && TERMINATE != TERMINATE_STALE && TERMINATE != FAILED && TERMINATE != DONE
            && TERMINATE != SHARD_DONE
    ensures REAP != TERMINATE_STALE && REAP != FAILED && REAP != DONE && REAP != SHARD_DONE
    ensures TERMINATE_STALE != FAILED && TERMINATE_STALE != DONE && TERMINATE_STALE != SHARD_DONE
    ensures FAILED != DONE && FAILED != SHARD_DONE && DONE != SHARD_DONE
  {
    Sizes();
    assert TERMINATE[0] == 'T' && SHARD_DONE[0] == 'S' && REAP[0] == 'R' && DONE[0] == 'D';
  }

  predicate IsInner(n: string) { n == TERMINATE_ONE || n == ALREADY_GONE }

  predicate IsOuter(n: string) { n == FANOUT || n == GATE || n == REQUEST_APPROVAL || n == DENIED }

  lemma InnerIsNew(n: string)
    requires IsInner(n)
    ensures !IsFixed(n, DONE) && !IsFixed(n, SHARD_DONE) && !IsOuter(n) && TERMINATE_ONE != ALREADY_GONE
  {
    Sizes();
    assert TERMINATE_ONE[0] == 'T' && ON_LEASE_ERROR[0] == 'O';
  }

  lemma OuterIsNew(n: string)
    requires IsOuter(n)
    ensures !IsFixed(n, DONE) && !IsFixed(n, SHARD_DONE) && !IsInner(n)
  {
    Sizes();
    assert TERMINATE_FAILED[0] == 'T' && REQUEST_APPROVAL[0] == 'R';
    assert FAILED[2] == 'i' && FANOUT[2] == 'n' && DENIED[0] == 'D' && FAILED[0] == FANOUT[0] == 'F';
    assert REAP[0] == 'R' && DONE[0] == 'D' && GATE[0] == 'G';
  }

  lemma OuterLiterals()
    ensures FANOUT != GATE && FANOUT != REQUEST_APPROVAL && FANOUT != DENIED
    ensures GATE != REQUEST_APPROVAL && GATE != DENIED && REQUEST_APPROVAL != DENIED
  {
    Sizes();
    assert FANOUT[0] == 'F' && DENIED[0] == 'D';
  }

  lemma Sizes()
    ensures |ON_LEASE_ERROR| == |TERMINATE_ONE| == 12 && |TERMINATE_FAILED| == |REQUEST_APPROVAL| == 15
    ensures |TERMINATE| == |SHARD_DONE| == 9 && |REAP| == |DONE| == |GATE| == 4 && |TERMINATE_STALE| == 14
    ensures |FAILED| == |FANOUT| == |DENIED| == 6 && |ALREADY_GONE| == 11
  {
  }

  /** The fixed names of a lease flow's own scope. */
  predicate IsFixed(n: string, done: string) {
    n == ON_LEASE_ERROR || n == TERMINATE_FAILED || n == TERMINATE || n == REAP || n == TERMINATE_STALE || n == FAILED
        || n == done
  }

  /** The names a lease may not take: those of the machine's other states, nested ones included. */
  predicate IsReserved(n: string, fanout: Option<FanoutSpec>) {
    || IsFixed(n, if fanout.None? then DONE else SHARD_DONE)
    || n == TERMINATE_ONE || n == ALREADY_GONE
    || (fanout.Some? && (n == FANOUT || n == DONE))
    || (fanout.Some? && fanout.value.approval.Some? && (n == GATE || n == REQUEST_APPROVAL || n == DENIED))
  }

  /** n names a state, here or in a Map's item processor at any depth. */
  ghost predicate Named(states: seq<Entry>, n: string)
    decreases states
  {
    exists i :: 0 <= i < |states| && (states[i].name == n || (states[i].state.Map? && Named(states[i].state.states, n)))
  }

  /** No name is used twice in the whole definition. */
  ghost predicate DistinctNames(states: seq<Entry>)
    decreases states
  {
    && Unique(states)
    && forall i :: 0 <= i < |states| && states[i].state.Map? ==>
         && DistinctNames(states[i].state.states)
         && (forall k :: 0 <= k < |states| ==> !Named(states[i].state.states, states[k].name))
         && (forall k, n ::
              0 <= k < |states| && k != i && states[k].state.Map? && Named(states[k].state.states, n) ==>
              !Named(states[i].state.states, n))
  }

  predicate IsDone(done: string) { done == DONE || done == SHARD_DONE }

  lemma LeaseStatesUnique(f: Flow)
    requires IsDone(f.done)
    ensures Unique(LeaseStates(f)) <==> !IsFixed(f.name, f.done)
  {
    Literals();
    var s := LeaseStates(f);
    if IsFixed(f.name, f.done) {
      var k := if f.name == ON_LEASE_ERROR then 1 else if f.name == TERMINATE_FAILED then 2
               else if f.name == TERMINATE then 3 else if f.name == REAP then 4
               else if f.name == TERMINATE_STALE then 5 else if f.name == FAILED then 6 else 7;
      assert s[0].name == s[k].name;
    }
  }

  lemma StaleNames(n: string)
    ensures Named(StaleScope(), n) <==> IsInner(n)
    ensures DistinctNames(StaleScope())
  {
    InnerIsNew(TERMINATE_ONE);
    var s := StaleScope();
    assert s[0].name == TERMINATE_ONE && s[1].name == ALREADY_GONE;
  }

  /** A scope with one Map. */
  lemma OneMap(states: seq<Entry>, m: nat)
    requires m < |states| && forall i :: 0 <= i < |states| ==> (states[i].state.Map? <==> i == m)
    ensures DistinctNames(states) <==>
            Unique(states) && DistinctNames(states[m].state.states) &&
            forall k :: 0 <= k < |states| ==> !Named(states[m].state.states, states[k].name)
  {
  }

  /** The names of a lease flow, its item processor included. */
  lemma LeaseNames(f: Flow, n: string)
    ensures Named(LeaseStates(f), n) <==> n == f.name || IsFixed(n, f.done) || IsInner(n)
  {
    var s := LeaseStates(f);
    StaleNames(n);
    assert s[0].name == f.name && s[1].name == ON_LEASE_ERROR && s[2].name == TERMINATE_FAILED
        && s[3].name == TERMINATE;
    assert s[4].name == REAP && s[5].name == TERMINATE_STALE && s[6].name == FAILED && s[7].name == f.done;
    assert s[5].state.states == StaleScope();
    assert forall i :: 0 <= i < |s| && s[i].state.Map? ==> i == 5;
  }

  lemma NamesAvoidStale(f: Flow, k: nat)
    requires IsDone(f.done) && k < 8
    ensures Named(StaleScope(), LeaseStates(f)[k].name) <==> k == 0 && IsInner(f.name)
  {
    var n := LeaseStates(f)[k].name;
    StaleNames(n);
    if k > 0 {
      assert IsFixed(n, f.done);
      if IsInner(n) { InnerIsNew(n); }
    }
  }

  lemma LeaseNamesDistinct(f: Flow)
    requires IsDone(f.done)
    ensures DistinctNames(LeaseStates(f)) <==> !IsFixed(f.name, f.done) && !IsInner(f.name)
  {
    var s := LeaseStates(f);
    LeaseStatesUnique(f);
    StaleNames(f.name);
    OneMap(s, 5);
    forall k | 0 <= k < |s|
      ensures Named(StaleScope(), s[k].name) <==> k == 0 && IsInner(f.name)
    {
      NamesAvoidStale(f, k);
    }
    assert s[0].name == f.name;
  }

  function FanoutIndex(spec: FanoutSpec): nat { if spec.approval.Some? then 3 else 0 }

  lemma FanoutStatesUnique(f: Flow, spec: FanoutSpec)
    ensures Unique(FanoutStates(f, spec))
  {
    OuterLiterals();
    OuterIsNew(FANOUT);
    OuterIsNew(GATE);
    OuterIsNew(REQUEST_APPROVAL);
    OuterIsNew(DENIED);
  }

  /** A name of the outer scope that a flow ending in ShardDone may clash with: only the lease's own name. */
  lemma OuterAvoidsLease(f: Flow, n: string)
    requires f.done == SHARD_DONE && (IsOuter(n) || n == DONE)
    ensures Named(LeaseStates(f), n) <==> n == f.name
  {
    LeaseNames(f, n);
    Literals();
    if IsOuter(n) {
      OuterIsNew(n);
    } else if IsInner(n) {
      InnerIsNew(n);
    }
  }

  lemma FanoutNamesDistinct(f: Flow, spec: FanoutSpec)
    requires f.done == SHARD_DONE
    ensures DistinctNames(FanoutStates(f, spec)) <==> !IsReserved(f.name, Some(spec))
  {
    var s, m := FanoutStates(f, spec), FanoutIndex(spec);
    assert s[m] == Entry(FANOUT, FanoutState(f, spec)) && s[m + 1].name == DONE;
    if spec.approval.Some? {
      assert s[0].name == GATE && s[1].name == REQUEST_APPROVAL && s[2].name == DENIED;
    }
    FanoutStatesUnique(f, spec);
    LeaseNamesDistinct(f);
    OneMap(s, m);
    forall k | 0 <= k < |s|
      ensures Named(LeaseStates(f), s[k].name) <==> s[k].name == f.name
    {
      OuterAvoidsLease(f, s[k].name);
    }
  }

  /** Every state of the generated machine, nested ones included, has a name of its own exactly when the lease's
      name is not one of the generator's. */
  lemma NamesAreDistinctIff(name: string, maxDuration: int, fanout: Option<FanoutSpec>)
    ensures DistinctNames(LeaseStateMachine(name, maxDuration, fanout).states) <==> !IsReserved(name, fanout)
  {
    match fanout
    case None => LeaseNamesDistinct(Flow(name, maxDuration, DONE));
    case Some(spec) => FanoutNamesDistinct(Flow(name, maxDuration, SHARD_DONE), spec);
  }

  // ---------------------------------------------------------------- targets

  ghost predicate HasKey(states: seq<Entry>, n: string) { exists k :: 0 <= k < |states| && states[k].name == n }

  predicate CatchesTo(c: Option<Catcher>, n: string) { c.Some? && c.value.next == n }

  /** n is where the state may go next. */
  predicate GoesTo(s: State, n: string) {
    match s
    case Task(_, _, catcher, next) => next == Some(n) || CatchesTo(catcher, n)
    case Choice(_, target, default) => n == target || n == default
    case Map(_, _, _, _, catcher, next) => next == Some(n) || CatchesTo(catcher, n)
    case _ => false
  }

  /** Every transition leads to a state of the same scope. */
  ghost predicate Resolves(states: seq<Entry>)
    decreases states
  {
    forall i :: 0 <= i < |states| ==>
      && (forall n :: GoesTo(states[i].state, n) ==> HasKey(states, n))
      && (states[i].state.Map? ==>
           HasKey(states[i].state.states, states[i].state.startAt) && Resolves(states[i].state.states))
  }

  lemma StaleResolves()
    ensures Resolves(StaleScope()) && HasKey(StaleScope(), TERMINATE_ONE)
  {
    var s := StaleScope();
    assert s[0].name == TERMINATE_ONE && s[1].name == ALREADY_GONE;
  }

  lemma LeaseResolves(f: Flow)
    ensures Resolves(LeaseStates(f)) && HasKey(LeaseStates(f), f.name)
  {
    StaleResolves();
    var s := LeaseStates(f);
    assert s[0].name == f.name && s[1].name == ON_LEASE_ERROR && s[2].name == TERMINATE_FAILED
        && s[3].name == TERMINATE;
    assert s[4].name == REAP && s[5].name == TERMINATE_STALE && s[6].name == FAILED && s[7].name == f.done;
  }

  /** No transition of a generated machine dangles, whatever the lease is called. */
  lemma NoTargetDangles(name: string, maxDuration: int, fanout: Option<FanoutSpec>)
    ensures var m := LeaseStateMachine(name, maxDuration, fanout); HasKey(m.states, m.startAt) && Resolves(m.states)
  {
    match fanout
    case None => LeaseResolves(Flow(name, maxDuration, DONE));
    case Some(spec) =>
      var f := Flow(name, maxDuration, SHARD_DONE);
      LeaseResolves(f);
      var s, m := FanoutStates(f, spec), FanoutIndex(spec);
      assert s[m] == Entry(FANOUT, FanoutState(f, spec)) && s[m + 1] == Entry(DONE, Succeed);
      if spec.approval.Some? {
        assert s[0].name == GATE && s[1].name == REQUEST_APPROVAL && s[2].name == DENIED;
      }
  }

  // ---------------------------------------------------------------- looking states up

  /** The lease may be called this in its own scope. */
  predicate Proper(f: Flow) { IsDone(f.done) && !IsFixed(f.name, f.done) }

  lemma Lookup(f: Flow)
    requires Proper(f)
    ensures var s := LeaseStates(f);
            && Find(s, f.name) == Some(LaunchState(f)) && Find(s, ON_LEASE_ERROR) == Some(OnLeaseErrorState())
            && Find(s, TERMINATE_FAILED) == Some(TerminateFailedState())
            && Find(s, TERMINATE) == Some(TerminateState(f))
            && Find(s, REAP) == Some(ReapState()) && Find(s, TERMINATE_STALE) == Some(TerminateStaleState(f))
            && Find(s, FAILED) == Some(Fail(LeaseFailed)) && Find(s, f.done) == Some(Succeed)
  {
    var s := LeaseStates(f);
    LeaseStatesUnique(f);
    FindLast(s, 0);
    FindLast(s, 1);
    FindLast(s, 2);
    FindLast(s, 3);
    FindLast(s, 4);
    FindLast(s, 5);
    FindLast(s, 6);
    FindLast(s, 7);
  }

  lemma LookupStale()
    ensures Find(StaleScope(), TERMINATE_ONE) == Some(StaleScope()[0].state)
            && Find(StaleScope(), ALREADY_GONE) == Some(Pass)
  {
    InnerIsNew(TERMINATE_ONE);
    FindLast(StaleScope(), 0);
    FindLast(StaleScope(), 1);
  }

  lemma LookupFanout(f: Flow, spec: FanoutSpec)
    ensures var s := FanoutStates(f, spec);
            && Find(s, FANOUT) == Some(FanoutState(f, spec)) && Find(s, DONE) == Some(Succeed)
            && (spec.approval.Some? ==>
                  && Find(s, GATE) == Some(GateState(spec.approval.value))
                  && Find(s, REQUEST_APPROVAL) == Some(RequestApprovalState())
                  && Find(s, DENIED) == Some(Fail(ApprovalDenied)))
  {
    var s, m := FanoutStates(f, spec), FanoutIndex(spec);
    FanoutStatesUnique(f, spec);
    FindLast(s, m);
    FindLast(s, m + 1);
    if spec.approval.Some? {
      FindLast(s, 0);
      FindLast(s, 1);
      FindLast(s, 2);
    }
  }

  /** A lease named like a fixed state of its own scope is lost: the machine has no state that launches. */
  lemma ReservedNameNeverLaunches(f: Flow)
    requires IsDone(f.done)
    ensures Find(LeaseStates(f), f.name) == Some(LaunchState(f)) <==> Proper(f)
  {
    Literals();
    if Proper(f) {
      Lookup(f);
    } else {
      var k := if f.name == ON_LEASE_ERROR then 1 else if f.name == TERMINATE_FAILED then 2
               else if f.name == TERMINATE then 3 else if f.name == REAP then 4
               else if f.name == TERMINATE_STALE then 5 else if f.name == FAILED then 6 else 7;
      FindLast(LeaseStates(f), k);
    }
  }
}
