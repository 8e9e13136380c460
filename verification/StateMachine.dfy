/**
 The fragment of the Amazon States Language the generator uses, as data, and its small-step semantics (sections
 "Transitions" and "Errors" of the Amazon States Language): tasks with a Retry and a Catch, choices, Maps whose
 iterations interleave under MaxConcurrency, Pass, Fail and Succeed. Expressions are the ones the generator writes.
 */
module StateMachine {
  import opened Common
  import opened Json

  // ---------------------------------------------------------------- errors

  datatype ErrorName = StatesAll | StatesTaskFailed | StatesTimeout | StatesHeartbeatTimeout | NotFoundException

  /** Throttling stands for both errors the Retry lists; Fatal for States.Runtime and States.DataLimitExceeded, which
      nothing catches. */
  datatype Error =
    | Throttling | NotFound | TimedOut | HeartbeatTimedOut | EvaluationFailed | LeaseFailed | ApprovalDenied | Fatal
    | Other(name: string)

  predicate Covers(n: ErrorName, e: Error) {
    match n
    case StatesAll => e != Fatal
    case StatesTaskFailed => e != Fatal && e != TimedOut
    case StatesTimeout => e == TimedOut || e == HeartbeatTimedOut
    case StatesHeartbeatTimeout => e == HeartbeatTimedOut
    case NotFoundException => e == NotFound
  }

  predicate CoversAny(names: seq<ErrorName>, e: Error) { exists k :: 0 <= k < |names| && Covers(names[k], e) }

  // ---------------------------------------------------------------- states

  /** The VM a termination names: $vm, $parse($lease_error.Cause).microvm_id, or the Map's item. */
  datatype Target = TheVm | CauseVm | ItemVm

  datatype Action = RunAndWait(maxDuration: int) | Terminate(target: Target) | List | AskApproval

  /** Assign lease_error when assign is set. */
  datatype Catcher = Catcher(errors: seq<ErrorName>, assign: bool, next: string)

  datatype Condition = CauseNamesVm | MoreShardsThan(threshold: int)

  /** The items of a Map: one per shard, or the listed VMs older than the given number of milliseconds. */
  datatype ItemsExpr = Shards | Stale(olderThanMs: int)

  datatype State =
    | Task(action: Action, retry: bool, catcher: Option<Catcher>, next: Option<string>)
    | Choice(condition: Condition, target: string, default: string)
    | Map(items: ItemsExpr, maxConcurrency: int, startAt: string, states: seq<Entry>, catcher: Option<Catcher>,
        next: Option<string>)
    | Pass
    | Fail(error: Error)
    | Succeed

  datatype Entry = Entry(name: string, state: State)

  datatype Machine = Machine(startAt: string, states: seq<Entry>)

  /** A dict literal: of two entries with the same key the later one counts. */
  function Find(states: seq<Entry>, name: string): Option<State> {
    if |states| == 0 then None
    else if states[|states| - 1].name == name then Some(states[|states| - 1].state)
    else Find(states[..|states| - 1], name)
  }

  ghost predicate Unique(states: seq<Entry>) {
    forall i, k :: 0 <= i < k < |states| ==> states[i].name != states[k].name
  }

  lemma {:induction false} FindLast(states: seq<Entry>, i: nat)
    requires i < |states| && forall k :: i < k < |states| ==> states[k].name != states[i].name
    ensures Find(states, states[i].name) == Some(states[i].state)
  {
    if i < |states| - 1 {
      FindLast(states[..|states| - 1], i);
    }
  }

  // ---------------------------------------------------------------- configurations

  datatype VmState = Pending | Running | Suspending | Suspended | Terminating | Terminated
  datatype Vm = Vm(id: string, state: VmState, startedAtMs: int)

  /** What $states.errorOutput holds. */
  datatype Failure = Failure(error: Error, cause: string)

  datatype Vars = Vars(vm: Option<string>, failure: Option<Failure>, listed: seq<Vm>, item: string)

  datatype Effect = Launched(vm: string) | Asked(vm: string, answer: Option<Error>) | Approved

  /** tries counts the retries of a task; for a Map, 0 before its items are known and 1 after. Iterations of the
      last Map are kept in kids. */
  datatype Conf =
    | Waiting(item: string)
    | At(state: string, tries: nat, vars: Vars, log: seq<Effect>, kids: seq<Conf>)
    | Done(vars: Vars, log: seq<Effect>, kids: seq<Conf>)
    | Broken(error: Error, vars: Vars, log: seq<Effect>, kids: seq<Conf>)

  /** The end of one attempt of a task. A launch ends with the text sent to its task token, by the VM with the id `vm`;
      another action with a result, of which only a listing matters; any of them with an error and its cause, of a
      launch perhaps after a VM was started. */
  datatype Answer =
    | Finished(vm: string, output: string)
    | Ok(listed: seq<Vm>)
    | Err(launched: Option<string>, error: Error, cause: string)

  datatype Event = Go | Answered(answer: Answer) | Expanded(nowMs: int) | NotExpanded | Inner(i: nat, event: Event)

  const MAX_ATTEMPTS := 8

  function Fresh(item: string): Vars { Vars(None, None, [], item) }

  // ---------------------------------------------------------------- expressions

  predicate Contains(s: string, part: string) { |s| >= |part| && (part <= s || (|s| > 0 && Contains(s[1..], part))) }

  /** The quoted key the Choice looks for. */
  const MICROVM_ID_KEY: string := ['"'] + "microvm_id" + ['"']

  /** The microvm_id of a JSON object, when there is one. */
  function MicrovmId(text: string): Option<Json> {
    match Loads(text)
    case Some(Obj(fields)) => fields.Get("microvm_id")
    case _ => None
  }

  /** $parse(text).microvm_id, when it is a string: null names no VM. */
  function ParsedVm(text: string): Option<string> {
    match MicrovmId(text)
    case Some(Str(id)) => Some(id)
    case _ => None
  }

  function TargetOf(t: Target, vars: Vars): Option<string> {
    match t
    case TheVm => vars.vm
    case CauseVm => if vars.failure.Some? then ParsedVm(vars.failure.value.cause) else None
    case ItemVm => Some(vars.item)
  }

  predicate Holds(c: Condition, vars: Vars, shards: nat) {
    match c
    case CauseNamesVm => vars.failure.Some? && Contains(vars.failure.value.cause, MICROVM_ID_KEY)
    case MoreShardsThan(threshold) => shards > threshold
  }

  predicate IsStale(vm: Vm, olderThanMs: int, nowMs: int) {
    (vm.state.Running? || vm.state.Suspended? || vm.state.Pending?) && vm.startedAtMs < nowMs - olderThanMs
  }

  function StaleIds(listed: seq<Vm>, olderThanMs: int, nowMs: int): (ids: seq<string>)
    ensures |ids| <= |listed|
  {
    if |listed| == 0 then []
    else
      var rest := StaleIds(listed[1..], olderThanMs, nowMs);
      if IsStale(listed[0], olderThanMs, nowMs) then [listed[0].id] + rest else rest
  }

  function Items(e: ItemsExpr, vars: Vars, shards: nat, nowMs: int): seq<string> {
    match e
    case Shards => seq(shards, i => "")
    case Stale(olderThanMs) => StaleIds(vars.listed, olderThanMs, nowMs)
  }

  // ---------------------------------------------------------------- steps

  /** The answers an action can have. */
  predicate Fits(action: Action, a: Answer) { if action.RunAndWait? then !a.Ok? else !a.Finished? }

  /** What an attempt comes to: a termination whose target cannot be evaluated calls nothing, and a result without a
      microvm_id cannot be assigned. */
  function Outcome(action: Action, vars: Vars, a: Answer): Answer {
    match action
    case Terminate(target) => if TargetOf(target, vars).None? then Err(None, EvaluationFailed, "") else a
    case RunAndWait(_) => if a.Finished? && MicrovmId(a.output).None? then Err(Some(a.vm), EvaluationFailed, "") else a
    case _ => a
  }

  function Effects(action: Action, vars: Vars, a: Answer): seq<Effect> {
    match action
    case RunAndWait(_) => Launches(a)
    case Terminate(target) =>
      (match TargetOf(target, vars)
       case Some(vm) => [Asked(vm, if a.Err? then Some(a.error) else None)]
       case None => [])
    case List => []
    case AskApproval => if a.Err? then [] else [Approved]
  }

  function Launches(a: Answer): seq<Effect> {
    match a
    case Finished(vm, _) => [Launched(vm)]
    case Err(Some(vm), _, _) => [Launched(vm)]
    case _ => []
  }

  function Assigned(action: Action, vars: Vars, a: Answer): Vars {
    match a
    case Finished(_, output) => vars.(vm := ParsedVm(output))
    case Ok(listed) => if action.List? then vars.(listed := listed) else vars
    case Err(_, _, _) => vars
  }

  /** A state ends in an error its Retry does not take. */
  function Caught(catcher: Option<Catcher>, error: Error, cause: string, vars: Vars, log: seq<Effect>,
                  kids: seq<Conf>): Conf {
    if catcher.Some? && CoversAny(catcher.value.errors, error) then
      var caught := if catcher.value.assign then vars.(failure := Some(Failure(error, cause))) else vars;
      At(catcher.value.next, 0, caught, log, kids)
    else Broken(error, vars, log, kids)
  }

  /** The first iteration that failed, if any. */
  function FirstBroken(kids: seq<Conf>): Option<Error> {
    if |kids| == 0 then None else if kids[0].Broken? then Some(kids[0].error) else FirstBroken(kids[1..])
  }

  predicate AllDone(kids: seq<Conf>) { forall i :: 0 <= i < |kids| ==> kids[i].Done? }

  function Active(kids: seq<Conf>): nat {
    if |kids| == 0 then 0 else Active(kids[..|kids| - 1]) + if kids[|kids| - 1].At? then 1 else 0
  }

  function AfterTask(s: State, c: Conf, a: Answer): Conf
    requires s.Task? && c.At? && Fits(s.action, a)
  {
    var r := Outcome(s.action, c.vars, a);
    var log := c.log + Effects(s.action, c.vars, r);
    match r
    case Err(_, error, cause) =>
      if s.retry && error == Throttling && c.tries < MAX_ATTEMPTS then At(c.state, c.tries + 1, c.vars, log, c.kids)
      else Caught(s.catcher, error, cause, c.vars, log, c.kids)
    case _ =>
      var vars := Assigned(s.action, c.vars, r);
      if s.next.Some? then At(s.next.value, 0, vars, log, c.kids) else Done(vars, log, c.kids)
  }

  function AfterMap(s: State, c: Conf): Option<Conf>
    requires s.Map? && c.At?
  {
    if c.tries == 0 then None
    else if FirstBroken(c.kids).Some? then Some(Caught(s.catcher, FirstBroken(c.kids).value, "", c.vars, c.log, c.kids))
    else if AllDone(c.kids)
        then Some(if s.next.Some? then At(s.next.value, 0, c.vars, c.log, c.kids) else Done(c.vars, c.log, c.kids))
    else None
  }

  /** One step of the states of one scope; None when the event cannot happen there. */
  function Step(states: seq<Entry>, shards: nat, c: Conf, ev: Event): Option<Conf>
    decreases ev
  {
    if !c.At? then None
    else
      match Find(states, c.state)
      case None => if ev.Go? then Some(Broken(Fatal, c.vars, c.log, c.kids)) else None
      case Some(s) =>
        match s {
          case Task(action, _, _, _) =>
            if ev.Answered? && Fits(action, ev.answer) then Some(AfterTask(s, c, ev.answer)) else None
          case Choice(condition, target, default) =>
            var next := if Holds(condition, c.vars, shards) then target else default;
            if ev.Go? then Some(At(next, 0, c.vars, c.log, c.kids)) else None
          case Pass => if ev.Go? then Some(Done(c.vars, c.log, c.kids)) else None
          case Fail(error) => if ev.Go? then Some(Broken(error, c.vars, c.log, c.kids)) else None
          case Succeed => if ev.Go? then Some(Done(c.vars, c.log, c.kids)) else None
          case Map(items, maxConcurrency, startAt, inner, catcher, _) =>
            match ev {
              case Go => AfterMap(s, c)
              case Expanded(nowMs) =>
                var kids := Begin(Items(items, c.vars, shards, nowMs));
                if c.tries == 0 then Some(At(c.state, 1, c.vars, c.log, kids)) else None
              case NotExpanded =>
                if c.tries == 0 then Some(Caught(catcher, EvaluationFailed, "", c.vars, c.log, c.kids)) else None
              case Inner(i, event) =>
                if c.tries == 0 || i >= |c.kids| then None
                else
                  match (if c.kids[i].Waiting? then Start(c.kids, i, maxConcurrency, startAt, event)
                      else Step(inner, shards, c.kids[i], event)) {
                    case None => None
                    case Some(kid) => Some(At(c.state, c.tries, c.vars, c.log, c.kids[i := kid]))
                  }
              case Answered(_) => None
            }
        }
  }

  function Begin(items: seq<string>): (kids: seq<Conf>)
    ensures |kids| == |items| && forall i :: 0 <= i < |kids| ==> kids[i] == Waiting(items[i])
  {
    seq(|items|, i requires 0 <= i < |items| => Waiting(items[i]))
  }

  /** An iteration starts when fewer than maxConcurrency are under way; 0 sets no limit. */
  function Start(kids: seq<Conf>, i: nat, maxConcurrency: int, startAt: string, ev: Event): Option<Conf>
    requires i < |kids| && kids[i].Waiting?
  {
    if ev.Go? && (maxConcurrency == 0 || Active(kids) < maxConcurrency)
        then Some(At(startAt, 0, Fresh(kids[i].item), [], [])) else None
  }

  /** A run: the events in order. */
  function Run(states: seq<Entry>, shards: nat, c: Conf, evs: seq<Event>): Option<Conf>
    decreases |evs|
  {
    if |evs| == 0 then Some(c)
    else
      match Step(states, shards, c, evs[0])
      case None => None
      case Some(next) => Run(states, shards, next, evs[1..])
  }

  function Initial(m: Machine): Conf { At(m.startAt, 0, Fresh(""), [], []) }
}
