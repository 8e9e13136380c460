/**
 Fleet.dispatch of microvm/fleet.py: one shared queue, per_vm worker threads for every RUNNING member,
 a result list filled under a lock. The calling thread starts the workers one by one and then joins them;
 any worker may take the next step at any time. on_result may raise, which kills its worker thread.
 */
module Dispatch {
  import opened Common
  import opened Arithmetic

  /** How one request ends: a response, or an exception that is recorded. */
  datatype Reply = Response(status: int, body: int) | Raised(error: string)

  /** One entry of the result list. */
  datatype Entry = Entry(index: nat, vm: nat, reply: Reply)

  datatype Pc =
    | NotStarted
    | Idle                   // at work.get_nowait()
    | Requesting(i: nat)     // client.request in progress
    | Storing(i: nat, entry: Entry)
    | Notifying(i: nat, entry: Entry)
    | Exited                 // found the queue empty
    | Died                   // on_result raised
  {
    predicate Holds(k: nat) { (Requesting? || Storing?) && i == k }
    predicate Over() { Exited? || Died? }
  }

  /** Worker w serves the VM at position w / perVm of the RUNNING members. `owner`, `notified` are history:
      which worker took item i, and whether on_result has been called for it. */
  datatype State = State(
    queue: seq<nat>, results: seq<Option<Entry>>, workers: seq<Pc>, started: nat,
    owner: seq<Option<nat>>, notified: seq<bool>)

  datatype Step = Start | Take(w: nat) | Answer(w: nat, reply: Reply) | Store(w: nat) | Notify(w: nat, raises: bool)

  datatype Begin = BadPerVm | NoRunningMembers | Begun(state: State)

  function Upto(n: nat): seq<nat> { seq(n, i => i) }

  /** dispatch() up to the first thread start, for `vms` RUNNING members and n bodies. */
  function Begins(vms: nat, perVm: int, n: nat): Begin {
    if perVm < 1 then BadPerVm
    else if vms == 0 then NoRunningMembers
    else Begun(State(Upto(n), seq(n, _ => None), seq(vms * perVm, _ => NotStarted), 0, seq(n, _ => None),
        seq(n, _ => false)))
  }

  predicate Enabled(s: State, step: Step) {
    match step
    case Start => s.started < |s.workers|
    case Take(w) => w < |s.workers| && s.workers[w].Idle?
    case Answer(w, _) => w < |s.workers| && s.workers[w].Requesting?
    case Store(w) => w < |s.workers| && s.workers[w].Storing? && s.workers[w].i < |s.results|
    case Notify(w, _) => w < |s.workers| && s.workers[w].Notifying? && s.workers[w].i < |s.notified|
  }

  function Next(perVm: nat, s: State, step: Step): State
    requires perVm > 0 && Enabled(s, step)
  {
    match step
    case Start => s.(workers := s.workers[s.started := Idle], started := s.started + 1)
    case Take(w) =>
      if |s.queue| == 0 then s.(workers := s.workers[w := Exited])
      else
        var i := s.queue[0];
        s.(queue := s.queue[1..], workers := s.workers[w := Requesting(i)],
           owner := if i < |s.owner| then s.owner[i := Some(w)] else s.owner)
    case Answer(w, reply) =>
      var i := s.workers[w].i;
      s.(workers := s.workers[w := Storing(i, Entry(i, w / perVm, reply))])
    case Store(w) =>
      var pc := s.workers[w];
      s.(results := s.results[pc.i := Some(pc.entry)], workers := s.workers[w := Notifying(pc.i, pc.entry)])
    case Notify(w, raises) =>
      s.(notified := s.notified[s.workers[w].i := true], workers := s.workers[w := if raises then Died else Idle])
  }

  predicate Runs(perVm: nat, s: State, steps: seq<Step>)
    requires perVm > 0
    decreases |steps|
  {
    |steps| == 0 || (Enabled(s, steps[0]) && Runs(perVm, Next(perVm, s, steps[0]), steps[1..]))
  }

  function Exec(perVm: nat, s: State, steps: seq<Step>): State
    requires perVm > 0 && Runs(perVm, s, steps)
    decreases |steps|
  {
    if |steps| == 0 then s else Exec(perVm, Next(perVm, s, steps[0]), steps[1..])
  }

  // ---------------------------------------------------------------- the invariant

  /** The items taken so far are 0 .. Taken-1. */
  function Taken(s: State): int { |s.results| - |s.queue| }

  ghost predicate Shape(s: State) {
    && |s.results| == |s.owner| == |s.notified|
    && |s.queue| <= |s.results|
    && s.started <= |s.workers|
    && (forall j :: 0 <= j < |s.queue| ==> s.queue[j] == Taken(s) + j)
    && (forall w :: 0 <= w < |s.workers| ==> (s.workers[w].NotStarted? <==> w >= s.started))
  }

  /** Worker w has item i in its hands, has stored its entry and not yet notified, or has done so. */
  ghost predicate WorkerOk(perVm: nat, s: State, w: nat)
    requires perVm > 0 && w < |s.workers| && |s.results| == |s.owner| == |s.notified|
  {
    var pc := s.workers[w];
    && (pc.Requesting? || pc.Storing? || pc.Notifying? ==>
         pc.i < |s.results| && s.owner[pc.i] == Some(w) && !s.notified[pc.i])
    && (pc.Requesting? || pc.Storing? ==> s.results[pc.i].None?)
    && (pc.Storing? || pc.Notifying? ==> pc.entry.index == pc.i && pc.entry.vm == w / perVm)
    && (pc.Notifying? ==> s.results[pc.i] == Some(pc.entry))
  }

  /** Item i is queued, in the hands of its owner, or finished with an entry of its own index and of the VM
      its owner serves; and on_result has been called exactly when the owner has moved on from it. */
  ghost predicate ItemOk(perVm: nat, s: State, i: nat)
    requires perVm > 0 && i < |s.results| == |s.owner| == |s.notified|
  {
    && (s.owner[i].None? <==> i >= Taken(s))
    && (s.owner[i].Some? ==>
          var w := s.owner[i].value;
          && w < |s.workers|
          && (s.results[i].None? <==> s.workers[w].Holds(i))
          && (s.results[i].Some? ==> s.results[i].value.index == i && s.results[i].value.vm == w / perVm)
          && (s.notified[i] <==> s.results[i].Some? && !(s.workers[w].Notifying? && s.workers[w].i == i)))
    && (s.owner[i].None? ==> s.results[i].None? && !s.notified[i])
  }

  ghost predicate Inv(perVm: nat, s: State)
    requires perVm > 0
  {
    && Shape(s)
    && (forall w :: 0 <= w < |s.workers| ==> WorkerOk(perVm, s, w))
    && (forall i :: 0 <= i < |s.results| ==> ItemOk(perVm, s, i))
    && (forall w :: 0 <= w < |s.workers| && s.workers[w].Exited? ==> |s.queue| == 0)
  }

  lemma BeginInv(vms: nat, perVm: nat, n: nat)
    requires Begins(vms, perVm, n).Begun?
    ensures Inv(perVm, Begins(vms, perVm, n).state)
  {
  }

  lemma ShapeStep(perVm: nat, s: State, step: Step)
    requires perVm > 0 && Inv(perVm, s) && Enabled(s, step)
    ensures Shape(Next(perVm, s, step)) && |Next(perVm, s, step).workers| == |s.workers|
    ensures Taken(Next(perVm, s, step)) == Taken(s) + if step.Take? && |s.queue| > 0 then 1 else 0
  {
  }

  lemma WorkerStep(perVm: nat, s: State, step: Step, w: nat)
    requires perVm > 0 && Inv(perVm, s) && Enabled(s, step) && w < |s.workers|
    ensures |Next(perVm, s, step).workers| == |s.workers|
    ensures Shape(Next(perVm, s, step)) && WorkerOk(perVm, Next(perVm, s, step), w)
  {
    ShapeStep(perVm, s, step);
    assert WorkerOk(perVm, s, w);
    if step.Take? && |s.queue| > 0 {
      assert s.queue[0] == Taken(s);
      assert ItemOk(perVm, s, Taken(s));
    }
    if !step.Start? {
      assert WorkerOk(perVm, s, step.w);
    }
  }

  lemma ItemStep(perVm: nat, s: State, step: Step, i: nat)
    requires perVm > 0 && Inv(perVm, s) && Enabled(s, step) && i < |s.results|
    ensures Shape(Next(perVm, s, step)) && |Next(perVm, s, step).results| == |s.results|
    ensures ItemOk(perVm, Next(perVm, s, step), i)
  {
    ShapeStep(perVm, s, step);
    assert ItemOk(perVm, s, i);
    if step.Take? && |s.queue| > 0 {
      assert s.queue[0] == Taken(s);
    }
    if !step.Start? {
      assert WorkerOk(perVm, s, step.w);
    }
  }

  lemma StepInv(perVm: nat, s: State, step: Step)
    requires perVm > 0 && Inv(perVm, s) && Enabled(s, step)
    ensures Inv(perVm, Next(perVm, s, step))
  {
    var n := Next(perVm, s, step);
    ShapeStep(perVm, s, step);
    forall w | 0 <= w < |n.workers| ensures WorkerOk(perVm, n, w) { WorkerStep(perVm, s, step, w); }
    forall i | 0 <= i < |n.results| ensures ItemOk(perVm, n, i) { ItemStep(perVm, s, step, i); }
  }

  lemma {:induction false} RunInv(perVm: nat, s: State, steps: seq<Step>)
    requires perVm > 0 && Inv(perVm, s) && Runs(perVm, s, steps)
    ensures Inv(perVm, Exec(perVm, s, steps))
    ensures |Exec(perVm, s, steps).workers| == |s.workers| && |Exec(perVm, s, steps).results| == |s.results|
    decreases |steps|
  {
    if |steps| > 0 {
      StepInv(perVm, s, steps[0]);
      ShapeStep(perVm, s, steps[0]);
      RunInv(perVm, Next(perVm, s, steps[0]), steps[1..]);
    }
  }

  /** s is reached by some schedule of a dispatch of n bodies over `vms` members. */
  ghost predicate Reachable(vms: nat, perVm: nat, n: nat, s: State)
    requires perVm > 0
  {
    exists steps :: Begins(vms, perVm, n).Begun? && Runs(perVm, Begins(vms, perVm, n).state, steps) &&
                    Exec(perVm, Begins(vms, perVm, n).state, steps) == s
  }

  lemma ReachableInv(vms: nat, perVm: nat, n: nat, s: State)
    requires perVm > 0 && Reachable(vms, perVm, n, s)
    ensures Inv(perVm, s) && |s.workers| == vms * perVm && |s.results| == n
  {
    var steps :| Begins(vms, perVm, n).Begun? && Runs(perVm, Begins(vms, perVm, n).state, steps) &&
                 Exec(perVm, Begins(vms, perVm, n).state, steps) == s;
    BeginInv(vms, perVm, n);
    RunInv(perVm, Begins(vms, perVm, n).state, steps);
  }

  // ---------------------------------------------------------------- conservation

  ghost predicate Queued(s: State, i: nat) { i in s.queue }

  ghost predicate InHand(s: State, i: nat) { exists w :: 0 <= w < |s.workers| && s.workers[w].Holds(i) }

  ghost predicate Done(s: State, i: nat) { i < |s.results| && s.results[i].Some? }

  /** Queued, in-flight and finished items partition 0 .. n-1 in every reachable state, and no two workers
      hold the same item. */
  lemma ItemsAreConserved(vms: nat, perVm: nat, n: nat, s: State, i: nat)
    requires perVm > 0 && Reachable(vms, perVm, n, s) && i < n
    ensures Queued(s, i) || InHand(s, i) || Done(s, i)
    ensures !(Queued(s, i) && InHand(s, i)) && !(Queued(s, i) && Done(s, i)) && !(InHand(s, i) && Done(s, i))
    ensures forall v, w ::
            0 <= v < |s.workers| && 0 <= w < |s.workers| && s.workers[v].Holds(i) && s.workers[w].Holds(i) ==> v == w
  {
    ReachableInv(vms, perVm, n, s);
    assert ItemOk(perVm, s, i);
    if i >= Taken(s) {
      assert s.queue[i - Taken(s)] == i;
    }
    forall w | 0 <= w < |s.workers| && s.workers[w].Holds(i)
      ensures s.owner[i] == Some(w) && s.results[i].None?
    {
      assert WorkerOk(perVm, s, w);
    }
  }

  // ---------------------------------------------------------------- load per VM

  /** Requests in flight to VM v among the first k workers. */
  function InFlight(perVm: nat, ws: seq<Pc>, v: nat, k: nat): nat
    requires perVm > 0 && k <= |ws|
  {
    if k == 0 then 0
    else InFlight(perVm, ws, v, k - 1) + if ws[k - 1].Requesting? && (k - 1) / perVm == v then 1 else 0
  }

  /** No VM ever has more than perVm requests in flight. */
  lemma {:induction false} AtMostPerVm(perVm: nat, ws: seq<Pc>, v: nat, k: nat)
    requires perVm > 0 && k <= |ws|
    ensures InFlight(perVm, ws, v, k) <= perVm
    ensures k <= v * perVm ==> InFlight(perVm, ws, v, k) == 0
    ensures v * perVm <= k ==> InFlight(perVm, ws, v, k) <= k - v * perVm
  {
    if k > 0 {
      AtMostPerVm(perVm, ws, v, k - 1);
      Sector(perVm, k - 1, v);
    }
  }

  lemma Sector(perVm: nat, w: nat, v: nat)
    requires perVm > 0
    ensures w / perVm == v <==> v * perVm <= w < v * perVm + perVm
  {
    var q := w / perVm;
    assert w == q * perVm + w % perVm;
    if q < v {
      assert (q + 1) * perVm <= v * perVm;
    }
    if q > v {
      assert (v + 1) * perVm <= q * perVm;
    }
  }

  // ---------------------------------------------------------------- termination

  function Rank(pc: Pc): nat {
    match pc
    case NotStarted => 2
    case Idle => 1
    case Requesting(_) => 5
    case Storing(_, _) => 4
    case Notifying(_, _) => 3
    case Exited | Died => 0
  }

  function RankSum(ws: seq<Pc>): nat {
    if |ws| == 0 then 0 else RankSum(ws[..|ws| - 1]) + Rank(ws[|ws| - 1])
  }

  lemma {:induction false} RankSumUpdate(ws: seq<Pc>, w: nat, pc: Pc)
    requires w < |ws|
    ensures RankSum(ws[w := pc]) == RankSum(ws) - Rank(ws[w]) + Rank(pc)
  {
    var us := ws[w := pc];
    if w == |ws| - 1 {
      assert us[..|us| - 1] == ws[..|ws| - 1];
    } else {
      assert us[..|us| - 1] == ws[..|ws| - 1][w := pc];
      RankSumUpdate(ws[..|ws| - 1], w, pc);
    }
  }

  function Measure(s: State): nat { 5 * |s.queue| + RankSum(s.workers) }

  lemma StepLowersMeasure(perVm: nat, s: State, step: Step)
    requires perVm > 0 && Inv(perVm, s) && Enabled(s, step)
    ensures Measure(Next(perVm, s, step)) < Measure(s)
  {
    var w := if step.Start? then s.started else step.w;
    RankSumUpdate(s.workers, w, Next(perVm, s, step).workers[w]);
  }

  lemma {:induction false} RankSumFresh(n: nat)
    ensures RankSum(seq(n, _ => NotStarted)) == 2 * n
  {
    if n > 0 {
      RankSumFresh(n - 1);
      assert seq(n, _ => NotStarted)[..n - 1] == seq(n - 1, _ => NotStarted);
    }
  }

  lemma {:induction false} RunLowersMeasure(perVm: nat, s: State, steps: seq<Step>)
    requires perVm > 0 && Inv(perVm, s) && Runs(perVm, s, steps)
    ensures |steps| + Measure(Exec(perVm, s, steps)) <= Measure(s)
    decreases |steps|
  {
    if |steps| > 0 {
      StepLowersMeasure(perVm, s, steps[0]);
      StepInv(perVm, s, steps[0]);
      RunLowersMeasure(perVm, Next(perVm, s, steps[0]), steps[1..]);
    }
  }

  /** Every schedule is finite: at most five steps for each body and two for each worker. */
  lemma EveryScheduleEnds(vms: nat, perVm: nat, n: nat, steps: seq<Step>)
    requires perVm > 0 && Begins(vms, perVm, n).Begun? && Runs(perVm, Begins(vms, perVm, n).state, steps)
    ensures |steps| <= 5 * n + 2 * (vms * perVm)
  {
    var s := Begins(vms, perVm, n).state;
    BeginInv(vms, perVm, n);
    RunLowersMeasure(perVm, s, steps);
    RankSumFresh(vms * perVm);
    assert s.workers == seq(vms * perVm, _ => NotStarted);
  }

  // ---------------------------------------------------------------- the join

  /** Every thread has been started and has ended: dispatch() returns. */
  ghost predicate Joined(s: State) {
    s.started == |s.workers| && forall w :: 0 <= w < |s.workers| ==> s.workers[w].Over()
  }

  ghost predicate Stuck(s: State) { forall step: Step :: !Enabled(s, step) }

  function MoveOf(pc: Pc, w: nat): Step {
    match pc
    case Idle => Take(w)
    case Requesting(_) => Answer(w, Raised(""))
    case Storing(_, _) => Store(w)
    case _ => Notify(w, false)
  }

  /** Nothing blocks: a schedule that cannot go on has joined. */
  lemma StuckMeansJoined(vms: nat, perVm: nat, n: nat, s: State)
    requires perVm > 0 && Reachable(vms, perVm, n, s) && Stuck(s)
    ensures Joined(s)
  {
    ReachableInv(vms, perVm, n, s);
    assert !Enabled(s, Start);
    forall w | 0 <= w < |s.workers|
      ensures s.workers[w].Over()
    {
      assert !Enabled(s, MoveOf(s.workers[w], w));
      assert WorkerOk(perVm, s, w);
    }
  }

  /** At the join an entry is missing exactly for the items still queued; each entry found carries its own
      index and a member that was RUNNING, and on_result has been called for it. Nothing is missing as soon
      as one worker ended by finding the queue empty, so always when on_result does not raise. */
  lemma JoinedResults(vms: nat, perVm: nat, n: nat, s: State, i: nat)
    requires perVm > 0 && Reachable(vms, perVm, n, s) && Joined(s) && i < n
    ensures |s.results| == |s.notified| == n
    ensures s.results[i].None? <==> i in s.queue
    ensures s.results[i].Some? ==> s.results[i].value.index == i && s.results[i].value.vm < vms && s.notified[i]
    ensures (exists w :: 0 <= w < |s.workers| && s.workers[w].Exited?) ==> s.results[i].Some?
  {
    ReachableInv(vms, perVm, n, s);
    assert ItemOk(perVm, s, i);
    if i >= Taken(s) {
      assert s.queue[i - Taken(s)] == i;
    } else {
      var w := s.owner[i].value;
      assert s.workers[w].Over();
      VmOfWorker(vms, perVm, w);
    }
  }

  lemma VmOfWorker(vms: nat, perVm: nat, w: nat)
    requires perVm > 0 && w < vms * perVm
    ensures w / perVm < vms
  {
    assert w == (w / perVm) * perVm + w % perVm;
    CancelFactor(w / perVm, vms, perVm);
  }

  /** No step of the run has on_result raise. */
  predicate Polite(steps: seq<Step>) {
    forall k :: 0 <= k < |steps| ==> !(steps[k].Notify? && steps[k].raises)
  }

  lemma {:induction false} PoliteRunsKillNobody(perVm: nat, s: State, steps: seq<Step>)
    requires perVm > 0 && Inv(perVm, s) && Runs(perVm, s, steps) && Polite(steps)
    requires forall w :: 0 <= w < |s.workers| ==> !s.workers[w].Died?
    ensures forall w :: 0 <= w < |Exec(perVm, s, steps).workers| ==> !Exec(perVm, s, steps).workers[w].Died?
    decreases |steps|
  {
    if |steps| > 0 {
      StepInv(perVm, s, steps[0]);
      var n := Next(perVm, s, steps[0]);
      assert !(steps[0].Notify? && steps[0].raises);
      PoliteRunsKillNobody(perVm, n, steps[1..]);
    }
  }

  /** With an on_result that does not raise, dispatch() returns one entry per body, in order, whatever the
      schedule and however many requests raise. */
  lemma DispatchReturnsEverything(vms: nat, perVm: nat, n: nat, steps: seq<Step>)
    requires perVm > 0 && Begins(vms, perVm, n).Begun?
    requires Runs(perVm, Begins(vms, perVm, n).state, steps) && Polite(steps)
    requires Joined(Exec(perVm, Begins(vms, perVm, n).state, steps))
    ensures var r := Exec(perVm, Begins(vms, perVm, n).state, steps).results;
            |r| == n && forall i :: 0 <= i < n ==> r[i].Some? && r[i].value.index == i && r[i].value.vm < vms
  {
    var s0 := Begins(vms, perVm, n).state;
    var s := Exec(perVm, s0, steps);
    BeginInv(vms, perVm, n);
    PoliteRunsKillNobody(perVm, s0, steps);
    assert Reachable(vms, perVm, n, s);
    ReachableInv(vms, perVm, n, s);
    AtLeastOneWorker(vms, perVm);
    assert s.workers[0].Exited?;
    forall i | 0 <= i < n
      ensures s.results[i].Some? && s.results[i].value.index == i && s.results[i].value.vm < vms
    {
      JoinedResults(vms, perVm, n, s, i);
    }
  }

  lemma AtLeastOneWorker(vms: nat, perVm: nat)
    requires vms > 0 && perVm > 0
    ensures vms * perVm > 0
  {
  }

  // ---------------------------------------------------------------- once per item

  /** The step stores the entry of item i. */
  predicate Stores(s: State, step: Step, i: nat)
    requires Enabled(s, step)
  {
    step.Store? && s.workers[step.w].i == i
  }

  /** The step calls on_result for item i, whether or not that raises. */
  predicate Notifies(s: State, step: Step, i: nat)
    requires Enabled(s, step)
  {
    step.Notify? && s.workers[step.w].i == i
  }

  function Bit(b: bool): nat { if b then 1 else 0 }

  /** How often a run stores the entry of item i. */
  function StoreCount(perVm: nat, s: State, steps: seq<Step>, i: nat): nat
    requires perVm > 0 && Runs(perVm, s, steps)
    decreases |steps|
  {
    if |steps| == 0 then 0
    else Bit(Stores(s, steps[0], i)) + StoreCount(perVm, Next(perVm, s, steps[0]), steps[1..], i)
  }

  /** How often a run calls on_result for item i. */
  function NotifyCount(perVm: nat, s: State, steps: seq<Step>, i: nat): nat
    requires perVm > 0 && Runs(perVm, s, steps)
    decreases |steps|
  {
    if |steps| == 0 then 0
    else Bit(Notifies(s, steps[0], i)) + NotifyCount(perVm, Next(perVm, s, steps[0]), steps[1..], i)
  }

  /** A filled entry is never written again, and an empty one is filled only by storing it; likewise on_result. */
  lemma {:induction false} StepFillsOnce(perVm: nat, s: State, step: Step, i: nat)
    requires perVm > 0 && Inv(perVm, s) && Enabled(s, step) && i < |s.results|
    ensures var n := Next(perVm, s, step);
            && |n.results| == |s.results| && |n.notified| == |s.notified| == |s.results|
            && (s.results[i].Some? ==> n.results[i] == s.results[i])
            && Bit(n.results[i].Some?) == Bit(s.results[i].Some?) + Bit(Stores(s, step, i))
            && Bit(n.notified[i]) == Bit(s.notified[i]) + Bit(Notifies(s, step, i))
  {
    assert ItemOk(perVm, s, i);
    if !step.Start? {
      assert WorkerOk(perVm, s, step.w);
    }
  }

  lemma {:induction false} RunFillsOnce(perVm: nat, s: State, steps: seq<Step>, i: nat)
    requires perVm > 0 && Inv(perVm, s) && Runs(perVm, s, steps) && i < |s.results|
    ensures var n := Exec(perVm, s, steps);
            && |n.results| == |s.results| && |n.notified| == |s.notified| == |s.results|
            && (s.results[i].Some? ==> n.results[i] == s.results[i])
            && Bit(n.results[i].Some?) == Bit(s.results[i].Some?) + StoreCount(perVm, s, steps, i)
            && Bit(n.notified[i]) == Bit(s.notified[i]) + NotifyCount(perVm, s, steps, i)
    decreases |steps|
  {
    if |steps| > 0 {
      StepFillsOnce(perVm, s, steps[0], i);
      StepInv(perVm, s, steps[0]);
      RunFillsOnce(perVm, Next(perVm, s, steps[0]), steps[1..], i);
    }
  }

  /** Every schedule: an entry is stored, and on_result called for it, at most once, on_result only after the store;
      once filled, however the schedule goes on, the entry stays as it is. */
  lemma {:induction false} FilledAtMostOnce(vms: nat, perVm: nat, n: nat, steps: seq<Step>, i: nat)
    requires perVm > 0 && Begins(vms, perVm, n).Begun? && Runs(perVm, Begins(vms, perVm, n).state, steps) && i < n
    ensures var s0 := Begins(vms, perVm, n).state;
            var s := Exec(perVm, s0, steps);
            && |s.results| == n
            && NotifyCount(perVm, s0, steps, i) <= StoreCount(perVm, s0, steps, i) == Bit(s.results[i].Some?) <= 1
            && (s.results[i].Some? ==> forall more :: Runs(perVm, s, more) ==>
                  i < |Exec(perVm, s, more).results| && Exec(perVm, s, more).results[i] == s.results[i])
  {
    var s0 := Begins(vms, perVm, n).state;
    var s := Exec(perVm, s0, steps);
    BeginInv(vms, perVm, n);
    RunInv(perVm, s0, steps);
    RunFillsOnce(perVm, s0, steps, i);
    assert ItemOk(perVm, s, i);
    forall more | Runs(perVm, s, more)
      ensures s.results[i].Some? ==>
        i < |Exec(perVm, s, more).results| && Exec(perVm, s, more).results[i] == s.results[i]
    {
      RunFillsOnce(perVm, s, more, i);
    }
  }

  /** A schedule that has joined stored and notified each item once, but for those left in the queue, which it did not
      touch; without a raising on_result there are none. */
  lemma {:induction false} JoinedFillsOnce(vms: nat, perVm: nat, n: nat, steps: seq<Step>, i: nat)
    requires perVm > 0 && Begins(vms, perVm, n).Begun? && Runs(perVm, Begins(vms, perVm, n).state, steps) && i < n
    requires Joined(Exec(perVm, Begins(vms, perVm, n).state, steps))
    ensures var s0 := Begins(vms, perVm, n).state;
            var once := if i in Exec(perVm, s0, steps).queue then 0 else 1;
            && StoreCount(perVm, s0, steps, i) == NotifyCount(perVm, s0, steps, i) == once
            && (Polite(steps) ==> once == 1)
  {
    var s0 := Begins(vms, perVm, n).state;
    var s := Exec(perVm, s0, steps);
    BeginInv(vms, perVm, n);
    RunFillsOnce(perVm, s0, steps, i);
    assert Reachable(vms, perVm, n, s);
    JoinedResults(vms, perVm, n, s, i);
    ReachableInv(vms, perVm, n, s);
    assert ItemOk(perVm, s, i);
    if Polite(steps) {
      DispatchReturnsEverything(vms, perVm, n, steps);
    }
  }
}
