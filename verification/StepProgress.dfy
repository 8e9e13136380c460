/** Every run of a generated machine ends: the number of its steps is bounded by its shards and by how many VMs one
    ListMicrovms answer holds. */
module StepProgress {
  import opened Common
  import opened StateMachine
  import opened StepFunctions
  import opened StepSafety
  import opened StepFanout

  /** No answer lists more than n VMs. */
  predicate Small(ev: Event, n: nat) {
    match ev
    case Answered(Ok(listed)) => |listed| <= n
    case Inner(_, event) => Small(event, n)
    case _ => true
  }

  ghost predicate AllSmall(evs: seq<Event>, n: nat) { forall k :: 0 <= k < |evs| ==> Small(evs[k], n) }

  function SumStale(kids: seq<Conf>): (m: nat)
    ensures m <= 12 * |kids|
  {
    if |kids| == 0 then 0 else SumStale(kids[..|kids| - 1]) + StaleMeasure(kids[|kids| - 1])
  }

  lemma {:induction false} SumStaleUpdate(kids: seq<Conf>, i: nat, kid: Conf)
    requires i < |kids|
    ensures SumStale(kids[i := kid]) == SumStale(kids) - StaleMeasure(kids[i]) + StaleMeasure(kid)
  {
    var last := |kids| - 1;
    if i == last {
      assert kids[i := kid][..last] == kids[..last];
    } else {
      assert kids[i := kid][..last] == kids[..last][i := kid];
      SumStaleUpdate(kids[..last], i, kid);
    }
  }

  // ---------------------------------------------------------------- one lease flow

  /** More than one state can hold back. */
  function Weight(n: nat): nat { 12 * n + 14 }

  function Rank(f: Flow, s: string): nat {
    if s == f.name then 6 else if s == ON_LEASE_ERROR then 5 else if s == TERMINATE_FAILED then 4
    else if s == REAP then 3
    else if s == TERMINATE_STALE || s == TERMINATE then 2 else 1
  }

  function Left(tries: nat): nat { if tries < MAX_ATTEMPTS then MAX_ATTEMPTS - tries else 0 }

  function Within(f: Flow, n: nat, c: Conf): nat
    requires c.At?
  {
    if c.state == TERMINATE_STALE && c.state != f.name then
      if c.tries == 0 then 12 * n + 13 else SumStale(c.kids)
    else Left(c.tries)
  }

  function LeaseMeasure(f: Flow, n: nat, c: Conf): nat {
    match c
    case Waiting(_) => 7 * Weight(n)
    case At(s, _, _, _, _) => Rank(f, s) * Weight(n) + Within(f, n, c)
    case _ => 0
  }

  /** The lists the configuration holds are small. */
  ghost predicate Held(f: Flow, n: nat, c: Conf) {
    c.At? ==> |c.vars.listed| <= n && (c.state == TERMINATE_STALE && c.tries > 0 ==> |c.kids| <= n)
  }

  lemma RankDrops(f: Flow, n: nat, c: Conf, next: Conf)
    requires c.At?
    requires next.At? ==> Rank(f, next.state) < Rank(f, c.state) && (next.tries == 0 || next.state != TERMINATE_STALE)
    requires !next.Waiting?
    ensures LeaseMeasure(f, n, next) < LeaseMeasure(f, n, c)
  {
    if next.At? {
      assert Within(f, n, next) < Weight(n);
      Multiply(Rank(f, next.state), Rank(f, c.state), Weight(n));
    }
  }

  lemma Multiply(a: nat, b: nat, w: nat)
    requires a < b
    ensures a * w + w <= b * w
  {
    var d := b - a - 1;
    assert d * w >= 0;
    assert b * w == (a + 1 + d) * w == a * w + w + d * w;
  }

  /** Where an attempt of a task leads: to another attempt, to its next state, to its catcher's, or to the end. */
  lemma TaskLeads(s: State, n: nat, c: Conf, a: Answer)
    requires s.Task? && c.At? && Fits(s.action, a) && Small(Answered(a), n) && |c.vars.listed| <= n
    ensures var next := AfterTask(s, c, a);
            && !next.Waiting?
            && (next.At? ==>
                  && next.kids == c.kids && |next.vars.listed| <= n
                  && (|| (next.state == c.state && next.tries == c.tries + 1 <= MAX_ATTEMPTS)
                      || (next.tries == 0 && Some(next.state) == s.next)
                      || (next.tries == 0 && s.catcher.Some? && next.state == s.catcher.value.next)))
  {
  }

  /** A task whose next states all rank lower lowers the measure. */
  lemma LowerTask(f: Flow, n: nat, s: State, c: Conf, a: Answer)
    requires s.Task? && c.At? && c.state != TERMINATE_STALE && Fits(s.action, a) && Small(Answered(a), n)
             && |c.vars.listed| <= n
    requires s.next.Some? ==> Rank(f, s.next.value) < Rank(f, c.state)
    requires s.catcher.Some? ==> Rank(f, s.catcher.value.next) < Rank(f, c.state)
    ensures LeaseMeasure(f, n, AfterTask(s, c, a)) < LeaseMeasure(f, n, c) && Held(f, n, AfterTask(s, c, a))
  {
    TaskLeads(s, n, c, a);
    var next := AfterTask(s, c, a);
    if !(next.At? && next.state == c.state) {
      RankDrops(f, n, c, next);
    }
  }

  lemma TaskProgress(f: Flow, n: nat, shards: nat, c: Conf, ev: Event)
    requires Proper(f) && c.At?
             && (c.state == f.name || c.state == TERMINATE_FAILED || c.state == TERMINATE || c.state == REAP)
    requires Held(f, n, c) && Small(ev, n) && Step(LeaseStates(f), shards, c, ev).Some?
    ensures var next := Step(LeaseStates(f), shards, c, ev).value;
            LeaseMeasure(f, n, next) < LeaseMeasure(f, n, c) && Held(f, n, next)
  {
    Lookup(f);
    Literals();
    LowerTask(f, n, Find(LeaseStates(f), c.state).value, c, ev.answer);
  }

  lemma StaleProgress(f: Flow, n: nat, shards: nat, c: Conf, ev: Event)
    requires Proper(f) && LeaseInv(f, c) && c.At? && c.state == TERMINATE_STALE
    requires Held(f, n, c) && Step(LeaseStates(f), shards, c, ev).Some?
    ensures var next := Step(LeaseStates(f), shards, c, ev).value;
            LeaseMeasure(f, n, next) < LeaseMeasure(f, n, c) && Held(f, n, next)
  {
    Lookup(f);
    Literals();
    var next := Step(LeaseStates(f), shards, c, ev).value;
    if ev.Inner? {
      var now :| StaleKids(c.kids, StaleIds(c.vars.listed, f.maxDuration * 1000, now));
      var ids := StaleIds(c.vars.listed, f.maxDuration * 1000, now);
      assert StaleInv(ids[ev.i], c.kids[ev.i]);
      if !c.kids[ev.i].Waiting? {
        StaleStep(shards, ids[ev.i], c.kids[ev.i], ev.event);
      }
      SumStaleUpdate(c.kids, ev.i, next.kids[ev.i]);
    } else if !ev.Expanded? {
      RankDrops(f, n, c, next);
    }
  }

  lemma LeaseProgress(f: Flow, n: nat, shards: nat, c: Conf, ev: Event)
    requires Proper(f) && LeaseInv(f, c) && Held(f, n, c) && Small(ev, n) && Step(LeaseStates(f), shards, c, ev).Some?
    ensures var next := Step(LeaseStates(f), shards, c, ev).value;
            LeaseMeasure(f, n, next) < LeaseMeasure(f, n, c) && Held(f, n, next)
  {
    Lookup(f);
    Literals();
    if c.state == TERMINATE_STALE {
      StaleProgress(f, n, shards, c, ev);
    } else if c.state == f.name || c.state == TERMINATE_FAILED || c.state == TERMINATE || c.state == REAP {
      TaskProgress(f, n, shards, c, ev);
    } else {
      RankDrops(f, n, c, Step(LeaseStates(f), shards, c, ev).value);
    }
  }

  lemma {:induction false} LeaseSteps(f: Flow, n: nat, shards: nat, c: Conf, evs: seq<Event>)
    requires Proper(f) && LeaseInv(f, c) && Held(f, n, c) && AllSmall(evs, n)
             && Run(LeaseStates(f), shards, c, evs).Some?
    ensures |evs| <= LeaseMeasure(f, n, c)
    decreases |evs|
  {
    if |evs| > 0 {
      LeaseStep(f, shards, c, evs[0]);
      LeaseProgress(f, n, shards, c, evs[0]);
      LeaseSteps(f, n, shards, Step(LeaseStates(f), shards, c, evs[0]).value, evs[1..]);
    }
  }

  // ---------------------------------------------------------------- the fan-out

  function SumLeases(f: Flow, n: nat, kids: seq<Conf>): nat {
    if |kids| == 0 then 0 else SumLeases(f, n, kids[..|kids| - 1]) + LeaseMeasure(f, n, kids[|kids| - 1])
  }

  lemma {:induction false} SumLeasesUpdate(f: Flow, n: nat, kids: seq<Conf>, i: nat, kid: Conf)
    requires i < |kids|
    ensures SumLeases(f, n, kids[i := kid]) == SumLeases(f, n, kids) - LeaseMeasure(f, n, kids[i])
            + LeaseMeasure(f, n, kid)
  {
    var last := |kids| - 1;
    if i == last {
      assert kids[i := kid][..last] == kids[..last];
    } else {
      assert kids[i := kid][..last] == kids[..last][i := kid];
      SumLeasesUpdate(f, n, kids[..last], i, kid);
    }
  }

  lemma {:induction false} SumWaiting(f: Flow, n: nat, kids: seq<Conf>)
    requires forall i :: 0 <= i < |kids| ==> kids[i].Waiting?
    ensures SumLeases(f, n, kids) == |kids| * (7 * Weight(n))
  {
    if |kids| > 0 {
      SumWaiting(f, n, kids[..|kids| - 1]);
      assert (|kids| - 1) * (7 * Weight(n)) + 7 * Weight(n) == |kids| * (7 * Weight(n));
    }
  }

  /** What the shards can take together. */
  function Shards(job: Job, n: nat): nat { job.shards * (7 * Weight(n)) }

  function RootMeasure(job: Job, n: nat, c: Conf): nat {
    match c
    case At(s, tries, _, _, kids) =>
      if s == GATE then Shards(job, n) + 6
      else if s == REQUEST_APPROVAL then Shards(job, n) + 5
      else if s == FANOUT then (if tries == 0 then Shards(job, n) + 4 else SumLeases(job.flow, n, kids) + 3)
      else 2
    case _ => 0
  }

  ghost predicate AllHeld(job: Job, n: nat, c: Conf) {
    c.At? && c.state == FANOUT && c.tries > 0 ==> forall i :: 0 <= i < |c.kids| ==> Held(job.flow, n, c.kids[i])
  }

  lemma StartedShard(f: Flow, n: nat, kid: Conf)
    requires Proper(f) && kid.At? && kid == At(f.name, 0, Fresh(kid.vars.item), [], [])
    ensures LeaseMeasure(f, n, kid) < 7 * Weight(n) && Held(f, n, kid)
  {
    Literals();
  }

  lemma ShardLowers(job: Job, n: nat, c: Conf, i: nat, kid: Conf)
    requires c.At? && c.state == FANOUT && FANOUT != GATE && FANOUT != REQUEST_APPROVAL && c.tries > 0 && i < |c.kids|
    requires AllHeld(job, n, c) && Held(job.flow, n, kid)
    requires LeaseMeasure(job.flow, n, kid) < LeaseMeasure(job.flow, n, c.kids[i])
    ensures var next := At(c.state, c.tries, c.vars, c.log, c.kids[i := kid]);
            RootMeasure(job, n, next) < RootMeasure(job, n, c) && AllHeld(job, n, next)
  {
    SumLeasesUpdate(job.flow, n, c.kids, i, kid);
  }

  lemma ShardProgress(job: Job, n: nat, c: Conf, ev: Event)
    requires Proper(job.flow) && RootInv(job, c) && c.At? && c.state == FANOUT && ev.Inner? && Small(ev, n)
             && AllHeld(job, n, c)
    requires Step(job.States(), job.shards, c, ev).Some?
    ensures var next := Step(job.States(), job.shards, c, ev).value;
            RootMeasure(job, n, next) < RootMeasure(job, n, c) && AllHeld(job, n, next)
  {
    LookupFanout(job.flow, job.spec);
    OuterNames(job);
    var kid := Step(job.States(), job.shards, c, ev).value.kids[ev.i];
    if !c.kids[ev.i].Waiting? {
      LeaseProgress(job.flow, n, job.shards, c.kids[ev.i], ev.event);
    } else {
      StartedShard(job.flow, n, kid);
    }
    ShardLowers(job, n, c, ev.i, kid);
  }

  lemma GateProgress(job: Job, n: nat, c: Conf, ev: Event)
    requires RootInv(job, c) && c.At? && c.state != FANOUT && Step(job.States(), job.shards, c, ev).Some?
    ensures var next := Step(job.States(), job.shards, c, ev).value;
            RootMeasure(job, n, next) < RootMeasure(job, n, c) && AllHeld(job, n, next)
  {
    LookupFanout(job.flow, job.spec);
    OuterNames(job);
  }

  lemma FanoutProgress(job: Job, n: nat, c: Conf, ev: Event)
    requires Proper(job.flow) && RootInv(job, c) && c.At? && c.state == FANOUT && !ev.Inner?
    requires Step(job.States(), job.shards, c, ev).Some?
    ensures var next := Step(job.States(), job.shards, c, ev).value;
            RootMeasure(job, n, next) < RootMeasure(job, n, c) && AllHeld(job, n, next)
  {
    LookupFanout(job.flow, job.spec);
    OuterNames(job);
    if ev.Expanded? {
      SumWaiting(job.flow, n, Step(job.States(), job.shards, c, ev).value.kids);
    }
  }

  lemma RootProgress(job: Job, n: nat, c: Conf, ev: Event)
    requires Proper(job.flow) && RootInv(job, c) && Small(ev, n) && AllHeld(job, n, c)
             && Step(job.States(), job.shards, c, ev).Some?
    ensures var next := Step(job.States(), job.shards, c, ev).value;
            RootMeasure(job, n, next) < RootMeasure(job, n, c) && AllHeld(job, n, next)
  {
    if c.state != FANOUT {
      GateProgress(job, n, c, ev);
    } else if ev.Inner? {
      ShardProgress(job, n, c, ev);
    } else {
      FanoutProgress(job, n, c, ev);
    }
  }

  lemma {:induction false} RootSteps(job: Job, n: nat, c: Conf, evs: seq<Event>)
    requires Proper(job.flow) && RootInv(job, c) && AllHeld(job, n, c) && AllSmall(evs, n)
             && Run(job.States(), job.shards, c, evs).Some?
    ensures |evs| <= RootMeasure(job, n, c)
    decreases |evs|
  {
    if |evs| > 0 {
      RootStep(job, c, evs[0]);
      RootProgress(job, n, c, evs[0]);
      RootSteps(job, n, Step(job.States(), job.shards, c, evs[0]).value, evs[1..]);
    }
  }

  /** The most steps a run can make, when ListMicrovms never answers more than n VMs. */
  function Bound(fanout: Option<FanoutSpec>, shards: nat, n: nat): nat {
    if fanout.None? then 7 * Weight(n) else shards * (7 * Weight(n)) + 6
  }

  lemma StartOfLease(f: Flow, n: nat)
    requires Proper(f)
    ensures var c := At(f.name, 0, Fresh(""), [], []);
            LeaseInv(f, c) && Held(f, n, c) && LeaseMeasure(f, n, c) <= 7 * Weight(n)
  {
    Literals();
  }

  lemma StartOfFanout(job: Job, n: nat)
    ensures var c := At(if job.spec.approval.Some? then GATE else FANOUT, 0, Fresh(""), [], []);
            RootInv(job, c) && AllHeld(job, n, c) && RootMeasure(job, n, c) <= Shards(job, n) + 6
  {
    OuterNames(job);
  }

  /** Every run of every generated machine, under any answers and in any interleaving of its iterations, ends
      within a bound that depends only on the number of shards and the longest list of VMs. */
  lemma EveryRunEnds(name: string, maxDuration: int, fanout: Option<FanoutSpec>, shards: nat, n: nat, evs: seq<Event>)
    requires !IsFixed(name, if fanout.None? then DONE else SHARD_DONE) && AllSmall(evs, n)
    requires var m := LeaseStateMachine(name, maxDuration, fanout); Run(m.states, shards, Initial(m), evs).Some?
    ensures |evs| <= Bound(fanout, shards, n)
  {
    var m := LeaseStateMachine(name, maxDuration, fanout);
    match fanout
    case None =>
      var f := Flow(name, maxDuration, DONE);
      StartOfLease(f, n);
      LeaseSteps(f, n, shards, Initial(m), evs);
    case Some(spec) =>
      var job := Job(Flow(name, maxDuration, SHARD_DONE), spec, shards);
      StartOfFanout(job, n);
      RootSteps(job, n, Initial(m), evs);
  }

  // ---------------------------------------------------------------- no run is stuck

  lemma {:induction false} NoneBroken(kids: seq<Conf>)
    requires FirstBroken(kids).None?
    ensures forall i :: 0 <= i < |kids| ==> !kids[i].Broken?
  {
    if |kids| > 0 {
      NoneBroken(kids[1..]);
      assert forall i :: 0 < i < |kids| ==> kids[i] == kids[1..][i - 1];
    }
  }

  lemma {:induction false} SomeActive(kids: seq<Conf>)
    requires Active(kids) > 0
    ensures exists i :: 0 <= i < |kids| && kids[i].At?
  {
    var last := |kids| - 1;
    if !kids[last].At? {
      SomeActive(kids[..last]);
      var i :| 0 <= i < last && kids[..last][i].At?;
      assert kids[i].At?;
    }
  }

  /** In a Map that is neither finished nor failed, some iteration is under way or can start. */
  lemma NextKid(kids: seq<Conf>, maxConcurrency: int, startAt: string) returns (i: nat)
    requires FirstBroken(kids).None? && !AllDone(kids) && maxConcurrency >= 0
    ensures i < |kids| && (kids[i].At? || (kids[i].Waiting? && Start(kids, i, maxConcurrency, startAt, Go).Some?))
  {
    NoneBroken(kids);
    if Active(kids) > 0 {
      SomeActive(kids);
      i :| 0 <= i < |kids| && kids[i].At?;
    } else {
      i :| 0 <= i < |kids| && !kids[i].Done?;
      if kids[i].At? { ActiveUpdate(kids, i, Waiting("")); }
    }
  }

  /** The event at hand in a state that is not a running Map. */
  function Natural(s: State): Event {
    if s.Task? then Answered(Err(None, Fatal, "")) else if s.Map? then NotExpanded else Go
  }

  lemma LeaseMoves(f: Flow, shards: nat, c: Conf) returns (ev: Event)
    requires Proper(f) && LeaseInv(f, c) && c.At?
    ensures Step(LeaseStates(f), shards, c, ev).Some?
  {
    Lookup(f);
    Literals();
    ev := Natural(Find(LeaseStates(f), c.state).value);
    if c.state == TERMINATE_STALE && c.tries > 0 {
      ev := StaleMoves(f, shards, c);
    }
  }

  lemma StaleMoves(f: Flow, shards: nat, c: Conf) returns (ev: Event)
    requires Proper(f) && LeaseInv(f, c) && c.At? && c.state == TERMINATE_STALE && c.tries > 0
    ensures Step(LeaseStates(f), shards, c, ev).Some?
  {
    Lookup(f);
    Literals();
    if FirstBroken(c.kids).Some? || AllDone(c.kids) {
      ev := Go;
    } else {
      var i := NextKid(c.kids, 4, TERMINATE_ONE);
      if c.kids[i].Waiting? {
        ev := Inner(i, Go);
      } else {
        var now :| StaleKids(c.kids, StaleIds(c.vars.listed, f.maxDuration * 1000, now));
        assert StaleInv(StaleIds(c.vars.listed, f.maxDuration * 1000, now)[i], c.kids[i]);
        LookupStale();
        ev := Inner(i, Natural(Find(StaleScope(), c.kids[i].state).value));
      }
    }
  }

  /** A fan-out that has not ended can always take a step; together with EveryRunEnds: every run that goes on for as
      long as it can ends in success or failure. */
  lemma RootMoves(job: Job, c: Conf) returns (ev: Event)
    requires Proper(job.flow) && RootInv(job, c) && c.At? && job.spec.maxConcurrency >= 0
    ensures Step(job.States(), job.shards, c, ev).Some?
  {
    LookupFanout(job.flow, job.spec);
    OuterNames(job);
    if c.state == FANOUT && c.tries > 0 {
      if FirstBroken(c.kids).Some? || AllDone(c.kids) {
        ev := Go;
      } else {
        var i := NextKid(c.kids, job.spec.maxConcurrency, job.flow.name);
        if c.kids[i].Waiting? {
          ev := Inner(i, Go);
        } else {
          var inner := LeaseMoves(job.flow, job.shards, c.kids[i]);
          ev := Inner(i, inner);
        }
      }
    } else {
      ev := Natural(Find(job.States(), c.state).value);
    }
  }
}
