/**
 The declarative fleet of microvm/fleet.py over a list service that may keep showing terminated VMs.

 The service's replies are inputs: `listing` is what ListMicrovms answers, `ok` says which calls do not
 raise. A VM the fleet has terminated may stay in the listing in any state for any time; every live VM is
 listed as it is. VMs the platform ends by itself leave the listing at once, or are shown inactive.
 */
module Fleet {
  import opened Common
  import opened Scaling

  /** members(): the active VMs of the listing that this fleet has not asked to terminate. */
  function Members(listing: seq<Vm>, terminated: set<nat>): (r: seq<Vm>)
    ensures forall v :: v in r <==> v in listing && v.state.Active() && v.id !in terminated
    ensures |r| <= |listing|
  {
    if |listing| == 0 then []
    else
      (if listing[0].state.Active() && listing[0].id !in terminated then [listing[0]] else [])
          + Members(listing[1..], terminated)
  }

  ghost predicate DistinctIds(vms: seq<Vm>) {
    forall i, j :: 0 <= i < j < |vms| ==> vms[i].id != vms[j].id
  }

  ghost predicate NoRepeats(log: seq<nat>) {
    forall i, j :: 0 <= i < j < |log| ==> log[i] != log[j]
  }

  /** What the list service may answer while `live` is the set of live VMs. */
  ghost predicate Honest(listing: seq<Vm>, live: map<nat, Vm>, terminated: set<nat>) {
    && DistinctIds(listing)
    && (forall id :: id in live ==> live[id] in listing)
    && (forall v :: v in listing && v.state.Active() && v.id !in terminated ==> v.id in live && live[v.id] == v)
  }

  lemma {:induction false} MembersKeepDistinct(listing: seq<Vm>, terminated: set<nat>)
    requires DistinctIds(listing)
    ensures DistinctIds(Members(listing, terminated))
  {
    if |listing| > 0 {
      MembersKeepDistinct(listing[1..], terminated);
      var rest := Members(listing[1..], terminated);
      forall j | 0 <= j < |rest|
        ensures rest[j].id != listing[0].id
      {
        assert rest[j] in listing[1..];
      }
    }
  }

  lemma {:induction false} DistinctIdsCount(vms: seq<Vm>, ids: set<nat>)
    requires DistinctIds(vms) && (forall id :: id in ids <==> exists i :: 0 <= i < |vms| && vms[i].id == id)
    ensures |vms| == |ids|
  {
    if |vms| == 0 {
      assert ids == {};
    } else {
      var rest, last := vms[..|vms| - 1], vms[|vms| - 1].id;
      assert vms[|vms| - 1].id in ids;
      forall id
        ensures id in ids - {last} <==> exists i :: 0 <= i < |rest| && rest[i].id == id
      {
        if id in ids - {last} {
          var i :| 0 <= i < |vms| && vms[i].id == id;
          assert rest[i].id == id;
        }
        if i :| 0 <= i < |rest| && rest[i].id == id {
          assert vms[i].id == id;
        }
      }
      DistinctIdsCount(rest, ids - {last});
    }
  }

  /** However stale the listing is about terminated VMs, members() is exactly the live fleet. */
  lemma MembersAreTheLive(listing: seq<Vm>, live: map<nat, Vm>, terminated: set<nat>)
    requires Honest(listing, live, terminated)
    requires forall id :: id in live ==> live[id].id == id && live[id].state.Active() && id !in terminated
    ensures DistinctIds(Members(listing, terminated))
    ensures |Members(listing, terminated)| == |live|
    ensures forall v :: v in Members(listing, terminated) <==> v.id in live && live[v.id] == v
  {
    var members := Members(listing, terminated);
    MembersKeepDistinct(listing, terminated);
    forall id
      ensures id in live.Keys <==> exists i :: 0 <= i < |members| && members[i].id == id
    {
      if id in live {
        var i :| 0 <= i < |members| && members[i] == live[id];
      }
      if i :| 0 <= i < |members| && members[i].id == id {
        assert members[i] in members;
      }
    }
    DistinctIdsCount(members, live.Keys);
  }

  lemma {:induction false} OnceInDistinct(vms: seq<Vm>, v: Vm)
    requires DistinctIds(vms)
    ensures multiset(vms)[v] <= 1
  {
    if |vms| > 0 {
      assert vms == [vms[0]] + vms[1..];
      OnceInDistinct(vms[1..], v);
      if vms[0] == v {
        assert forall j :: 0 <= j < |vms[1..]| ==> vms[1..][j] != v;
        assert v !in multiset(vms[1..]);
      }
    }
  }

  lemma TwiceInRepeat(vms: seq<Vm>, i: nat, j: nat)
    requires i < j < |vms| && vms[i] == vms[j]
    ensures multiset(vms)[vms[i]] >= 2
  {
    assert vms == vms[..j] + [vms[j]] + vms[j + 1..];
    assert vms[..j][i] == vms[i];
    assert vms[i] in multiset(vms[..j]);
  }

  /** Reordering, or leaving some out, keeps ids distinct. */
  lemma SelectionKeepsDistinct(vms: seq<Vm>, chosen: seq<Vm>)
    requires DistinctIds(vms) && multiset(chosen) <= multiset(vms)
    ensures DistinctIds(chosen) && forall v :: v in chosen ==> v in vms
  {
    forall v | v in chosen
      ensures v in vms
    {
      assert v in multiset(chosen);
      assert v in multiset(vms);
    }
    forall i, j | 0 <= i < j < |chosen|
      ensures chosen[i].id != chosen[j].id
    {
      if chosen[i].id == chosen[j].id {
        assert chosen[i] in vms && chosen[j] in vms;
        TwiceInRepeat(chosen, i, j);
        OnceInDistinct(vms, chosen[i]);
      }
    }
  }

  // ---------------------------------------------------------------- the service

  /** The control-plane service: which VMs are live, and every termination it accepted, in order. */
  class Service {
    var live: map<nat, Vm>
    var log: seq<nat>

    constructor ()
      ensures live == map[] && log == []
    {
      live, log := map[], [];
    }

    /** TerminateMicrovm, accepted or raising. */
    method Terminate(id: nat, ok: bool)
      modifies this
      ensures live == (if ok then old(live) - {id} else old(live)) && log == (if ok then old(log) + [id] else old(log))
    {
      if ok {
        live := live - {id};
        log := log + [id];
      }
    }

    /** RunMicrovm answering with a new VM. */
    method Run(vm: Vm)
      modifies this
      ensures live == old(live)[vm.id := vm] && log == old(log)
    {
      live := live[vm.id := vm];
    }
  }

  function Ids(vms: seq<Vm>): (r: seq<nat>)
    ensures |r| == |vms| && forall i :: 0 <= i < |r| ==> r[i] == vms[i].id
  {
    seq(|vms|, i requires 0 <= i < |vms| => vms[i].id)
  }

  /** The calls that do not raise, when all are made. */
  function Accepted(ids: seq<nat>, ok: set<nat>): (r: seq<nat>)
    ensures forall id :: id in r <==> id in ids && id in ok
  {
    if |ids| == 0 then [] else (if ids[0] in ok then [ids[0]] else []) + Accepted(ids[1..], ok)
  }

  function AsSet(ids: seq<nat>): set<nat> { set id | id in ids }

  lemma EndOne(live: map<nat, Vm>, id: nat)
    ensures id in live ==> |live - {id}| == |live| - 1
  {
    assert (live - {id}).Keys == live.Keys - {id};
  }

  /** Ending one more VM. */
  lemma EndOneMore(live: map<nat, Vm>, ids: seq<nat>, id: nat)
    ensures live - AsSet(ids + [id]) == (live - AsSet(ids)) - {id}
  {
    assert AsSet(ids + [id]) == AsSet(ids) + {id};
  }

  /** Ending the next VM of a list. */
  lemma EndNext(live: map<nat, Vm>, log: seq<nat>, ids: seq<nat>, i: nat)
    requires i < |ids|
    ensures log + ids[..i + 1] == log + ids[..i] + [ids[i]]
    ensures live - AsSet(ids[..i + 1]) == (live - AsSet(ids[..i])) - {ids[i]}
    ensures ids[i] in live - AsSet(ids[..i]) ==> |live - AsSet(ids[..i + 1])| == |live - AsSet(ids[..i])| - 1
  {
    assert ids[..i + 1] == ids[..i] + [ids[i]];
    EndOneMore(live, ids[..i], ids[i]);
    EndOne(live - AsSet(ids[..i]), ids[i]);
  }

  ghost predicate RestIsLive(ids: seq<nat>, n: nat, live: map<nat, Vm>) {
    forall i :: n <= i < |ids| ==> ids[i] in live
  }

  lemma RestStaysLive(vms: seq<Vm>, ids: seq<nat>, n: nat, live: map<nat, Vm>)
    requires DistinctIds(vms) && ids == Ids(vms) && n < |ids| && RestIsLive(ids, n, live)
    ensures ids[n] in live && RestIsLive(ids, n + 1, live - {ids[n]})
  {
    forall i | n + 1 <= i < |ids| ensures ids[i] in live - {ids[n]} {
      assert vms[i].id != vms[n].id;
    }
  }

  lemma {:induction false} AcceptedAppend(a: seq<nat>, b: seq<nat>, ok: set<nat>)
    ensures Accepted(a + b, ok) == Accepted(a, ok) + Accepted(b, ok)
  {
    if |a| == 0 {
      assert a + b == b;
    } else {
      assert (a + b)[1..] == a[1..] + b;
      AcceptedAppend(a[1..], b, ok);
    }
  }

  /** Making the next call of a list in which every call is made. */
  lemma AcceptNext(live: map<nat, Vm>, log: seq<nat>, ids: seq<nat>, i: nat, ok: set<nat>)
    requires i < |ids|
    ensures var before, after := Accepted(ids[..i], ok), Accepted(ids[..i + 1], ok);
            if ids[i] in ok then
              log + after == log + before + [ids[i]] && live - AsSet(after) == (live - AsSet(before)) - {ids[i]}
            else after == before
  {
    assert ids[..i + 1] == ids[..i] + [ids[i]];
    AcceptedAppend(ids[..i], [ids[i]], ok);
    EndOneMore(live, Accepted(ids[..i], ok), ids[i]);
  }

  /** The VMs RunMicrovm answered with, when some calls raise (None). */
  function Launches(answers: seq<Option<Vm>>): (r: seq<Vm>)
    ensures forall v :: v in r <==> Some(v) in answers
  {
    if |answers| == 0 then [] else (if answers[0].Some? then [answers[0].value] else []) + Launches(answers[1..])
  }

  /** New VMs: active, with ids never used before. */
  ghost predicate FreshAnswers(answers: seq<Option<Vm>>, live: map<nat, Vm>, terminated: set<nat>) {
    && (forall i :: 0 <= i < |answers| && answers[i].Some? ==>
          answers[i].value.state.Active() && answers[i].value.id !in live && answers[i].value.id !in terminated)
    && (forall i, j ::
         0 <= i < j < |answers| && answers[i].Some? && answers[j].Some? ==> answers[i].value.id != answers[j].value.id)
  }

  lemma {:induction false} LaunchesAppend(answers: seq<Option<Vm>>, a: Option<Vm>)
    ensures Launches(answers + [a]) == Launches(answers) + if a.Some? then [a.value] else []
  {
    if |answers| > 0 {
      assert (answers + [a])[1..] == answers[1..] + [a];
      LaunchesAppend(answers[1..], a);
    }
  }

  /** The live VMs after launching `vms`. */
  function WithAll(live: map<nat, Vm>, vms: seq<Vm>): map<nat, Vm> {
    if |vms| == 0 then live else WithAll(live, vms[..|vms| - 1])[vms[|vms| - 1].id := vms[|vms| - 1]]
  }

  lemma LaunchNext(live: map<nat, Vm>, answers: seq<Option<Vm>>, i: nat)
    requires i < |answers|
    ensures var before, after := Launches(answers[..i]), Launches(answers[..i + 1]);
            if answers[i].Some? then
              |after| == |before| + 1
                  && WithAll(live, after) == WithAll(live, before)[answers[i].value.id := answers[i].value]
            else after == before
  {
    assert answers[..i + 1] == answers[..i] + [answers[i]];
    LaunchesAppend(answers[..i], answers[i]);
    if answers[i].Some? {
      var after := Launches(answers[..i]) + [answers[i].value];
      assert after[..|after| - 1] == Launches(answers[..i]);
    }
  }

  lemma FreshNext(answers: seq<Option<Vm>>, live: map<nat, Vm>, terminated: set<nat>)
    requires |answers| > 0 && FreshAnswers(answers, live, terminated)
    ensures answers[0].Some? ==> FreshAnswers(answers[1..], live[answers[0].value.id := answers[0].value], terminated)
    ensures answers[0].Some? ==> |live[answers[0].value.id := answers[0].value]| == |live| + 1
    ensures FreshAnswers(answers[1..], live, terminated)
  {
    if answers[0].Some? {
      var v := answers[0].value;
      assert live[v.id := v].Keys == live.Keys + {v.id};
    }
  }

  /** list(pool.map(...)): the results in order, or the first exception. */
  function FirstRaise(answers: seq<Option<Vm>>): (out: Outcome)
    ensures (out == Returned(Launches(answers)) && |Launches(answers)| == |answers|)
            || (out.RaisedOn? && out.index < |answers| && answers[out.index].None?)
  {
    if |answers| == 0 then Returned([])
    else if answers[0].None? then RaisedOn(0)
    else
      match FirstRaise(answers[1..])
      case Returned(vms) => Returned([answers[0].value] + vms)
      case RaisedOn(i) => RaisedOn(i + 1)
  }

  /** Known to have started, and longer ago than maxAge. */
  predicate Overdue(v: Vm, now: real, maxAge: real) { v.started != 0.0 && now - v.started > maxAge }

  /** The members reap() would end. */
  function Expired(members: seq<Vm>, now: real, maxAge: real): (r: seq<Vm>)
    ensures forall v :: v in r <==> v in members && Overdue(v, now, maxAge)
    ensures multiset(r) <= multiset(members)
  {
    if |members| == 0 then []
    else
      assert members == [members[0]] + members[1..];
      (if Overdue(members[0], now, maxAge) then [members[0]] else []) + Expired(members[1..], now, maxAge)
  }

  lemma ExpiredKeepDistinct(members: seq<Vm>, now: real, maxAge: real)
    requires DistinctIds(members)
    ensures DistinctIds(Expired(members, now, maxAge))
  {
    SelectionKeepsDistinct(members, Expired(members, now, maxAge));
  }

  /** `reaped` are members that are overdue, all of them unless a call for one of them raised. */
  ghost predicate Reaped(reaped: seq<nat>, members: seq<Vm>, now: real, maxAge: real, ok: set<nat>) {
    && (forall id :: id in reaped ==> id in ok && exists v :: v in members && v.id == id && Overdue(v, now, maxAge))
    && ((forall v :: v in members ==> v.id in ok) ==>
         forall v :: v in members && Overdue(v, now, maxAge) ==> v.id in reaped)
  }

  lemma ReapedUntil(members: seq<Vm>, now: real, maxAge: real, ok: set<nat>, made: nat)
    requires var overdue := Expired(members, now, maxAge);
             && made <= |overdue|
             && (forall i :: 0 <= i < made ==> overdue[i].id in ok)
             && (made < |overdue| ==> overdue[made].id !in ok)
    ensures Reaped(Ids(Expired(members, now, maxAge))[..made], members, now, maxAge, ok)
  {
    var overdue := Expired(members, now, maxAge);
    var reaped := Ids(overdue)[..made];
    forall id | id in reaped
      ensures id in ok && exists v :: v in members && v.id == id && Overdue(v, now, maxAge)
    {
      var i :| 0 <= i < made && reaped[i] == id;
      assert overdue[i] in overdue;
    }
    if made == |overdue| {
      forall v | v in members && Overdue(v, now, maxAge)
        ensures v.id in reaped
      {
        var i :| 0 <= i < |overdue| && overdue[i] == v;
        assert reaped[i] == v.id;
      }
    } else {
      assert overdue[made] in overdue;
    }
  }

  lemma DrainedAre(vms: seq<Vm>, live: map<nat, Vm>, ok: set<nat>)
    requires forall id :: id in live ==> live[id] in vms && live[id].id == id
    ensures live - AsSet(Accepted(Ids(vms), ok)) == live - ok
  {
    forall id | id in live
      ensures id in Accepted(Ids(vms), ok) <==> id in ok
    {
      var i :| 0 <= i < |vms| && vms[i] == live[id];
      assert Ids(vms)[i] == id;
    }
  }

  datatype Outcome = Returned(vms: seq<Vm>) | RaisedOn(index: nat)

  /** How many calls are made before the first that raises. */
  function LeadingOk(ids: seq<nat>, ok: set<nat>): (n: nat)
    ensures n <= |ids|
    ensures forall i :: 0 <= i < n ==> ids[i] in ok
    ensures n < |ids| ==> ids[n] !in ok
  {
    if |ids| == 0 || ids[0] !in ok then 0 else 1 + LeadingOk(ids[1..], ok)
  }

  lemma LeadingOkIs(ids: seq<nat>, ok: set<nat>, n: nat)
    requires n <= |ids| && (forall i :: 0 <= i < n ==> ids[i] in ok) && (n < |ids| ==> ids[n] !in ok)
    ensures LeadingOk(ids, ok) == n
  {
  }

  /** What a call leaves of the service, and answers. */
  datatype Effect = Effect(log: seq<nat>, live: map<nat, Vm>, out: Outcome)

  /** Ending the first `excess` members in the giving-up order one after another, up to a call that raises. */
  function ScaledDown(members: seq<Vm>, excess: nat, ok: set<nat>, log: seq<nat>, live: map<nat, Vm>): Effect {
    var ids := Ids(Victims(members, excess));
    var made := LeadingOk(ids, ok);
    Effect(log + ids[..made], live - AsSet(ids[..made]), if made == |ids| then Returned([]) else RaisedOn(made))
  }

  function ScaledTo(desired: int, members: seq<Vm>, answers: seq<Option<Vm>>, ok: set<nat>, log: seq<nat>,
                    live: map<nat, Vm>): Effect {
    if desired > |members| then Effect(log, WithAll(live, Launches(answers)), FirstRaise(answers))
    else if desired < |members| then ScaledDown(members, |members| - desired, ok, log, live)
    else Effect(log, live, Returned([]))
  }

  /** Repeating scale_to at the size reached calls nothing, however stale the listing is by then. */
  lemma RepeatedScaleToCallsNothing(listing: seq<Vm>, terminated: set<nat>, log: seq<nat>, live: map<nat, Vm>,
                                    desired: int, ok: set<nat>)
    requires Honest(listing, live, terminated) && |live| == desired
    requires forall id :: id in live ==> live[id].id == id && live[id].state.Active() && id !in terminated
    ensures ScaledTo(desired, Members(listing, terminated), [], ok, log, live) == Effect(log, live, Returned([]))
  {
    MembersAreTheLive(listing, live, terminated);
  }

  class Fleet {
    const service: Service
    var terminated: set<nat>

    /** The fleet remembers exactly the terminations the service accepted from it, no VM was ever terminated
        twice, and live VMs are active and not among them. */
    ghost predicate Valid()
      reads this, service
    {
      && terminated == AsSet(service.log)
      && NoRepeats(service.log)
      && forall id ::
           id in service.live ==> service.live[id].id == id && service.live[id].state.Active() && id !in terminated
    }

    constructor ()
      ensures Valid() && fresh(service) && service.live == map[] && service.log == []
    {
      service := new Service();
      terminated := {};
    }

    /** _terminate: the id is remembered only when the call did not raise. */
    method TerminateVm(id: nat, ok: bool)
      requires Valid() && id in service.live
      modifies this, service
      ensures Valid()
      ensures service.log == if ok then old(service.log) + [id] else old(service.log)
      ensures service.live == if ok then old(service.live) - {id} else old(service.live)
    {
      service.Terminate(id, ok);
      if ok {
        terminated := terminated + {id};
      }
    }

    /** members(), answered by the service with `listing`. */
    method ListMembers(listing: seq<Vm>) returns (members: seq<Vm>)
      requires Valid() && Honest(listing, service.live, terminated)
      ensures members == Members(listing, terminated)
      ensures DistinctIds(members) && |members| == |service.live|
      ensures forall v :: v in members ==> v.id in service.live && service.live[v.id] == v
    {
      MembersAreTheLive(listing, service.live, terminated);
      members := Members(listing, terminated);
    }

    method Size(listing: seq<Vm>) returns (n: nat)
      requires Valid() && Honest(listing, service.live, terminated)
      ensures n == |service.live|
    {
      var members := ListMembers(listing);
      n := |members|;
    }

    /** The service, from having this live and this log, accepted the termination of the first n ids, in order. */
    ghost predicate EndedFirst(live: map<nat, Vm>, log: seq<nat>, ids: seq<nat>, n: nat)
      requires n <= |ids|
      reads service
    {
      && service.log == log + ids[..n]
      && service.live == live - AsSet(ids[..n])
      && |service.live| == |live| - n
    }

    /** `for vm in vms: self._terminate(...)`: stops at the first call that raises. */
    method TerminateInTurn(vms: seq<Vm>, ok: set<nat>) returns (made: nat)
      requires Valid() && DistinctIds(vms) && forall v :: v in vms ==> v.id in service.live
      modifies this, service
      ensures Valid() && made <= |vms|
      ensures forall i :: 0 <= i < made ==> vms[i].id in ok
      ensures made < |vms| ==> vms[made].id !in ok
      ensures EndedFirst(old(service.live), old(service.log), Ids(vms), made)
    {
      made := 0;
      var ids := Ids(vms);
      while made < |vms|
        invariant made <= |vms| && Valid()
        invariant forall i :: 0 <= i < made ==> ids[i] in ok
        invariant RestIsLive(ids, made, service.live)
        invariant EndedFirst(old(service.live), old(service.log), ids, made)
      {
        RestStaysLive(vms, ids, made, service.live);
        TerminateVm(ids[made], ids[made] in ok);
        if ids[made] !in ok { return; }
        EndNext(old(service.live), old(service.log), ids, made);
        made := made + 1;
      }
    }

    /** `pool.map(self._terminate, vms)`: every call is made, whichever raise. */
    method TerminateAll(vms: seq<Vm>, ok: set<nat>)
      requires Valid() && DistinctIds(vms) && forall v :: v in vms ==> v.id in service.live
      modifies this, service
      ensures Valid()
      ensures service.log == old(service.log) + Accepted(Ids(vms), ok)
      ensures service.live == old(service.live) - AsSet(Accepted(Ids(vms), ok))
    {
      var ids := Ids(vms);
      for i := 0 to |vms|
        invariant Valid()
        invariant forall j :: i <= j < |vms| ==> vms[j].id in service.live
        invariant service.log == old(service.log) + Accepted(ids[..i], ok)
        invariant service.live == old(service.live) - AsSet(Accepted(ids[..i], ok))
      {
        AcceptNext(old(service.live), old(service.log), ids, i, ok);
        TerminateVm(ids[i], ids[i] in ok);
      }
      assert ids[..|vms|] == ids;
    }

    /** RunMicrovm for every launch index, through the pool: all are tried; None is a call that raises. */
    method LaunchAll(answers: seq<Option<Vm>>)
      requires Valid() && FreshAnswers(answers, service.live, terminated)
      modifies service
      ensures Valid() && service.log == old(service.log)
      ensures service.live == WithAll(old(service.live), Launches(answers))
      ensures |service.live| == |old(service.live)| + |Launches(answers)|
    {
      for i := 0 to |answers|
        invariant Valid() && service.log == old(service.log)
        invariant FreshAnswers(answers[i..], service.live, terminated)
        invariant service.live == WithAll(old(service.live), Launches(answers[..i]))
        invariant |service.live| == |old(service.live)| + |Launches(answers[..i])|
      {
        LaunchNext(old(service.live), answers, i);
        FreshNext(answers[i..], service.live, terminated);
        assert answers[i..][0] == answers[i] && answers[i..][1..] == answers[i + 1..];
        if answers[i].Some? {
          service.Run(answers[i].value);
        }
      }
      assert answers[..|answers|] == answers;
    }

    /** These are the live VMs, each once. */
    ghost predicate AreAll(current: seq<Vm>)
      reads service
    {
      DistinctIds(current) && |current| == |service.live| && forall v :: v in current ==> v.id in service.live
    }

    /** The scale-up half of scale_to. */
    method ScaleUp(answers: seq<Option<Vm>>) returns (out: Outcome)
      requires Valid() && FreshAnswers(answers, service.live, terminated)
      modifies this, service
      ensures Valid()
      ensures Effect(service.log, service.live, out) ==
              Effect(old(service.log), WithAll(old(service.live), Launches(answers)), FirstRaise(answers))
      ensures out.Returned? ==> |service.live| == old(|service.live|) + |answers|
    {
      LaunchAll(answers);
      out := FirstRaise(answers);
    }

    /** The scale-down half of scale_to: `excess` VMs of a fleet of size |live|. */
    method ScaleDown(excess: nat, current: seq<Vm>, ok: set<nat>) returns (out: Outcome)
      requires Valid() && AreAll(current)
      modifies this, service
      ensures Valid()
      ensures Effect(service.log, service.live, out) ==
              ScaledDown(current, excess, ok, old(service.log), old(service.live))
      ensures out.Returned? ==>
              |service.live| == if excess <= old(|service.live|) then old(|service.live|) - excess else 0
    {
      var victims := Victims(current, excess);
      VictimsAreASelection(current, excess);
      SelectionKeepsDistinct(current, victims);
      var made := TerminateInTurn(victims, ok);
      LeadingOkIs(Ids(victims), ok, made);
      out := if made == |victims| then Returned([]) else RaisedOn(made);
    }

    /** scale_to from the members on. */
    method Converge(desired: int, current: seq<Vm>, answers: seq<Option<Vm>>, ok: set<nat>) returns (out: Outcome)
      requires Valid() && AreAll(current)
      requires desired > |current| ==>
               |answers| == desired - |current| && FreshAnswers(answers, service.live, terminated)
      modifies this, service
      ensures Valid()
      ensures Effect(service.log, service.live, out) ==
              ScaledTo(desired, current, answers, ok, old(service.log), old(service.live))
      ensures out.Returned? ==> |service.live| == if desired >= 0 then desired else 0
    {
      if desired > |current| {
        out := ScaleUp(answers);
      } else if desired < |current| {
        out := ScaleDown(|current| - desired, current, ok);
      } else {
        out := Returned([]);
      }
    }

    /** scale_to(desired). `answers` are the service's replies to the launches, if any are made. When nothing
        raises, the fleet has exactly `desired` live VMs afterwards. */
    method ScaleTo(desired: int, listing: seq<Vm>, answers: seq<Option<Vm>>, ok: set<nat>) returns (out: Outcome)
      requires Valid() && Honest(listing, service.live, terminated)
      requires desired > |service.live| ==>
               |answers| == desired - |service.live| && FreshAnswers(answers, service.live, terminated)
      modifies this, service
      ensures Valid()
      ensures Effect(service.log, service.live, out) ==
              ScaledTo(desired, Members(listing, old(terminated)), answers, ok, old(service.log), old(service.live))
      ensures out.Returned? ==> |service.live| == if desired >= 0 then desired else 0
    {
      var current := ListMembers(listing);
      out := Converge(desired, current, answers, ok);
    }

    /** drain(): terminate every member; all calls are made even if some raise. */
    method Drain(listing: seq<Vm>, ok: set<nat>) returns (tried: nat)
      requires Valid() && Honest(listing, service.live, terminated)
      modifies this, service
      ensures Valid() && tried == old(|service.live|)
      ensures service.log == old(service.log) + Accepted(Ids(Members(listing, old(terminated))), ok)
      ensures service.live == old(service.live) - ok
    {
      MembersAreTheLive(listing, service.live, terminated);
      var vms := Members(listing, terminated);
      TerminateAll(vms, ok);
      DrainedAre(vms, old(service.live), ok);
      tried := |vms|;
    }

    /** reap(max_age): terminate the members known to be older; stops at the first call that raises. */
    method Reap(listing: seq<Vm>, now: real, maxAge: real, ok: set<nat>) returns (reaped: seq<nat>)
      requires Valid() && Honest(listing, service.live, terminated)
      modifies this, service
      ensures Valid() && service.log == old(service.log) + reaped
      ensures Reaped(reaped, Members(listing, old(terminated)), now, maxAge, ok)
      ensures service.live == old(service.live) - AsSet(reaped)
    {
      MembersAreTheLive(listing, service.live, terminated);
      var members := Members(listing, terminated);
      var overdue := Expired(members, now, maxAge);
      ExpiredKeepDistinct(members, now, maxAge);
      var made := TerminateInTurn(overdue, ok);
      reaped := Ids(overdue)[..made];
      ReapedUntil(members, now, maxAge, ok, made);
    }
  }
}
