/** The selection of scale_down_victims in microvm/fleet.py. */
module Scaling {
  import opened Common

  datatype VmState = Pending | Running | Suspending | Suspended | Terminating | Terminated {
    /** ACTIVE_STATES */
    predicate Active() { Pending? || Running? || Suspending? || Suspended? }
  }

  /** A member of a listing; `started` is started_epoch, 0 when unknown. */
  datatype Vm = Vm(id: nat, state: VmState, started: real)

  function Parked(vms: seq<Vm>): (r: seq<Vm>)
    ensures forall v :: v in r <==> v in vms && v.state.Suspended?
  {
    if |vms| == 0 then [] else (if vms[0].state.Suspended? then [vms[0]] else []) + Parked(vms[1..])
  }

  function Awake(vms: seq<Vm>): (r: seq<Vm>)
    ensures forall v :: v in r <==> v in vms && !v.state.Suspended?
  {
    if |vms| == 0 then [] else (if vms[0].state.Suspended? then [] else [vms[0]]) + Awake(vms[1..])
  }

  lemma {:induction false} Split(vms: seq<Vm>)
    ensures multiset(Parked(vms)) + multiset(Awake(vms)) == multiset(vms)
  {
    if |vms| > 0 {
      assert vms == [vms[0]] + vms[1..];
      Split(vms[1..]);
    }
  }

  /** No VM starts before the next one. */
  ghost predicate YoungestFirst(vms: seq<Vm>) {
    |vms| <= 1 || (vms[0].started >= vms[1].started && YoungestFirst(vms[1..]))
  }

  lemma {:induction false} YoungestFirstApart(vms: seq<Vm>, i: nat, j: nat)
    requires YoungestFirst(vms) && i <= j < |vms|
    ensures vms[i].started >= vms[j].started
  {
    if i > 0 {
      YoungestFirstApart(vms[1..], i - 1, j - 1);
    } else if j > 0 {
      YoungestFirstApart(vms[1..], 0, j - 1);
    }
  }

  /** Insertion in front of the first VM that is not younger, the step of a stable sort. */
  function Insert(v: Vm, vms: seq<Vm>): seq<Vm> {
    if |vms| == 0 || v.started >= vms[0].started then [v] + vms else [vms[0]] + Insert(v, vms[1..])
  }

  lemma {:induction false} InsertAdds(v: Vm, vms: seq<Vm>)
    ensures multiset(Insert(v, vms)) == multiset(vms) + multiset{v}
  {
    if |vms| > 0 && v.started < vms[0].started {
      InsertAdds(v, vms[1..]);
      assert vms == [vms[0]] + vms[1..];
    }
  }

  lemma {:induction false} InsertKeepsOrder(v: Vm, vms: seq<Vm>)
    requires YoungestFirst(vms)
    ensures YoungestFirst(Insert(v, vms))
    ensures Insert(v, vms)[0] == v || (|vms| > 0 && Insert(v, vms)[0] == vms[0])
  {
    if |vms| == 0 || v.started >= vms[0].started {
      assert ([v] + vms)[1..] == vms;
    } else {
      InsertKeepsOrder(v, vms[1..]);
      assert ([vms[0]] + Insert(v, vms[1..]))[1..] == Insert(v, vms[1..]);
    }
  }

  /** running.sort(key=started_epoch, reverse=True) */
  function SortYoungestFirst(vms: seq<Vm>): seq<Vm> {
    if |vms| == 0 then [] else Insert(vms[0], SortYoungestFirst(vms[1..]))
  }

  lemma {:induction false} SortSorts(vms: seq<Vm>)
    ensures YoungestFirst(SortYoungestFirst(vms)) && multiset(SortYoungestFirst(vms)) == multiset(vms)
  {
    if |vms| > 0 {
      SortSorts(vms[1..]);
      InsertAdds(vms[0], SortYoungestFirst(vms[1..]));
      InsertKeepsOrder(vms[0], SortYoungestFirst(vms[1..]));
      assert vms == [vms[0]] + vms[1..];
    }
  }

  lemma SortIsSorted(vms: seq<Vm>)
    ensures YoungestFirst(SortYoungestFirst(vms))
  {
    SortSorts(vms);
  }

  /** VMs started at the same moment keep their order, as Python's sort promises even when reversed. */
  lemma {:induction false} SortIsStable(vms: seq<Vm>, at: real)
    ensures StartedAt(SortYoungestFirst(vms), at) == StartedAt(vms, at)
  {
    if |vms| > 0 {
      SortIsStable(vms[1..], at);
      SortSorts(vms[1..]);
      InsertIsStable(vms[0], SortYoungestFirst(vms[1..]), at);
      StartedAtCons(vms[0], SortYoungestFirst(vms[1..]), at);
    }
  }

  function StartedAt(vms: seq<Vm>, at: real): seq<Vm> {
    if |vms| == 0 then [] else (if vms[0].started == at then [vms[0]] else []) + StartedAt(vms[1..], at)
  }

  lemma StartedAtCons(v: Vm, vms: seq<Vm>, at: real)
    ensures v.started == at ==> StartedAt([v] + vms, at) == [v] + StartedAt(vms, at)
    ensures v.started != at ==> StartedAt([v] + vms, at) == StartedAt(vms, at)
  {
    assert ([v] + vms)[1..] == vms;
  }

  lemma {:induction false} InsertIsStable(v: Vm, vms: seq<Vm>, at: real)
    ensures StartedAt(Insert(v, vms), at) == StartedAt([v] + vms, at)
  {
    StartedAtCons(v, vms, at);
    if |vms| == 0 || v.started >= vms[0].started {
    } else {
      InsertIsStable(v, vms[1..], at);
      StartedAtCons(v, vms[1..], at);
      StartedAtCons(vms[0], Insert(v, vms[1..]), at);
      StartedAtCons(vms[0], vms[1..], at);
      assert vms == [vms[0]] + vms[1..];
    }
  }

  /** The order in which members are given up: every suspended one, then the youngest of the others. */
  function GivingUp(members: seq<Vm>): seq<Vm> { Parked(members) + SortYoungestFirst(Awake(members)) }

  function Victims(members: seq<Vm>, count: nat): seq<Vm> {
    if count <= |GivingUp(members)| then GivingUp(members)[..count] else GivingUp(members)
  }

  function Spared(members: seq<Vm>, count: nat): seq<Vm> {
    if count <= |GivingUp(members)| then GivingUp(members)[count..] else []
  }

  lemma GivingUpIsAPermutation(members: seq<Vm>)
    ensures multiset(GivingUp(members)) == multiset(members)
    ensures |GivingUp(members)| == |members|
  {
    Split(members);
    SortSorts(Awake(members));
    assert |multiset(GivingUp(members))| == |GivingUp(members)|;
    assert |multiset(members)| == |members|;
  }

  /** The victims and the spared are together exactly the members, each as often as listed. */
  lemma VictimsAreASelection(members: seq<Vm>, count: nat)
    ensures multiset(Victims(members, count)) + multiset(Spared(members, count)) == multiset(members)
    ensures |Victims(members, count)| == if count <= |members| then count else |members|
  {
    GivingUpIsAPermutation(members);
    var order := GivingUp(members);
    if count <= |order| {
      assert order == order[..count] + order[count..];
    }
  }

  /** Where an awake member stands in the giving-up order. */
  lemma AwakeComeLast(members: seq<Vm>, i: nat)
    requires i < |GivingUp(members)|
    ensures GivingUp(members)[i].state.Suspended? <==> i < |Parked(members)|
  {
    var parked, awake := Parked(members), SortYoungestFirst(Awake(members));
    SortSorts(Awake(members));
    if i < |parked| {
      assert parked[i] in parked;
    } else {
      assert awake[i - |parked|] in multiset(Awake(members));
    }
  }

  lemma TakeAndDrop(order: seq<Vm>, count: nat, i: nat, j: nat)
    requires i < count && count + j < |order|
    ensures order[..count][i] == order[i] && order[count..][j] == order[count + j]
  {
  }

  lemma AwakeAreOrdered(members: seq<Vm>, i: nat, k: nat)
    requires i <= k < |GivingUp(members)| && !GivingUp(members)[i].state.Suspended?
    ensures !GivingUp(members)[k].state.Suspended? && GivingUp(members)[k].started <= GivingUp(members)[i].started
  {
    var parked := |Parked(members)|;
    AwakeComeLast(members, i);
    AwakeComeLast(members, k);
    SortIsSorted(Awake(members));
    YoungestFirstApart(SortYoungestFirst(Awake(members)), i - parked, k - parked);
  }

  /** A VM that is not suspended is chosen only when every suspended one is; and whoever is spared while
      awake is at least as old as every victim that was awake. */
  lemma VictimsSpareTheWarmest(members: seq<Vm>, count: nat, i: nat, j: nat)
    requires i < |Victims(members, count)| && j < |Spared(members, count)|
    requires !Victims(members, count)[i].state.Suspended?
    ensures !Spared(members, count)[j].state.Suspended?
    ensures Spared(members, count)[j].started <= Victims(members, count)[i].started
  {
    TakeAndDrop(GivingUp(members), count, i, j);
    AwakeAreOrdered(members, i, count + j);
  }
}
