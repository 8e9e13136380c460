/**
 LeaseContext of microvm/hooks/server.py as an object. Each method is the source's code run without interruption and
 takes the object where some run of LeaseRuntime's machine goes; how methods interleave is the machine's concern.
 */
module LeaseContext {
  import opened Common
  import opened LeaseRuntime
  import opened LeaseSafety

  /** Some run goes from s to t. */
  ghost predicate Leads(s: State, t: State) { exists steps :: Runs(s, steps) && Exec(s, steps) == t }

  lemma LeadsOn(s: State, t: State, step: Step)
    requires Leads(s, t) && Enabled(t, step)
    ensures Leads(s, Next(t, step))
  {
    var steps :| Runs(s, steps) && Exec(s, steps) == t;
    assert Runs(Next(t, step), []);
    assert Runs(t, [step]) && Exec(t, [step]) == Next(t, step);
    RunsAppend(s, steps, [step]);
  }

  lemma LeadsNowhere(s: State)
    ensures Leads(s, s)
  {
    assert Runs(s, []) && Exec(s, []) == s;
  }

  lemma LeadsFurther(s: State, t: State, u: State)
    requires Leads(s, t) && Leads(t, u)
    ensures Leads(s, u)
  {
    var a :| Runs(s, a) && Exec(s, a) == t;
    var b :| Runs(t, b) && Exec(t, b) == u;
    RunsAppend(s, a, b);
  }

  /** The part of the state LeaseContext holds. */
  datatype Shared = Shared(heartbeats: nat, lost: bool, done: bool, error: Option<Error>, stop: bool)

  function Of(s: State): Shared { Shared(s.heartbeats, s.lost, s.done, s.error, s.stop) }

  /** Thread i went on to pc; no other thread, nor the token, changed. */
  ghost predicate Moved(s: State, t: State, i: nat, pc: DeliverPc)
    requires i < |s.threads|
  {
    t.threads == s.threads[i := s.threads[i].(pc := pc)] && t.open == s.open
  }

  // ---------------------------------------------------------------- _deliver, in three stretches

  /** From the lock to the test of done. */
  lemma Entry(s: State, i: nat) returns (t: State)
    requires AtPc(s, i, Entering) && s.lock == None
    ensures Leads(s, t) && Moved(s, t, i, if s.done then Leaving(false) else Claiming) && Of(t) == Of(s)
            && t.lock == Some(Thread(i))
  {
    var locked := Next(s, Acquire(i));
    LeadsNowhere(s);
    LeadsOn(s, s, Acquire(i));
    LeadsOn(s, locked, Test(i));
    t := Next(locked, Test(i));
  }

  lemma Leave(s: State, i: nat, won: bool) returns (t: State)
    requires AtPc(s, i, Leaving(won))
    ensures Leads(s, t) && Moved(s, t, i, if won then Stopping else Finished(false)) && Of(t) == Of(s) && t.lock == None
  {
    LeadsNowhere(s);
    LeadsOn(s, s, Release(i));
    t := Next(s, Release(i));
  }

  /** The claim: done and error. */
  lemma ClaimAndRecord(s: State, i: nat) returns (t: State)
    requires AtPc(s, i, Claiming)
    ensures Leads(s, t) && Moved(s, t, i, Leaving(true)) && t.lock == s.lock
    ensures Of(t) == Of(s).(done := true, error := s.threads[i].payload.ErrorOf())
  {
    var claimed := Next(s, Claim(i));
    LeadsNowhere(s);
    LeadsOn(s, s, Claim(i));
    LeadsOn(s, claimed, Record(i));
    t := Next(claimed, Record(i));
  }

  lemma StopAndTest(s: State, i: nat) returns (t: State)
    requires AtPc(s, i, Stopping)
    ensures Leads(s, t) && Moved(s, t, i, if s.lost then Finished(true) else Ready) && t.lock == s.lock
            && Of(t) == Of(s).(stop := true)
  {
    var stopped := Next(s, SetStop(i));
    LeadsNowhere(s);
    LeadsOn(s, s, SetStop(i));
    LeadsOn(s, stopped, TestLost(i));
    t := Next(stopped, TestLost(i));
  }

  lemma SendAndHear(s: State, i: nat, r: Reply) returns (t: State)
    requires AtPc(s, i, Ready) && ReplyPossible(s, r)
    ensures Leads(s, t) && Moved(s, t, i, if r.Refused? then Closing else Finished(true)) && t.lock == s.lock
            && Of(t) == Of(s)
  {
    var sending := Next(s, Send(i));
    LeadsNowhere(s);
    LeadsOn(s, s, Send(i));
    LeadsOn(s, sending, SendReply(i, r));
    t := Next(sending, SendReply(i, r));
  }

  lemma Close(s: State, i: nat) returns (t: State)
    requires AtPc(s, i, Closing)
    ensures Leads(s, t) && Moved(s, t, i, Finished(true)) && t.lock == s.lock && Of(t) == Of(s).(lost := true)
  {
    LeadsNowhere(s);
    LeadsOn(s, s, MarkLost(i));
    t := Next(s, MarkLost(i));
  }

  /** The send, and lost if the token was closed. */
  lemma SendOut(s: State, i: nat, r: Reply) returns (t: State)
    requires AtPc(s, i, Ready) && ReplyPossible(s, r)
    ensures Leads(s, t) && Moved(s, t, i, Finished(true)) && t.lock == s.lock
            && Of(t) == Of(s).(lost := s.lost || r.Refused?)
  {
    t := SendAndHear(s, i, r);
    if r.Refused? {
      var answered := t;
      t := Close(answered, i);
      LeadsFurther(s, answered, t);
    }
  }

  ghost predicate CanDeliver(s: State, i: nat, r: Reply) {
    AtPc(s, i, Entering) && s.lock == None && (!s.done && !s.lost ==> ReplyPossible(s, r))
  }

  /** What _deliver makes of the shared state. */
  function Delivered(before: Shared, payload: Payload, r: Reply): Shared {
    if before.done then before
    else before.(done := true, error := payload.ErrorOf(), stop := true, lost := before.lost || r.Refused?)
  }

  lemma WholeDelivery(s: State, i: nat, r: Reply) returns (t: State)
    requires CanDeliver(s, i, r)
    ensures Leads(s, t) && Moved(s, t, i, Finished(!s.done)) && t.lock == None
    ensures Of(t) == Delivered(Of(s), s.threads[i].payload, r)
  {
    var entered := Entry(s, i);
    if s.done {
      t := Leave(entered, i, false);
      LeadsFurther(s, entered, t);
    } else {
      t := WinningDelivery(entered, i, r);
      LeadsFurther(s, entered, t);
    }
  }

  lemma WinningDelivery(s: State, i: nat, r: Reply) returns (t: State)
    requires AtPc(s, i, Claiming) && (!s.lost ==> ReplyPossible(s, r))
    ensures Leads(s, t) && Moved(s, t, i, Finished(true)) && t.lock == None
    ensures Of(t) == Of(s).(done := true, error := s.threads[i].payload.ErrorOf(), stop := true,
                            lost := s.lost || r.Refused?)
  {
    var recorded := ClaimAndRecord(s, i);
    var released := Leave(recorded, i, true);
    var tested := StopAndTest(released, i);
    LeadsFurther(s, recorded, released);
    LeadsFurther(s, released, tested);
    t := tested;
    if !s.lost {
      t := SendOut(tested, i, r);
      LeadsFurther(s, tested, t);
    }
  }

  // ---------------------------------------------------------------- one pass of the heartbeat loop

  ghost predicate CanBeat(s: State, r: Reply) {
    s.beat == Acquiring && s.lock == None && (!s.done ==> ReplyPossible(s, r))
  }

  /** What one pass makes of the shared state. */
  function Beaten(before: Shared, r: Reply): Shared {
    if before.done then before
    else if r.Delivered? then before.(heartbeats := before.heartbeats + 1)
    else if r.Refused? then before.(lost := true, stop := true)
    else before
  }

  /** The threads of _deliver and the token are as they were. */
  ghost predicate Still(s: State, t: State) { t.threads == s.threads && t.open == s.open }

  lemma PassEntry(s: State) returns (t: State)
    requires s.beat == Acquiring && s.lock == None
    ensures Leads(s, t) && Still(s, t) && Of(t) == Of(s) && t.beat == if s.done then Releasing(ToExit) else Starting
  {
    var locked := Next(s, BeatAcquire);
    LeadsNowhere(s);
    LeadsOn(s, s, BeatAcquire);
    LeadsOn(s, locked, BeatTest);
    t := Next(locked, BeatTest);
  }

  lemma PassSend(s: State, r: Reply) returns (t: State)
    requires s.beat == Starting && ReplyPossible(s, r)
    ensures Leads(s, t) && Still(s, t) && Of(t) == Of(s)
    ensures t.beat == if r.Delivered? then Counting else if r.Refused? then Releasing(ToLost) else Releasing(ToWait)
  {
    var sending := Next(s, BeatSend);
    LeadsNowhere(s);
    LeadsOn(s, s, BeatSend);
    LeadsOn(s, sending, BeatReply(r));
    t := Next(sending, BeatReply(r));
  }

  lemma PassCount(s: State) returns (t: State)
    requires s.beat == Counting
    ensures Leads(s, t) && Still(s, t) && t.beat == Releasing(ToWait) && Of(t) == Of(s).(heartbeats := s.heartbeats + 1)
  {
    LeadsNowhere(s);
    LeadsOn(s, s, BeatTally);
    t := Next(s, BeatTally);
  }

  lemma PassLeave(s: State) returns (t: State)
    requires s.beat.Releasing?
    ensures Leads(s, t) && Still(s, t) && t.lock == None && Of(t) == Of(s)
    ensures t.beat == if s.beat.after.ToWait? then Waiting else if s.beat.after.ToLost? then MarkingLost else Exited
  {
    LeadsNowhere(s);
    LeadsOn(s, s, BeatRelease);
    t := Next(s, BeatRelease);
  }

  lemma PassLost(s: State) returns (t: State)
    requires s.beat == MarkingLost
    ensures Leads(s, t) && Still(s, t) && t.lock == s.lock && t.beat == Exited
            && Of(t) == Of(s).(lost := true, stop := true)
  {
    var lost := Next(s, BeatMarkLost);
    LeadsNowhere(s);
    LeadsOn(s, s, BeatMarkLost);
    LeadsOn(s, lost, BeatMarkStop);
    t := Next(lost, BeatMarkStop);
  }

  lemma WholePass(s: State, r: Reply) returns (t: State)
    requires CanBeat(s, r)
    ensures Leads(s, t) && Still(s, t) && t.lock == None && Of(t) == Beaten(Of(s), r)
    ensures t.beat == if s.done || r.Refused? then Exited else Waiting
  {
    var entered := PassEntry(s);
    var heard := entered;
    if !s.done {
      heard := PassSend(entered, r);
      LeadsFurther(s, entered, heard);
      if r.Delivered? {
        var counted := PassCount(heard);
        LeadsFurther(s, heard, counted);
        heard := counted;
      }
    }
    t := PassLeave(heard);
    LeadsFurther(s, heard, t);
    if t.beat == MarkingLost {
      var left := t;
      t := PassLost(left);
      LeadsFurther(s, left, t);
    }
  }

  // ---------------------------------------------------------------- check

  ghost predicate NothingSentBy(t: State, i: nat) {
    forall k :: 0 <= k < |t.history| && t.history[k].CompletionStart? ==> t.history[k].i != i
  }

  lemma BeatKeepsEnded(s: State, step: Step)
    requires step.IsBeat() && Enabled(s, step)
    ensures BeatNext(s, step).ended == s.ended
  {
  }

  lemma EndedStaysStep(s: State, step: Step)
    requires PayloadInv(s) && s.ended.Some? && Enabled(s, step)
    ensures Next(s, step).ended == s.ended
  {
    if step.IsBeat() {
      BeatKeepsEnded(s, step);
    }
  }

  lemma {:induction false} EndedStays(s: State, steps: seq<Step>)
    requires Inv(s) && s.ended.Some? && Runs(s, steps)
    ensures Inv(Exec(s, steps)) && Exec(s, steps).ended == s.ended
    decreases |steps|
  {
    if |steps| > 0 {
      StepInv(s, steps[0]);
      EndedStaysStep(s, steps[0]);
      EndedStays(Next(s, steps[0]), steps[1..]);
    }
  }

  lemma CheckedLeaseIsNotSent(s: State, t: State)
    requires Reachable(s) && Enabled(s, HandlerEnds(ChecksLost)) && Leads(Next(s, HandlerEnds(ChecksLost)), t)
    ensures NothingSentBy(t, 0)
  {
    ReachableInv(s);
    StepInv(s, HandlerEnds(ChecksLost));
    var steps :| Runs(Next(s, HandlerEnds(ChecksLost)), steps) && Exec(Next(s, HandlerEnds(ChecksLost)), steps) == t;
    EndedStays(Next(s, HandlerEnds(ChecksLost)), steps);
  }

  // ---------------------------------------------------------------- the object

  class LeaseContext {
    var heartbeats: nat
    var lost: bool
    var done: bool
    var error: Option<Error>
    var stop: bool

    function View(): Shared
      reads this
    {
      Shared(heartbeats, lost, done, error, stop)
    }

    constructor ()
      ensures View() == Of(Init(true)) == Of(Init(false))
    {
      heartbeats, lost, done, error, stop := 0, false, false, None, false;
    }

    method MarkLost()
      modifies this`lost, this`stop
      ensures View() == old(View()).(lost := true, stop := true)
    {
      lost := true;
      stop := true;
    }

    /** check(), called by a handler at work while the machine is in state s: it raises LeaseLost exactly when the
        machine lets the handler end that way, and a handler that does has its outcome sent in no run that follows. */
    method Check(ghost s: State) returns (raises: bool)
      requires View() == Of(s) && Reachable(s) && AtPc(s, 0, Running)
      ensures raises <==> Enabled(s, HandlerEnds(ChecksLost))
      ensures raises ==> forall t :: Leads(Next(s, HandlerEnds(ChecksLost)), t) ==> NothingSentBy(t, 0)
    {
      raises := lost;
      if raises {
        forall t | Leads(Next(s, HandlerEnds(ChecksLost)), t)
          ensures NothingSentBy(t, 0)
        {
          CheckedLeaseIsNotSent(s, t);
        }
      }
    }

    /** One pass of _heartbeat_loop, while the machine is in state s: the machine can follow, and is then at its wait
        exactly when the loop goes on. sent tells whether a heartbeat went out. */
    method HeartbeatPass(ghost s: State, r: Reply) returns (sent: bool, again: bool, ghost t: State)
      requires View() == Of(s) && CanBeat(s, r)
      modifies this
      ensures Leads(s, t) && View() == Of(t) && Still(s, t) && t.lock == None
      ensures (again <==> t.beat == Waiting) && (!again <==> t.beat == Exited)
      ensures sent <==> !old(done)
    {
      t := WholePass(s, r);
      if done { return false, false, t; }
      sent, again := true, true;
      match r
      case Delivered => heartbeats := heartbeats + 1;
      case Refused =>
        MarkLost();
        again := false;
      case Broken(_) =>
    }

    /** _deliver by thread i, while the machine is in state s: the machine can follow. sent tells whether
        completer.send was called. */
    method Deliver(ghost s: State, ghost i: nat, payload: Payload, r: Reply) returns (sent: bool, ghost t: State)
      requires View() == Of(s) && CanDeliver(s, i, r) && s.threads[i].payload == payload
      modifies this
      ensures Leads(s, t) && View() == Of(t) && Moved(s, t, i, Finished(!old(done))) && t.lock == None
      ensures sent <==> !old(done) && !old(lost)
      ensures done && error == if old(done) then old(error) else payload.ErrorOf()
    {
      t := WholeDelivery(s, i, r);
      if done { return false, t; }
      done := true;
      error := payload.ErrorOf();
      stop := true;
      if lost { return false, t; }
      sent := true;
      if r.Refused? { lost := true; }
    }

    /** _terminate_lease: nothing once done; otherwise a failure that says Terminated. */
    method Terminate(ghost s: State, ghost i: nat, r: Reply) returns (sent: bool)
      requires View() == Of(s) && i > 0 && AtPc(s, i, Running) && s.threads[i].payload == Failed(TERMINATED)
      requires s.lock == None && (!s.done && !s.lost ==> ReplyPossible(s, r))
      modifies this
      ensures exists t :: Leads(s, t) && View() == Of(t) && Moved(s, t, i, Finished(!old(done))) && t.lock == None
      ensures sent <==> !old(done) && !old(lost)
      ensures done && error == if old(done) then old(error) else Some(TERMINATED)
    {
      LeadsNowhere(s);
      LeadsOn(s, s, TestDone(i));
      if done { return false; }
      ghost var t;
      sent, t := Deliver(Next(s, TestDone(i)), i, Failed(TERMINATED), r);
      LeadsFurther(s, Next(s, TestDone(i)), t);
    }
  }

  /** A later delivery, by any thread and with any payload, sends nothing and leaves the first one's error. */
  method DeliverTwice(ctx: LeaseContext, ghost s: State, ghost i: nat, first: Payload, r: Reply,
                      ghost k: nat, second: Payload, q: Reply) returns (sent: bool, sentAgain: bool)
    requires ctx.View() == Of(s) && CanDeliver(s, i, r) && s.threads[i].payload == first
    requires k != i && AtPc(s, k, Entering) && s.threads[k].payload == second
    modifies ctx
    ensures !sentAgain && ctx.done && ctx.error == if old(ctx.done) then old(ctx.error) else first.ErrorOf()
  {
    ghost var t, u;
    sent, t := ctx.Deliver(s, i, first, r);
    sentAgain, u := ctx.Deliver(t, k, second, q);
  }
}
