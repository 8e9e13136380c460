/** Progress of the lease runtime: a measure on the remaining steps, and what a settled run looks like. */
module LeaseProgress {
  import opened Common
  import opened LeaseRuntime
  import opened LeaseSafety

  // ---------------------------------------------------------------- the measure

  function BeatRank(b: BeatPc): nat {
    match b
    case Acquiring => 9
    case Testing => 8
    case Starting => 7
    case Sending => 6
    case Counting => 5
    case Releasing(_) => 4
    case MarkingLost => 3
    case MarkingStop => 2
    case Waiting => 1
    case Absent | Exited => 0
  }

  function Rank(pc: DeliverPc): nat {
    match pc
    case Running => 11
    case Entering => 10
    case Probing => 9
    case Claiming => 8
    case Recording => 7
    case Leaving(_) => 6
    case Stopping => 5
    case Checking => 4
    case Ready => 3
    case InFlight => 2
    case Closing => 1
    case Finished(_) | Dead => 0
  }

  function RankSum(ts: seq<Deliverer>): nat {
    if |ts| == 0 then 0 else RankSum(ts[..|ts| - 1]) + Rank(ts[|ts| - 1].pc)
  }

  function Measure(s: State): nat { BeatRank(s.beat) + RankSum(s.threads) }

  lemma {:induction false} RankSumUpdate(ts: seq<Deliverer>, i: nat, d: Deliverer)
    requires i < |ts|
    ensures RankSum(ts[i := d]) == RankSum(ts) - Rank(ts[i].pc) + Rank(d.pc)
  {
    var us := ts[i := d];
    if i == |ts| - 1 {
      assert us[..|us| - 1] == ts[..|ts| - 1];
    } else {
      assert us[..|us| - 1] == ts[..|ts| - 1][i := d];
      RankSumUpdate(ts[..|ts| - 1], i, d);
    }
  }

  lemma RankSumAppend(ts: seq<Deliverer>, d: Deliverer)
    ensures RankSum(ts + [d]) == RankSum(ts) + Rank(d.pc)
  {
    assert (ts + [d])[..|ts|] == ts;
  }

  /** The thread a step moves, if it moves one already there. */
  function Mover(step: Step): Option<nat> {
    match step
    case TestDone(i) => Some(i)
    case Acquire(i) => Some(i)
    case Test(i) => Some(i)
    case Claim(i) => Some(i)
    case Record(i) => Some(i)
    case Release(i) => Some(i)
    case SetStop(i) => Some(i)
    case TestLost(i) => Some(i)
    case Send(i) => Some(i)
    case SendReply(i, _) => Some(i)
    case MarkLost(i) => Some(i)
    case HandlerEnds(_) => Some(0)
    case _ => None
  }

  /** Thread i goes down in rank, and moves alone. */
  ghost predicate GoesDown(s: State, t: State, i: nat) {
    && i < |s.threads| == |t.threads|
    && t.threads == s.threads[i := t.threads[i]]
    && Rank(t.threads[i].pc) < Rank(s.threads[i].pc)
    && t.beat == s.beat
  }

  lemma GoDown(s: State, u: State, i: nat, pc: DeliverPc, t: State)
    requires i < |s.threads| && Rank(pc) < Rank(s.threads[i].pc)
    requires u.threads == s.threads && u.beat == s.beat
    requires t.threads == Go(u, i, pc).threads && t.beat == u.beat
    ensures GoesDown(s, t, i)
  {
  }

  lemma EnteringGoesDown(s: State, step: Step)
    requires Enabled(s, step) && (step.TestDone? || step.Acquire? || step.Test?)
    ensures GoesDown(s, Next(s, step), step.i)
  {
    var t := Next(s, step);
    match step
    case TestDone(i) => GoDown(s, s, i, if s.done then Finished(false) else Entering, t);
    case Acquire(i) => GoDown(s, s.(lock := Some(Thread(i))), i, Probing, t);
    case Test(i) => GoDown(s, s, i, if s.done then Leaving(false) else Claiming, t);
  }

  lemma ClaimingGoesDown(s: State, step: Step)
    requires Enabled(s, step) && (step.Claim? || step.Record? || step.Release?)
    ensures GoesDown(s, Next(s, step), step.i)
  {
    var t := Next(s, step);
    match step
    case Claim(i) => GoDown(s, s.(done := true, winner := Some(i)), i, Recording, t);
    case Record(i) => GoDown(s, s.(error := s.threads[i].payload.ErrorOf()), i, Leaving(true), t);
    case Release(i) => GoDown(s, s.(lock := None), i, if s.threads[i].pc.won then Stopping else Finished(false), t);
  }

  lemma SendingGoesDown(s: State, step: Step)
    requires Enabled(s, step) && (step.SetStop? || step.TestLost? || step.Send?)
    ensures GoesDown(s, Next(s, step), step.i)
  {
    var t := Next(s, step);
    match step
    case SetStop(i) => GoDown(s, s.(stop := true), i, Checking, t);
    case TestLost(i) => GoDown(s, s, i, if s.lost then Finished(true) else Ready, t);
    case Send(i) => GoDown(s, s, i, InFlight, t);
  }

  lemma EndingGoesDown(s: State, step: Step)
    requires Enabled(s, step) && (step.SendReply? || step.MarkLost?)
    ensures GoesDown(s, Next(s, step), step.i)
  {
    var t := Next(s, step);
    match step
    case SendReply(i, r) => GoDown(s, s, i, if r.Refused? then Closing else Finished(true), t);
    case MarkLost(i) => GoDown(s, s.(lost := true), i, Finished(true), t);
  }

  lemma HandlerGoesDown(s: State, e: HandlerEnd)
    requires AtPc(s, 0, Running)
    ensures GoesDown(s, AfterHandler(s, e), 0)
  {
  }

  lemma MoverGoesDown(s: State, step: Step)
    requires Enabled(s, step) && Mover(step).Some?
    ensures GoesDown(s, Next(s, step), Mover(step).value)
  {
    match step
    case TestDone(_) | Acquire(_) | Test(_) => EnteringGoesDown(s, step);
    case Claim(_) | Record(_) | Release(_) => ClaimingGoesDown(s, step);
    case SetStop(_) | TestLost(_) | Send(_) => SendingGoesDown(s, step);
    case SendReply(_, _) | MarkLost(_) => EndingGoesDown(s, step);
    case HandlerEnds(e) => HandlerGoesDown(s, e);
  }

  lemma BeatNextGoesDown(s: State, step: Step)
    requires Enabled(s, step) && step.IsBeat() && !step.BeatTimeout?
    ensures BeatNext(s, step).threads == s.threads && BeatRank(BeatNext(s, step).beat) < BeatRank(s.beat)
  {
  }

  lemma BeatGoesDown(s: State, step: Step)
    requires Enabled(s, step) && Mover(step).None? && step.IsProgram()
    ensures Next(s, step).threads == s.threads && BeatRank(Next(s, step).beat) < BeatRank(s.beat)
  {
    BeatNextGoesDown(s, step);
  }

  /** Every program step lowers the measure; so does the handler's end. A wake-up of the heartbeat
      thread adds 8, a /terminate call 11, the closing of the token nothing. */
  lemma StepLowersMeasure(s: State, step: Step)
    requires Enabled(s, step)
    ensures step.IsProgram() || step.HandlerEnds? ==> Measure(Next(s, step)) < Measure(s)
    ensures step.BeatTimeout? ==> Measure(Next(s, step)) == Measure(s) + 8
    ensures step.TerminateArrives? ==> Measure(Next(s, step)) == Measure(s) + 11
    ensures step.CloseToken? ==> Measure(Next(s, step)) == Measure(s)
  {
    if Mover(step).Some? {
      MoverGoesDown(s, step);
      var i := Mover(step).value;
      RankSumUpdate(s.threads, i, Next(s, step).threads[i]);
    } else if step.IsProgram() {
      BeatGoesDown(s, step);
    } else if step.TerminateArrives? {
      RankSumAppend(s.threads, Deliverer(Running, Failed(TERMINATED)));
    }
  }

  function ProgramSteps(steps: seq<Step>): nat {
    if |steps| == 0 then 0 else (if steps[0].IsProgram() then 1 else 0) + ProgramSteps(steps[1..])
  }

  function WakeUps(steps: seq<Step>): nat {
    if |steps| == 0 then 0 else (if steps[0].BeatTimeout? then 1 else 0) + WakeUps(steps[1..])
  }

  function Arrivals(steps: seq<Step>): nat {
    if |steps| == 0 then 0 else (if steps[0].TerminateArrives? then 1 else 0) + Arrivals(steps[1..])
  }

  /** In any run, the runtime's own steps are bounded by the measure at the start, 8 for each
      heartbeat wake-up and 11 for each /terminate call: nothing spins. */
  lemma {:induction false} ProgramStepsBounded(s: State, steps: seq<Step>)
    requires Runs(s, steps)
    ensures ProgramSteps(steps) + Measure(Exec(s, steps)) <= Measure(s) + 8 * WakeUps(steps) + 11 * Arrivals(steps)
    decreases |steps|
  {
    if |steps| > 0 {
      StepLowersMeasure(s, steps[0]);
      ProgramStepsBounded(Next(s, steps[0]), steps[1..]);
    }
  }

  /** Once _stop is set the heartbeat thread is never woken by its timeout again. */
  lemma {:induction false} NoWakeUpAfterStop(s: State, steps: seq<Step>)
    requires Runs(s, steps) && s.stop
    ensures WakeUps(steps) == 0
    decreases |steps|
  {
    if |steps| > 0 {
      FlagsGrowStep(s, steps[0]);
      NoWakeUpAfterStop(Next(s, steps[0]), steps[1..]);
    }
  }

  /** From the moment _stop is set the runtime winds down in a bounded number of steps, whatever
      the orchestrator does. */
  lemma WindsDownAfterStop(s: State, steps: seq<Step>)
    requires Runs(s, steps) && s.stop
    ensures ProgramSteps(steps) <= Measure(s) + 11 * Arrivals(steps)
  {
    NoWakeUpAfterStop(s, steps);
    ProgramStepsBounded(s, steps);
  }

  // ---------------------------------------------------------------- settled states

  /** No thread of the runtime can move: a run that is fair to every thread ends here. */
  ghost predicate Settled(s: State) {
    forall step: Step :: step.IsProgram() ==> !Enabled(s, step)
  }

  /** Some thread has got as far as _deliver: the handler returned or raised an Exception, or a /terminate call
      came. An exception that escapes the handler does not trigger a delivery. */
  ghost predicate Triggered(s: State) {
    (s.ended.Some? && !s.ended.value.Escapes?) || (exists i :: 0 < i < |s.threads| && !s.threads[i].pc.Running?)
  }

  /** The step the heartbeat thread would take next. */
  function BeatMove(b: BeatPc): Step {
    match b
    case Acquiring => BeatAcquire
    case Testing => BeatTest
    case Starting => BeatSend
    case Sending => BeatReply(Broken(false))
    case Counting => BeatTally
    case Releasing(_) => BeatRelease
    case Waiting => BeatStopped
    case MarkingLost => BeatMarkLost
    case _ => BeatMarkStop
  }

  /** The step thread i would take next. */
  function ThreadMove(pc: DeliverPc, i: nat): Step {
    match pc
    case Running => TestDone(i)
    case Entering => Acquire(i)
    case Probing => Test(i)
    case Claiming => Claim(i)
    case Recording => Record(i)
    case Leaving(_) => Release(i)
    case Stopping => SetStop(i)
    case Checking => TestLost(i)
    case Ready => Send(i)
    case InFlight => SendReply(i, Broken(false))
    case _ => MarkLost(i)
  }

  lemma SettledBeat(s: State)
    requires Settled(s) && LockInv(s)
    ensures s.lock != Some(Beat)
    ensures s.beat.Absent? || s.beat.Exited? || (s.beat.Waiting? && !s.stop) || (s.beat.Acquiring? && s.lock != None)
  {
    assert BeatMove(s.beat).IsProgram() && !Enabled(s, BeatMove(s.beat));
  }

  lemma SettledThread(s: State, i: nat)
    requires Settled(s) && i < |s.threads|
    ensures !s.threads[i].pc.Holds()
    ensures || s.threads[i].pc.Finished? || s.threads[i].pc.Dead?
            || (i == 0 && s.threads[i].pc.Running?) || (s.threads[i].pc.Entering? && s.lock != None)
  {
    var step := ThreadMove(s.threads[i].pc, i);
    assert step.IsProgram() && !Enabled(s, step);
  }

  lemma SettledLockFree(s: State)
    requires Settled(s) && LockInv(s)
    ensures s.lock == None
  {
    SettledBeat(s);
    if s.lock.Some? && s.lock.value.Thread? {
      SettledThread(s, s.lock.value.i);
    }
  }

  /** The winner either handed its completion to the completer or saw that the lease was lost. */
  ghost predicate Resolved(s: State) {
    forall i :: AtEnd(s, i) ==> LostTested(i, true) in s.history || SentBy(s.history, i)
  }

  ghost predicate SentBy(h: seq<Event>, i: nat) {
    exists r :: CompletionEnd(i, r) in h
  }

  /** Thread i has just been resolved: by its test of lost, or by the end of its send. */
  ghost predicate Resolving(s: State, step: Step, i: nat)
    requires Enabled(s, step)
  {
    match EventOf(s, step)
    case Some(LostTested(k, seen)) => k == i && seen
    case Some(CompletionEnd(k, _)) => k == i
    case _ => false
  }

  ghost predicate AtEnd(s: State, i: nat) {
    i < |s.threads| && (s.threads[i].pc.Closing? || s.threads[i].pc == Finished(true))
  }

  lemma EndsByLocking(s: State, step: Step, i: nat)
    requires Enabled(s, step) && AtEnd(Next(s, step), i)
    requires step.TestDone? || step.Acquire? || step.Test? || step.Claim? || step.Record? || step.Release?
    ensures AtEnd(s, i)
  {
  }

  lemma EndsBySending(s: State, step: Step, i: nat)
    requires Enabled(s, step) && AtEnd(Next(s, step), i)
    requires step.SetStop? || step.TestLost? || step.Send? || step.SendReply? || step.MarkLost?
    ensures AtEnd(s, i) || Resolving(s, step, i)
  {
  }

  lemma EndsOutside(s: State, step: Step, i: nat)
    requires Enabled(s, step) && AtEnd(Next(s, step), i)
    requires step.HandlerEnds? || step.TerminateArrives? || step.CloseToken?
    ensures AtEnd(s, i)
  {
  }

  lemma BeatKeepsThreads(s: State, step: Step)
    requires Enabled(s, step) && step.IsBeat()
    ensures Next(s, step).threads == s.threads
  {
  }

  lemma EndsBy(s: State, step: Step, i: nat)
    requires Enabled(s, step) && AtEnd(Next(s, step), i)
    ensures AtEnd(s, i) || Resolving(s, step, i)
  {
    match step
    case TestDone(_) | Acquire(_) | Test(_) | Claim(_) | Record(_) | Release(_) => EndsByLocking(s, step, i);
    case SetStop(_) | TestLost(_) | Send(_) | SendReply(_, _) | MarkLost(_) => EndsBySending(s, step, i);
    case HandlerEnds(_) | TerminateArrives | CloseToken => EndsOutside(s, step, i);
    case _ => BeatKeepsThreads(s, step);
  }

  lemma ResolvedAppend(h: seq<Event>, e: Event, i: nat)
    requires LostTested(i, true) in h || SentBy(h, i) || e == LostTested(i, true) || (e.CompletionEnd? && e.i == i)
    ensures LostTested(i, true) in h + [e] || SentBy(h + [e], i)
  {
    assert (h + [e])[|h|] == e;
    if SentBy(h, i) {
      var r :| CompletionEnd(i, r) in h;
      assert CompletionEnd(i, r) in h + [e];
    } else if e.CompletionEnd? && e.i == i {
      assert CompletionEnd(i, e.reply) in h + [e];
    } else if LostTested(i, true) in h {
      var k :| 0 <= k < |h| && h[k] == LostTested(i, true);
      assert (h + [e])[k] == LostTested(i, true);
    }
  }

  lemma ResolvedStep(s: State, step: Step)
    requires Resolved(s) && Enabled(s, step)
    ensures Resolved(Next(s, step))
  {
    HistoryGrows(s, step);
    forall i | AtEnd(Next(s, step), i)
      ensures LostTested(i, true) in Next(s, step).history || SentBy(Next(s, step).history, i)
    {
      EndsBy(s, step, i);
      if EventOf(s, step).Some? {
        ResolvedAppend(s.history, EventOf(s, step).value, i);
      }
    }
  }

  lemma {:induction false} ResolvedRun(s: State, steps: seq<Step>)
    requires Resolved(s) && Runs(s, steps)
    ensures Resolved(Exec(s, steps))
    decreases |steps|
  {
    if |steps| > 0 {
      ResolvedStep(s, steps[0]);
      ResolvedRun(Next(s, steps[0]), steps[1..]);
    }
  }

  lemma ReachableResolved(s: State)
    requires Reachable(s)
    ensures Resolved(s)
  {
    var beats, steps :| Runs(Init(beats), steps) && Exec(Init(beats), steps) == s;
    ResolvedRun(Init(beats), steps);
  }

  /** The lease is over: done and _stop set, the lock free, the heartbeat thread gone, and the winning outcome handed
      to the completer unless the lease was lost. */
  ghost predicate LeaseOver(s: State) {
    && s.done && s.stop && s.lock == None
    && (s.beat.Absent? || s.beat.Exited?)
    && s.winner.Some? && (LostTested(s.winner.value, true) in s.history || SentBy(s.history, s.winner.value))
  }

  /** The only threads a settled run leaves unfinished are a handler still at work and one that died. */
  lemma SettledThreads(s: State)
    requires Reachable(s) && Settled(s)
    ensures forall i :: 0 < i < |s.threads| ==> s.threads[i].pc.Finished?
    ensures |s.threads| > 0 && match s.ended
            case None => s.threads[0].pc.Running?
            case Some(e) => if e.Escapes? then s.threads[0].pc.Dead? else s.threads[0].pc.Finished?
  {
    ReachableInv(s);
    SettledLockFree(s);
    forall i | 0 <= i < |s.threads|
      ensures s.threads[i].pc.Finished? || s.threads[i].pc.Dead? || (i == 0 && s.threads[i].pc.Running?)
    {
      SettledThread(s, i);
    }
  }

  /** Once some thread got as far as _deliver, a settled run has completed the lease, and every thread has finished but
      for a handler still at work or dead. */
  lemma SettledMeansCompleted(s: State)
    requires Reachable(s) && Settled(s) && Triggered(s)
    ensures LeaseOver(s)
    ensures forall i :: 0 <= i < |s.threads| ==>
              s.threads[i].pc.Finished? || (i == 0 && (s.threads[i].pc.Running? || s.threads[i].pc.Dead?))
  {
    ReachableInv(s);
    ReachableResolved(s);
    SettledLockFree(s);
    SettledBeat(s);
    SettledThreads(s);
    assert s.done;
    assert s.threads[s.winner.value].pc.Won();
    assert s.threads[s.winner.value].pc.PastStop();
    assert AtEnd(s, s.winner.value);
  }

  lemma WinnerTriggers(s: State)
    requires WinnerInv(s) && PayloadInv(s) && s.winner.Some?
    ensures Triggered(s)
  {
    assert s.threads[s.winner.value].pc.Won();
  }

  /** Without such a thread nothing is ever completed: done stays unset, no completion is sent, and the heartbeat
      thread goes on unless it found the token closed. */
  lemma UntriggeredMeansNothingDone(s: State)
    requires Reachable(s) && !Triggered(s)
    ensures !s.done && s.error == None && s.winner == None
    ensures s.stop ==> s.beat.Exited?
    ensures forall k :: 0 <= k < |s.history| ==> !s.history[k].CompletionStart?
  {
    ReachableInv(s);
    if s.winner.Some? { WinnerTriggers(s); }
  }

  /** After the handler's end, a settled run has completed the lease if and only if the handler returned or raised an
      Exception, or a /terminate call came. */
  lemma SettledCompletedIff(s: State)
    requires Reachable(s) && Settled(s) && s.ended.Some?
    ensures LeaseOver(s) <==> !s.ended.value.Escapes? || |s.threads| > 1
  {
    SettledThreads(s);
    if !s.ended.value.Escapes? || |s.threads| > 1 {
      assert |s.threads| > 1 ==> s.threads[1].pc.Finished?;
      SettledMeansCompleted(s);
    } else {
      UntriggeredMeansNothingDone(s);
    }
  }

  const ONE_BEAT: seq<Step> := [BeatAcquire, BeatTest, BeatSend, BeatReply(Delivered)]
  const THEN_ESCAPE: seq<Step> := [BeatTally, BeatRelease, HandlerEnds(Escapes)]
  const BEATEN := [BeatStart, BeatEnd(Delivered)]

  /** The first heartbeat has been sent and not yet counted. */
  const IN_BEAT := State(Some(Beat), false, false, false, None, 0, Counting, [Deliverer(Running, Completed(0))],
                         None, true, None, BEATEN)

  /** The worker thread is dead, and the heartbeat thread waits for its next turn. */
  const ESCAPED := State(None, false, false, false, None, 1, Waiting, [Deliverer(Dead, Completed(0))],
                         Some(Escapes), true, None, BEATEN)

  lemma BeatOnce()
    ensures Runs(Init(true), ONE_BEAT) && Exec(Init(true), ONE_BEAT) == IN_BEAT
  {
  }

  lemma EscapeAfterBeat()
    ensures Runs(IN_BEAT, THEN_ESCAPE) && Exec(IN_BEAT, THEN_ESCAPE) == ESCAPED
  {
  }

  lemma EscapedIsReachable()
    ensures Reachable(ESCAPED)
  {
    BeatOnce();
    EscapeAfterBeat();
    RunsAppend(Init(true), ONE_BEAT, THEN_ESCAPE);
  }

  lemma EscapedIsSettled()
    ensures Settled(ESCAPED) && Enabled(ESCAPED, BeatTimeout)
  {
  }

  /** The case is real: a handler that ends with, say, SystemExit leaves a run that can go no further but to wake up
      for the next heartbeat, with nothing completed and the lease kept alive. */
  lemma EscapingHandlerKeepsLeaseAlive()
    ensures exists s :: Reachable(s) && Settled(s) && s.ended == Some(Escapes) && !LeaseOver(s) && s.open &&
                        Enabled(s, BeatTimeout)
  {
    EscapedIsReachable();
    EscapedIsSettled();
    var s := ESCAPED;
    assert s.ended == Some(Escapes) && !LeaseOver(s) && s.open;
  }

  /** A run that nobody disturbs any more cannot be stuck short of settling: as long as the state is
      not settled some program step can be taken, and only boundedly many can. */
  lemma {:induction false} CanSettle(s: State) returns (steps: seq<Step>)
    ensures Runs(s, steps) && Settled(Exec(s, steps))
    ensures ProgramSteps(steps) == |steps| <= Measure(s)
    decreases Measure(s)
  {
    if Settled(s) {
      steps := [];
    } else {
      var step: Step :| step.IsProgram() && Enabled(s, step);
      StepLowersMeasure(s, step);
      var rest := CanSettle(Next(s, step));
      steps := [step] + rest;
      assert steps[1..] == rest;
    }
  }
}
