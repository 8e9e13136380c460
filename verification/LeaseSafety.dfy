/** What holds in every run of the lease runtime, for any interleaving and any orchestrator. */
module LeaseSafety {
  import opened Common
  import opened LeaseRuntime

  /** s is reached by some run from the start of a lease. */
  ghost predicate Reachable(s: State) {
    exists beats, steps :: Runs(Init(beats), steps) && Exec(Init(beats), steps) == s
  }

  lemma ReachableInv(s: State)
    requires Reachable(s)
    ensures Inv(s)
  {
    var beats, steps :| Runs(Init(beats), steps) && Exec(Init(beats), steps) == s;
    InitInv(beats);
    RunInv(Init(beats), steps);
  }

  /** The result or failure of at most one thread is sent, at most once; it is the payload that
      set done, and the error shown by status() is exactly that payload's error. */
  lemma AtMostOneCompletionSent(s: State)
    requires Reachable(s)
    ensures forall j, k ::
              0 <= j < |s.history| && 0 <= k < |s.history| ==>
              s.history[j].CompletionStart? && s.history[k].CompletionStart? ==> j == k
    ensures forall k :: 0 <= k < |s.history| && s.history[k].CompletionStart? ==>
              && s.done && s.winner == Some(s.history[k].i)
              && s.error == s.history[k].payload.ErrorOf()
              && (s.error == None <==> s.history[k].payload.Completed?)
  {
    ReachableInv(s);
  }

  /** Whoever wins, the error is that of the winner's own outcome, from the moment the lock is
      released: the handler's if thread 0 won, Terminated if a /terminate call did. */
  lemma ErrorIsTheWinners(s: State)
    requires Reachable(s) && s.winner.Some? && !AtPc(s, s.winner.value, Recording)
    ensures s.winner == Some(0) ==>
            s.ended.Some? && !s.ended.value.Escapes? && s.error == HandlerPayload(s.ended.value).ErrorOf()
    ensures s.winner != Some(0) ==> s.error == Some(TERMINATED)
    ensures s.error == None <==> s.winner == Some(0) && s.ended.value.Returns?
  {
    ReachableInv(s);
  }

  /** No heartbeat send is in progress once done is set; none starts or ends afterwards, so none
      overlaps or follows the completion; and the counter is the number that returned normally. */
  lemma HeartbeatsStopAtDone(s: State)
    requires Reachable(s)
    ensures s.done ==> s.beat != Sending && s.beat != Starting
    ensures forall j, k :: 0 <= j < k < |s.history| && s.history[j].Claimed? ==> !s.history[k].IsBeat()
    ensures forall j, k :: 0 <= j < k < |s.history| && s.history[j].CompletionStart? ==> !s.history[k].IsBeat()
    ensures forall k :: 0 <= k < |s.history| && s.history[k].Claimed? ==> OpenBeats(s.history[..k]) == 0
    ensures s.beat != Counting ==> s.heartbeats == BeatCount(s.history)
  {
    var beats, steps :| Runs(Init(beats), steps) && Exec(Init(beats), steps) == s;
    InitInv(beats);
    RunInv(Init(beats), steps);
    StartsAfterClaim(Init(beats), steps);
  }

  /** Every completion send is preceded by the setting of done. */
  ghost predicate ClaimBeforeStart(h: seq<Event>) {
    forall k :: 0 <= k < |h| && h[k].CompletionStart? ==> exists j :: 0 <= j < k && h[j] == Claimed(h[k].i)
  }

  ghost predicate WinnerClaimed(s: State) {
    s.winner.Some? ==> Claimed(s.winner.value) in s.history
  }

  /** What a step means for the winner and for the events of a delivery. */
  lemma WinnerAfter(s: State, step: Step)
    requires Enabled(s, step)
    ensures Next(s, step).winner == if step.Claim? then Some(step.i) else s.winner
    ensures step.Claim? ==> EventOf(s, step) == Some(Claimed(step.i))
    ensures EventOf(s, step).Some? && EventOf(s, step).value.CompletionStart? ==>
            step.Send? && EventOf(s, step).value.i == step.i
  {
  }

  lemma ClaimStartAppend(h: seq<Event>, e: Event)
    requires ClaimBeforeStart(h) && (e.CompletionStart? ==> Claimed(e.i) in h)
    ensures ClaimBeforeStart(h + [e])
  {
    var g := h + [e];
    forall k | 0 <= k < |g| && g[k].CompletionStart?
      ensures exists j :: 0 <= j < k && g[j] == Claimed(g[k].i)
    {
      if k < |h| {
        var j :| 0 <= j < k && h[j] == Claimed(h[k].i);
        assert g[j] == Claimed(g[k].i);
      } else {
        var j :| 0 <= j < |h| && h[j] == Claimed(e.i);
        assert g[j] == Claimed(g[k].i);
      }
    }
  }

  lemma SenderIsWinner(s: State, step: Step)
    requires WinnerInv(s) && Enabled(s, step) && step.Send?
    ensures s.winner == Some(step.i)
  {
  }

  lemma ClaimStartStep(s: State, step: Step)
    requires WinnerInv(s) && ClaimBeforeStart(s.history) && WinnerClaimed(s) && Enabled(s, step)
    ensures ClaimBeforeStart(Next(s, step).history) && WinnerClaimed(Next(s, step))
  {
    HistoryGrows(s, step);
    WinnerAfter(s, step);
    if step.Send? {
      SenderIsWinner(s, step);
    }
    if EventOf(s, step).Some? {
      var e := EventOf(s, step).value;
      ClaimStartAppend(s.history, e);
      assert (s.history + [e])[|s.history|] == e;
      assert forall f :: f in s.history ==> f in s.history + [e];
    }
  }

  lemma {:induction false} StartsAfterClaim(s: State, steps: seq<Step>)
    requires Inv(s) && ClaimBeforeStart(s.history) && WinnerClaimed(s) && Runs(s, steps)
    ensures ClaimBeforeStart(Exec(s, steps).history)
    decreases |steps|
  {
    if |steps| > 0 {
      StepInv(s, steps[0]);
      ClaimStartStep(s, steps[0]);
      StartsAfterClaim(Next(s, steps[0]), steps[1..]);
    }
  }

  /** lost, done and stop are never unset, and a closed token stays closed. */
  ghost predicate FlagsGrow(s: State, t: State) {
    (s.lost ==> t.lost) && (s.done ==> t.done) && (s.stop ==> t.stop) && (t.open ==> s.open)
  }

  lemma FlagsGrowStep(s: State, step: Step)
    requires Enabled(s, step)
    ensures FlagsGrow(s, Next(s, step))
  {
  }

  lemma {:induction false} FlagsNeverRevert(s: State, steps: seq<Step>)
    requires Runs(s, steps)
    ensures FlagsGrow(s, Exec(s, steps))
    decreases |steps|
  {
    if |steps| > 0 {
      FlagsGrowStep(s, steps[0]);
      FlagsNeverRevert(Next(s, steps[0]), steps[1..]);
    }
  }

  /** If lost was marked before the winner tested it, no completion is ever sent; and an outcome
      that is check()'s own LeaseLost is never sent at all. */
  lemma LostBeforeTestMeansNothingSent(s: State, j: nat, k: nat)
    requires Reachable(s) && j < k < |s.history|
    requires s.history[j].LostMarked? && s.history[k].LostTested?
    ensures forall m :: 0 <= m < |s.history| ==> !s.history[m].CompletionStart?
  {
    ReachableInv(s);
  }

  lemma LeaseLostIsNeverSent(s: State)
    requires Reachable(s) && s.ended == Some(ChecksLost) && s.winner == Some(0)
    ensures forall m :: 0 <= m < |s.history| ==> !s.history[m].CompletionStart?
  {
    ReachableInv(s);
  }

  lemma {:induction false} RunsAppend(s: State, a: seq<Step>, b: seq<Step>)
    requires Runs(s, a) && Runs(Exec(s, a), b)
    ensures Runs(s, a + b) && Exec(s, a + b) == Exec(Exec(s, a), b)
    decreases |a|
  {
    if |a| == 0 {
      assert a + b == b;
    } else {
      RunsAppend(Next(s, a[0]), a[1..], b);
      assert (a + b)[0] == a[0] && (a + b)[1..] == a[1..] + b;
    }
  }

  const REFUSED_BEAT: seq<Event> := [BeatStart, TokenClosed, BeatEnd(Refused)]

  const FIRST_BEAT: seq<Step> := [BeatAcquire, BeatTest, BeatSend]
  const BEAT_REFUSED: seq<Step> := [CloseToken, BeatReply(Refused), BeatRelease]
  const CLAIM: seq<Step> := [HandlerEnds(Returns(1)), Acquire(0), Test(0), Claim(0)]
  const SETTLE: seq<Step> := [Record(0), Release(0), SetStop(0), TestLost(0)]
  const SEND: seq<Step> := [BeatMarkLost, Send(0)]

  lemma RaceFirstBeat()
    ensures Runs(Init(true), FIRST_BEAT) &&
            Exec(Init(true), FIRST_BEAT) ==
            State(Some(Beat), false, false, false, None, 0, Sending, [Deliverer(Running, Completed(0))], None, true,
                None, [BeatStart])
  {
  }

  lemma RaceRefused(s: State)
    requires s == State(Some(Beat), false, false, false, None, 0, Sending, [Deliverer(Running, Completed(0))], None,
             true, None, [BeatStart])
    ensures Runs(s, BEAT_REFUSED) &&
            Exec(s, BEAT_REFUSED) == State(None, false, false, false, None, 0, MarkingLost,
                [Deliverer(Running, Completed(0))],
                                           None, false, None, REFUSED_BEAT)
  {
  }

  lemma RaceClaim(s: State)
    requires s == State(None, false, false, false, None, 0, MarkingLost, [Deliverer(Running, Completed(0))],
                        None, false, None, REFUSED_BEAT)
    ensures Runs(s, CLAIM) &&
            Exec(s, CLAIM) == State(Some(Thread(0)), true, false, false, None, 0, MarkingLost,
                [Deliverer(Recording, Completed(1))],
                                Some(Returns(1)), false, Some(0), REFUSED_BEAT + [Claimed(0)])
  {
    assert Next(Next(s, HandlerEnds(Returns(1))), Acquire(0)).threads == [Deliverer(Probing, Completed(1))];
  }

  lemma RaceSettle(s: State)
    requires s == State(Some(Thread(0)), true, false, false, None, 0, MarkingLost, [Deliverer(Recording, Completed(1))],
                        Some(Returns(1)), false, Some(0), REFUSED_BEAT + [Claimed(0)])
    ensures Runs(s, SETTLE) &&
            Exec(s, SETTLE) == State(None, true, false, true, None, 0, MarkingLost, [Deliverer(Ready, Completed(1))],
                                Some(Returns(1)), false, Some(0), REFUSED_BEAT + [Claimed(0)] + [LostTested(0, false)])
  {
    assert Next(Next(s, Record(0)), Release(0)).threads == [Deliverer(Stopping, Completed(1))];
  }

  lemma RaceSend(s: State)
    requires s == State(None, true, false, true, None, 0, MarkingLost, [Deliverer(Ready, Completed(1))],
                        Some(Returns(1)), false, Some(0), REFUSED_BEAT + [Claimed(0)] + [LostTested(0, false)])
    ensures Runs(s, SEND) && Exec(s, SEND).history == s.history + [LostMarked] + [CompletionStart(0, Completed(1))]
  {
  }

  lemma RaceEnd(s: State) returns (t: State)
    requires s == State(Some(Thread(0)), true, false, false, None, 0, MarkingLost, [Deliverer(Recording, Completed(1))],
                        Some(Returns(1)), false, Some(0), REFUSED_BEAT + [Claimed(0)])
    ensures Runs(s, SETTLE + SEND) && Exec(s, SETTLE + SEND) == t
    ensures t.history == REFUSED_BEAT + [Claimed(0)] + [LostTested(0, false)] + [LostMarked]
            + [CompletionStart(0, Completed(1))]
  {
    RaceSettle(s);
    var u := Exec(s, SETTLE);
    RaceSend(u);
    RunsAppend(s, SETTLE, SEND);
    t := Exec(u, SEND);
  }

  /** The start of the race: the first heartbeat is refused, and the handler's result claims the lease. */
  lemma RaceStart() returns (steps: seq<Step>, s: State)
    ensures Runs(Init(true), steps) && Exec(Init(true), steps) == s
    ensures s == State(Some(Thread(0)), true, false, false, None, 0, MarkingLost, [Deliverer(Recording, Completed(1))],
                       Some(Returns(1)), false, Some(0), REFUSED_BEAT + [Claimed(0)])
  {
    RaceFirstBeat();
    var s1 := Exec(Init(true), FIRST_BEAT);
    RaceRefused(s1);
    var s2 := Exec(s1, BEAT_REFUSED);
    RaceClaim(s2);
    RunsAppend(s1, BEAT_REFUSED, CLAIM);
    RunsAppend(Init(true), FIRST_BEAT, BEAT_REFUSED + CLAIM);
    steps, s := FIRST_BEAT + (BEAT_REFUSED + CLAIM), Exec(s2, CLAIM);
  }

  /** The converse race is real: when lost is marked only after the winner's test, the completion
      is still sent. */
  lemma LostAfterTestStillSends()
    ensures exists s, j, k ::
            Reachable(s) && 0 <= j < k < |s.history| && s.history[j].LostMarked? && s.history[k].CompletionStart?
  {
    var steps, s := RaceStart();
    var t := RaceEnd(s);
    RunsAppend(Init(true), steps, SETTLE + SEND);
    assert Reachable(t);
    assert t.history[5].LostMarked? && t.history[6].CompletionStart?;
  }

  /** Nothing is accepted by an orchestrator that has closed the token. */
  lemma NothingAcceptedAfterClosing(s: State, j: nat, k: nat)
    requires Reachable(s) && j < k < |s.history| && s.history[j].TokenClosed?
    ensures s.history[k].BeatEnd? || s.history[k].CompletionEnd? ==> !s.history[k].reply.Accepted()
  {
    ReachableInv(s);
  }
}
