/**
 The in-VM lease runtime of microvm/hooks/server.py as a state machine.

 The threads are the lease worker (deliverer 0), the heartbeat thread and any number of
 /terminate calls (deliverers 1, 2, ...). Every access to a shared variable, every lock
 acquire or release and every send start or end is one step, and a run is any
 interleaving of enabled steps. The orchestrator may close the lease token at any moment.
 */
module LeaseRuntime {
  import opened Common

  // ---------------------------------------------------------------- data

  datatype Error = Error(errorType: string, message: string, retryable: bool)

  /** What a completion carries: a result, or the structured error of a failure. */
  datatype Payload = Completed(result: int) | Failed(error: Error) {
    function ErrorOf(): Option<Error> {
      if Failed? then Some(error) else None
    }
  }

  /** How the on_lease handler may end. ChecksLost is LeaseContext.check() raising LeaseLost; Escapes is an
      exception outside Exception, such as SystemExit, which _run_lease does not catch. */
  datatype HandlerEnd =
    | Returns(result: int)
    | RaisesTyped(error: Error)
    | RaisesOther(text: string)
    | ChecksLost
    | Escapes

  const LEASE_LOST := Error("LeaseLost", "lease lost: the orchestrator stopped waiting", false)
  const TERMINATED := Error("Terminated", "microVM terminated before the task finished", true)

  function HandlerPayload(e: HandlerEnd): Payload
    requires !e.Escapes?
  {
    match e
    case Returns(r) => Completed(r)
    case RaisesTyped(err) => Failed(err)
    case RaisesOther(text) => Failed(Error("Unexpected", text, false))
    case ChecksLost => Failed(LEASE_LOST)
  }

  /** How one completer.send ends: normally, with _TokenClosed, or with another exception,
      which may hide a message the orchestrator did take. */
  datatype Reply = Delivered | Refused | Broken(taken: bool) {
    predicate Accepted() { Delivered? || (Broken? && taken) }
  }

  datatype Owner = Beat | Thread(i: nat)

  datatype BeatPc =
    | Absent        // the kind has nothing to heartbeat against
    | Acquiring     // at `with ctx._lock`
    | Testing       // holds the lock, at `if ctx.done`
    | Starting      // holds the lock, about to send
    | Sending       // holds the lock, the send is in progress
    | Counting      // holds the lock, the send returned normally
    | Releasing(after: AfterBeat)
    | Waiting       // at `ctx._stop.wait(interval)`
    | MarkingLost
    | MarkingStop
    | Exited
  {
    predicate Holds() { Testing? || Starting? || Sending? || Counting? || Releasing? }
  }

  datatype AfterBeat = ToWait | ToLost | ToExit

  datatype DeliverPc =
    | Running                // handler at work, or /terminate before its unlocked test of done
    | Entering               // at `with ctx._lock` of _deliver
    | Probing                // holds the lock, at `if ctx.done`
    | Claiming               // holds the lock, about to set done
    | Recording              // holds the lock, about to set error
    | Leaving(won: bool)     // holds the lock, about to release it
    | Stopping               // about to set _stop
    | Checking               // about to test lost
    | Ready                  // about to call completer.send
    | InFlight               // completer.send in progress
    | Closing                // the send found the token closed, about to set lost
    | Finished(won: bool)
    | Dead                   // an exception escaped the handler and ended the worker thread
  {
    predicate Holds() { Probing? || Claiming? || Recording? || Leaving? }

    /** The thread found done unset and set it. */
    predicate Won() {
      Recording? || (Leaving? && won) || Stopping? || Checking? || Ready? || InFlight? || Closing? || (Finished? && won)
    }

    predicate PastStop() { Checking? || Ready? || InFlight? || Closing? || (Finished? && won) }

    predicate PastStart() { InFlight? || Closing? || (Finished? && won) }
  }

  datatype Deliverer = Deliverer(pc: DeliverPc, payload: Payload)

  /** History of the observable events, in order. */
  datatype Event =
    | BeatStart
    | BeatEnd(reply: Reply)
    | Claimed(i: nat)
    | LostMarked
    | LostTested(i: nat, seen: bool)
    | CompletionStart(i: nat, payload: Payload)
    | CompletionEnd(i: nat, reply: Reply)
    | TokenClosed
  {
    predicate IsBeat() { BeatStart? || BeatEnd? }
  }

  datatype State = State(
    lock: Option<Owner>, done: bool, lost: bool, stop: bool, error: Option<Error>, heartbeats: nat,
    beat: BeatPc, threads: seq<Deliverer>, ended: Option<HandlerEnd>, open: bool,
    winner: Option<nat>, history: seq<Event>)

  datatype Step =
    // the heartbeat thread, in _heartbeat_loop
    | BeatAcquire | BeatTest | BeatSend | BeatReply(reply: Reply) | BeatTally | BeatRelease
    | BeatTimeout | BeatStopped | BeatMarkLost | BeatMarkStop
    // thread i in _terminate_lease (TestDone) and _deliver
    | TestDone(i: nat) | Acquire(i: nat) | Test(i: nat) | Claim(i: nat) | Record(i: nat) | Release(i: nat)
    | SetStop(i: nat) | TestLost(i: nat) | Send(i: nat) | SendReply(i: nat, reply: Reply) | MarkLost(i: nat)
    // the handler, the platform and the orchestrator
    | HandlerEnds(end: HandlerEnd) | TerminateArrives | CloseToken
  {
    predicate IsBeat() {
      BeatAcquire? || BeatTest? || BeatSend? || BeatReply? || BeatTally? || BeatRelease? || BeatTimeout? ||
      BeatStopped? ||
      BeatMarkLost? || BeatMarkStop?
    }

    /** A step of the runtime's own threads, which a scheduler owes them. */
    predicate IsProgram() {
      !BeatTimeout? && !HandlerEnds? && !TerminateArrives? && !CloseToken?
    }
  }

  /** The state in which _maybe_start_lease hands over; `beats` is completer.heartbeats. */
  function Init(beats: bool): State {
    State(None, false, false, false, None, 0, if beats then Acquiring else Absent,
          [Deliverer(Running, Completed(0))], None, true, None, [])
  }

  // ---------------------------------------------------------------- steps

  predicate ReplyPossible(s: State, r: Reply) {
    && (r.Accepted() ==> s.open)
    && (r.Refused? ==> !s.open)
  }

  /** Thread i is at program counter pc. */
  predicate AtPc(s: State, i: nat, pc: DeliverPc) {
    i < |s.threads| && s.threads[i].pc == pc
  }

  predicate Enabled(s: State, step: Step) {
    match step
    case BeatAcquire => s.beat == Acquiring && s.lock == None
    case BeatTest => s.beat == Testing
    case BeatSend => s.beat == Starting
    case BeatReply(r) => s.beat == Sending && ReplyPossible(s, r)
    case BeatTally => s.beat == Counting
    case BeatRelease => s.beat.Releasing?
    case BeatTimeout => s.beat == Waiting && !s.stop
    case BeatStopped => s.beat == Waiting && s.stop
    case BeatMarkLost => s.beat == MarkingLost
    case BeatMarkStop => s.beat == MarkingStop
    case TestDone(i) => i > 0 && AtPc(s, i, Running)
    case Acquire(i) => AtPc(s, i, Entering) && s.lock == None
    case Test(i) => AtPc(s, i, Probing)
    case Claim(i) => AtPc(s, i, Claiming)
    case Record(i) => AtPc(s, i, Recording)
    case Release(i) => i < |s.threads| && s.threads[i].pc.Leaving?
    case SetStop(i) => AtPc(s, i, Stopping)
    case TestLost(i) => AtPc(s, i, Checking)
    case Send(i) => AtPc(s, i, Ready)
    case SendReply(i, r) => AtPc(s, i, InFlight) && ReplyPossible(s, r)
    case MarkLost(i) => AtPc(s, i, Closing)
    case HandlerEnds(e) => AtPc(s, 0, Running) && (e.ChecksLost? ==> s.lost)
    case TerminateArrives => true
    case CloseToken => s.open
  }

  function Log(s: State, e: Event): State {
    s.(history := s.history + [e])
  }

  /** Thread i moves on to pc. */
  function Go(s: State, i: nat, pc: DeliverPc): State
    requires i < |s.threads|
  {
    s.(threads := s.threads[i := s.threads[i].(pc := pc)])
  }

  /** The heartbeat thread's steps. */
  function BeatNext(s: State, step: Step): State
    requires step.IsBeat() && Enabled(s, step)
  {
    match step
    case BeatAcquire => s.(lock := Some(Beat), beat := Testing)
    case BeatTest => s.(beat := if s.done then Releasing(ToExit) else Starting)
    case BeatSend => Log(s.(beat := Sending), BeatStart)
    case BeatReply(r) =>
      Log(s.(beat := if r.Delivered? then Counting else if r.Refused? then Releasing(ToLost) else Releasing(ToWait)),
          BeatEnd(r))
    case BeatTally => s.(heartbeats := s.heartbeats + 1, beat := Releasing(ToWait))
    case BeatRelease =>
      var next := if s.beat.after.ToWait? then Waiting else if s.beat.after.ToLost? then MarkingLost else Exited;
      s.(lock := None, beat := next)
    case BeatTimeout => s.(beat := Acquiring)
    case BeatStopped => s.(beat := Exited)
    case BeatMarkLost => Log(s.(lost := true, beat := MarkingStop), LostMarked)
    case BeatMarkStop => s.(stop := true, beat := Exited)
  }

  // The steps of thread i in _terminate_lease and _deliver.

  function AfterTestDone(s: State, i: nat): State
    requires AtPc(s, i, Running)
  {
    Go(s, i, if s.done then Finished(false) else Entering)
  }

  function AfterAcquire(s: State, i: nat): State
    requires AtPc(s, i, Entering)
  {
    Go(s.(lock := Some(Thread(i))), i, Probing)
  }

  function AfterTest(s: State, i: nat): State
    requires AtPc(s, i, Probing)
  {
    Go(s, i, if s.done then Leaving(false) else Claiming)
  }

  function AfterClaim(s: State, i: nat): State
    requires AtPc(s, i, Claiming)
  {
    Log(Go(s.(done := true, winner := Some(i)), i, Recording), Claimed(i))
  }

  function AfterRecord(s: State, i: nat): State
    requires AtPc(s, i, Recording)
  {
    Go(s.(error := s.threads[i].payload.ErrorOf()), i, Leaving(true))
  }

  function AfterRelease(s: State, i: nat): State
    requires i < |s.threads| && s.threads[i].pc.Leaving?
  {
    Go(s.(lock := None), i, if s.threads[i].pc.won then Stopping else Finished(false))
  }

  function AfterSetStop(s: State, i: nat): State
    requires AtPc(s, i, Stopping)
  {
    Go(s.(stop := true), i, Checking)
  }

  function AfterTestLost(s: State, i: nat): State
    requires AtPc(s, i, Checking)
  {
    Log(Go(s, i, if s.lost then Finished(true) else Ready), LostTested(i, s.lost))
  }

  function AfterSend(s: State, i: nat): State
    requires AtPc(s, i, Ready)
  {
    Log(Go(s, i, InFlight), CompletionStart(i, s.threads[i].payload))
  }

  function AfterReply(s: State, i: nat, r: Reply): State
    requires AtPc(s, i, InFlight)
  {
    Log(Go(s, i, if r.Refused? then Closing else Finished(true)), CompletionEnd(i, r))
  }

  function AfterMarkLost(s: State, i: nat): State
    requires AtPc(s, i, Closing)
  {
    Log(Go(s.(lost := true), i, Finished(true)), LostMarked)
  }

  // The handler, the platform and the orchestrator.

  function AfterHandler(s: State, e: HandlerEnd): State
    requires AtPc(s, 0, Running)
  {
    if e.Escapes? then Go(s.(ended := Some(e)), 0, Dead)
    else s.(ended := Some(e), threads := s.threads[0 := Deliverer(Entering, HandlerPayload(e))])
  }

  function AfterArrival(s: State): State { s.(threads := s.threads + [Deliverer(Running, Failed(TERMINATED))]) }

  function AfterClose(s: State): State { Log(s.(open := false), TokenClosed) }

  function Next(s: State, step: Step): State
    requires Enabled(s, step)
  {
    match step
    case TestDone(i) => AfterTestDone(s, i)
    case Acquire(i) => AfterAcquire(s, i)
    case Test(i) => AfterTest(s, i)
    case Claim(i) => AfterClaim(s, i)
    case Record(i) => AfterRecord(s, i)
    case Release(i) => AfterRelease(s, i)
    case SetStop(i) => AfterSetStop(s, i)
    case TestLost(i) => AfterTestLost(s, i)
    case Send(i) => AfterSend(s, i)
    case SendReply(i, r) => AfterReply(s, i, r)
    case MarkLost(i) => AfterMarkLost(s, i)
    case HandlerEnds(e) => AfterHandler(s, e)
    case TerminateArrives => AfterArrival(s)
    case CloseToken => AfterClose(s)
    case _ => BeatNext(s, step)
  }

  /** `steps` is a run from s: each step is enabled where it is taken. */
  predicate Runs(s: State, steps: seq<Step>)
    decreases |steps|
  {
    |steps| == 0 || (Enabled(s, steps[0]) && Runs(Next(s, steps[0]), steps[1..]))
  }

  function Exec(s: State, steps: seq<Step>): State
    requires Runs(s, steps)
    decreases |steps|
  {
    if |steps| == 0 then s else Exec(Next(s, steps[0]), steps[1..])
  }

  // ---------------------------------------------------------------- the invariant

  /** Mutual exclusion: a thread is inside the critical section exactly when it owns the lock. */
  ghost predicate LockInv(s: State) {
    && (s.lock == Some(Beat) <==> s.beat.Holds())
    && (forall i: nat :: s.lock == Some(Thread(i)) <==> i < |s.threads| && s.threads[i].pc.Holds())
  }

  /** There is a winner exactly when done is set, it is unique, and error is its payload's error. */
  ghost predicate WinnerInv(s: State) {
    && |s.threads| > 0
    && (s.done <==> s.winner.Some?)
    && (forall i :: 0 <= i < |s.threads| ==> (s.threads[i].pc.Won() <==> s.winner == Some(i)))
    && (s.winner.Some? ==> s.winner.value < |s.threads|)
    && (s.winner.None? ==> s.error == None)
    && (s.winner.Some? ==>
          var w := s.threads[s.winner.value];
          s.error == if w.pc.Recording? then None else w.payload.ErrorOf())
  }

  /** done is still unset wherever a thread inside the critical section relies on it. */
  ghost predicate ClaimInv(s: State) {
    && (s.beat.Starting? || s.beat.Sending? || s.beat.Counting? ==> !s.done)
    && (forall i :: 0 <= i < |s.threads| && s.threads[i].pc.Claiming? ==> !s.done)
    && (forall i ::
         0 <= i < |s.threads| && (s.threads[i].pc == Leaving(false) || s.threads[i].pc == Finished(false)) ==> s.done)
  }

  ghost predicate StopInv(s: State) {
    && (s.winner.Some? && s.winner.value < |s.threads| && s.threads[s.winner.value].pc.PastStop() ==> s.stop)
    && (s.beat.Exited? || s.beat == Releasing(ToExit) ==> s.stop || s.done)
    && (s.stop ==> s.done || s.beat.Exited?)
  }

  /** Which payload each thread would deliver. */
  ghost predicate PayloadInv(s: State) {
    && |s.threads| > 0
    && (s.threads[0].pc.Running? <==> s.ended.None?)
    && (s.threads[0].pc.Dead? <==> s.ended == Some(Escapes))
    && (s.ended.Some? && !s.ended.value.Escapes? ==> s.threads[0].payload == HandlerPayload(s.ended.value))
    && (s.ended == Some(ChecksLost) ==> s.lost)
    && (forall i :: 1 <= i < |s.threads| ==> s.threads[i].payload == Failed(TERMINATED) && !s.threads[i].pc.Dead?)
  }

  function BeatCount(h: seq<Event>): nat {
    if |h| == 0 then 0
    else BeatCount(h[..|h| - 1]) + if h[|h| - 1] == BeatEnd(Delivered) then 1 else 0
  }

  function OpenBeats(h: seq<Event>): int {
    if |h| == 0 then 0
    else OpenBeats(h[..|h| - 1]) + (match h[|h| - 1] case BeatStart => 1 case BeatEnd(_) => -1 case _ => 0)
  }

  ghost predicate CountInv(s: State) {
    && BeatCount(s.history) == s.heartbeats + (if s.beat.Counting? then 1 else 0)
    && OpenBeats(s.history) == if s.beat.Sending? then 1 else 0
  }

  /** After done is set: no heartbeat send starts or ends, and done is not set again. */
  ghost predicate QuietAfterClaim(h: seq<Event>) {
    forall j, k :: 0 <= j < k < |h| && h[j].Claimed? ==> !h[k].IsBeat() && !h[k].Claimed?
  }

  /** When done is set, every heartbeat send that started has ended. */
  ghost predicate NoneInFlightAtClaim(h: seq<Event>) {
    forall k :: 0 <= k < |h| && h[k].Claimed? ==> OpenBeats(h[..k]) == 0
  }

  ghost predicate AtMostOneCompletion(h: seq<Event>) {
    forall j, k :: 0 <= j < k < |h| && h[j].CompletionStart? ==> !h[k].CompletionStart?
  }

  /** Nothing is accepted once the orchestrator has closed the token. */
  ghost predicate NothingAfterClose(h: seq<Event>) {
    forall j, k :: 0 <= j < k < |h| && h[j].TokenClosed? ==>
      !(h[k].BeatEnd? && h[k].reply.Accepted()) && !(h[k].CompletionEnd? && h[k].reply.Accepted())
  }

  /** A winner that tests lost after it was marked sees it. */
  ghost predicate TestSeesLost(h: seq<Event>) {
    forall j, k :: 0 <= j < k < |h| && h[j].LostMarked? && h[k].LostTested? ==> h[k].seen
  }

  ghost predicate Orderly(h: seq<Event>) {
    QuietAfterClaim(h) && NoneInFlightAtClaim(h) && AtMostOneCompletion(h) && NothingAfterClose(h) && TestSeesLost(h)
  }

  /** How the history determines the present state: the winner, lost and open flags. */
  ghost predicate FlagLink(s: State) {
    && (forall k :: 0 <= k < |s.history| && s.history[k].Claimed? ==> s.winner == Some(s.history[k].i))
    && (forall k :: 0 <= k < |s.history| && s.history[k].LostMarked? ==> s.lost)
    && (forall k :: 0 <= k < |s.history| && s.history[k].TokenClosed? ==> !s.open)
  }

  /** The winner that tested lost has passed the test, and saw it set only if it then gave up. */
  ghost predicate TestLink(s: State) {
    forall k :: 0 <= k < |s.history| && s.history[k].LostTested? ==>
      && s.history[k].i < |s.threads|
      && s.winner == Some(s.history[k].i)
      && (var pc := s.threads[s.history[k].i].pc;
          if s.history[k].seen then pc == Finished(true) else pc.Ready? || pc.PastStart())
  }

  /** A completion was started by the winner, with its own payload, and only if it did not see lost. */
  ghost predicate StartLink(s: State) {
    && (forall k :: 0 <= k < |s.history| && s.history[k].CompletionStart? ==>
          && s.history[k].i < |s.threads|
          && s.winner == Some(s.history[k].i)
          && s.threads[s.history[k].i].pc.PastStart()
          && s.history[k].payload == s.threads[s.history[k].i].payload)
    && (forall j, k ::
         0 <= j < |s.history| && 0 <= k < |s.history| && s.history[j].CompletionStart? && s.history[k].LostTested? ==>
          !s.history[k].seen)
  }

  /** A handler that ended because check() found the lease lost never gets to send. */
  ghost predicate LostHandlerLink(s: State) {
    s.ended == Some(ChecksLost) ==>
      && |s.threads| > 0
      && !s.threads[0].pc.Ready? && !s.threads[0].pc.InFlight? && !s.threads[0].pc.Closing?
      && (forall k :: 0 <= k < |s.history| && s.history[k].CompletionStart? ==> s.history[k].i != 0)
  }

  ghost predicate ControlInv(s: State) {
    LockInv(s) && WinnerInv(s) && ClaimInv(s) && StopInv(s) && PayloadInv(s)
  }

  ghost predicate LinkInv(s: State) {
    FlagLink(s) && TestLink(s) && StartLink(s) && LostHandlerLink(s)
  }

  ghost predicate Inv(s: State) {
    ControlInv(s) && LinkInv(s) && CountInv(s) && Orderly(s.history)
  }

  lemma InitInv(beats: bool)
    ensures Inv(Init(beats))
  {
  }

  // ---------------------------------------------------------------- every step keeps it

  lemma BeatLocksKeepsControl(s: State, step: Step)
    requires ControlInv(s) && Enabled(s, step) && (step.BeatAcquire? || step.BeatTest? || step.BeatRelease?)
    ensures ControlInv(BeatNext(s, step))
  {
  }

  lemma BeatLocksKeepsLinks(s: State, step: Step)
    requires LinkInv(s) && Enabled(s, step) && (step.BeatAcquire? || step.BeatTest? || step.BeatRelease?)
    ensures LinkInv(BeatNext(s, step))
  {
  }

  lemma BeatSendsKeepsControl(s: State, step: Step)
    requires ControlInv(s) && Enabled(s, step) && (step.BeatSend? || step.BeatReply? || step.BeatTally?)
    ensures ControlInv(BeatNext(s, step))
  {
  }

  /** Links speak of the threads and of the events of deliveries, which a heartbeat leaves alone. */
  lemma BeatEventKeepsLinks(s: State, t: State, e: Event)
    requires LinkInv(s) && e.IsBeat() && t.history == s.history + [e]
    requires t.winner == s.winner && t.lost == s.lost && t.open == s.open && t.threads == s.threads
             && t.ended == s.ended
    ensures LinkInv(t)
  {
  }

  lemma BeatSendsKeepsLinks(s: State, step: Step)
    requires LinkInv(s) && Enabled(s, step) && (step.BeatSend? || step.BeatReply? || step.BeatTally?)
    ensures LinkInv(BeatNext(s, step))
  {
    var t := BeatNext(s, step);
    if step.BeatSend? {
      BeatEventKeepsLinks(s, t, BeatStart);
    } else if step.BeatReply? {
      BeatEventKeepsLinks(s, t, BeatEnd(step.reply));
    }
  }

  lemma BeatRestsKeepsControl(s: State, step: Step)
    requires ControlInv(s) && Enabled(s, step)
             && (step.BeatTimeout? || step.BeatStopped? || step.BeatMarkLost? || step.BeatMarkStop?)
    ensures ControlInv(BeatNext(s, step))
  {
  }

  lemma LostMarkKeepsLinks(s: State, t: State)
    requires LinkInv(s) && t.history == s.history + [LostMarked] && t.lost
    requires t.winner == s.winner && t.open == s.open && t.threads == s.threads && t.ended == s.ended
    ensures LinkInv(t)
  {
  }

  lemma BeatRestsKeepsLinks(s: State, step: Step)
    requires LinkInv(s) && Enabled(s, step)
    requires step.BeatTimeout? || step.BeatStopped? || step.BeatMarkLost? || step.BeatMarkStop?
    ensures LinkInv(BeatNext(s, step))
  {
    if step.BeatMarkLost? {
      LostMarkKeepsLinks(s, BeatNext(s, step));
    }
  }

  lemma TestDoneKeepsControl(s: State, i: nat)
    requires ControlInv(s) && i > 0 && AtPc(s, i, Running)
    ensures ControlInv(AfterTestDone(s, i))
  {
  }

  lemma TestDoneKeepsLinks(s: State, i: nat)
    requires LinkInv(s) && WinnerInv(s) && ClaimInv(s) && PayloadInv(s) && i > 0 && AtPc(s, i, Running)
    ensures LinkInv(AfterTestDone(s, i))
  {
  }

  lemma AcquireKeepsControl(s: State, i: nat)
    requires ControlInv(s) && AtPc(s, i, Entering) && s.lock == None
    ensures ControlInv(AfterAcquire(s, i))
  {
  }

  lemma AcquireKeepsLinks(s: State, i: nat)
    requires LinkInv(s) && WinnerInv(s) && ClaimInv(s) && PayloadInv(s) && AtPc(s, i, Entering) && s.lock == None
    ensures LinkInv(AfterAcquire(s, i))
  {
  }

  lemma TestKeepsControl(s: State, i: nat)
    requires ControlInv(s) && AtPc(s, i, Probing)
    ensures ControlInv(AfterTest(s, i))
  {
  }

  lemma TestKeepsLinks(s: State, i: nat)
    requires LinkInv(s) && WinnerInv(s) && ClaimInv(s) && PayloadInv(s) && AtPc(s, i, Probing)
    ensures LinkInv(AfterTest(s, i))
  {
  }

  lemma ClaimKeepsControl(s: State, i: nat)
    requires ControlInv(s) && AtPc(s, i, Claiming)
    ensures ControlInv(AfterClaim(s, i))
  {
  }

  lemma ClaimKeepsLinks(s: State, i: nat)
    requires LinkInv(s) && WinnerInv(s) && ClaimInv(s) && PayloadInv(s) && AtPc(s, i, Claiming)
    ensures LinkInv(AfterClaim(s, i))
  {
  }

  lemma RecordKeepsControl(s: State, i: nat)
    requires ControlInv(s) && AtPc(s, i, Recording)
    ensures ControlInv(AfterRecord(s, i))
  {
  }

  lemma RecordKeepsLinks(s: State, i: nat)
    requires LinkInv(s) && WinnerInv(s) && ClaimInv(s) && PayloadInv(s) && AtPc(s, i, Recording)
    ensures LinkInv(AfterRecord(s, i))
  {
  }

  lemma ReleaseKeepsControl(s: State, i: nat)
    requires ControlInv(s) && i < |s.threads| && s.threads[i].pc.Leaving?
    ensures ControlInv(AfterRelease(s, i))
  {
  }

  lemma ReleaseKeepsLinks(s: State, i: nat)
    requires LinkInv(s) && WinnerInv(s) && ClaimInv(s) && PayloadInv(s) && i < |s.threads| && s.threads[i].pc.Leaving?
    ensures LinkInv(AfterRelease(s, i))
  {
  }

  lemma SetStopKeepsControl(s: State, i: nat)
    requires ControlInv(s) && AtPc(s, i, Stopping)
    ensures ControlInv(AfterSetStop(s, i))
  {
  }

  lemma SetStopKeepsLinks(s: State, i: nat)
    requires LinkInv(s) && WinnerInv(s) && ClaimInv(s) && PayloadInv(s) && AtPc(s, i, Stopping)
    ensures LinkInv(AfterSetStop(s, i))
  {
  }

  lemma TestLostKeepsControl(s: State, i: nat)
    requires ControlInv(s) && AtPc(s, i, Checking)
    ensures ControlInv(AfterTestLost(s, i))
  {
  }

  lemma TestLostKeepsLinks(s: State, i: nat)
    requires LinkInv(s) && WinnerInv(s) && ClaimInv(s) && PayloadInv(s) && AtPc(s, i, Checking)
    ensures LinkInv(AfterTestLost(s, i))
  {
  }

  lemma SendKeepsControl(s: State, i: nat)
    requires ControlInv(s) && AtPc(s, i, Ready)
    ensures ControlInv(AfterSend(s, i))
  {
  }

  lemma SendKeepsLinks(s: State, i: nat)
    requires LinkInv(s) && WinnerInv(s) && ClaimInv(s) && PayloadInv(s) && AtPc(s, i, Ready)
    ensures LinkInv(AfterSend(s, i))
  {
  }

  lemma ReplyKeepsControl(s: State, i: nat, r: Reply)
    requires ControlInv(s) && AtPc(s, i, InFlight)
    ensures ControlInv(AfterReply(s, i, r))
  {
  }

  lemma ReplyKeepsLinks(s: State, i: nat, r: Reply)
    requires LinkInv(s) && WinnerInv(s) && ClaimInv(s) && PayloadInv(s) && AtPc(s, i, InFlight)
    ensures LinkInv(AfterReply(s, i, r))
  {
  }

  lemma MarkLostKeepsControl(s: State, i: nat)
    requires ControlInv(s) && AtPc(s, i, Closing)
    ensures ControlInv(AfterMarkLost(s, i))
  {
  }

  lemma MarkLostKeepsLinks(s: State, i: nat)
    requires LinkInv(s) && WinnerInv(s) && ClaimInv(s) && PayloadInv(s) && AtPc(s, i, Closing)
    ensures LinkInv(AfterMarkLost(s, i))
  {
  }

  lemma EscapeKeepsControl(s: State)
    requires ControlInv(s) && AtPc(s, 0, Running)
    ensures ControlInv(AfterHandler(s, Escapes))
  {
  }

  lemma HandlerKeepsControl(s: State, e: HandlerEnd)
    requires ControlInv(s) && AtPc(s, 0, Running) && (e.ChecksLost? ==> s.lost) && !e.Escapes?
    ensures ControlInv(AfterHandler(s, e))
  {
  }

  lemma HandlerKeepsLinks(s: State, e: HandlerEnd)
    requires LinkInv(s) && WinnerInv(s) && ClaimInv(s) && PayloadInv(s) && AtPc(s, 0, Running)
             && (e.ChecksLost? ==> s.lost)
    ensures LinkInv(AfterHandler(s, e))
  {
  }

  lemma ArrivalKeepsControl(s: State)
    requires ControlInv(s)
    ensures ControlInv(AfterArrival(s))
  {
  }

  lemma ArrivalKeepsLinks(s: State)
    requires LinkInv(s) && WinnerInv(s) && ClaimInv(s) && PayloadInv(s)
    ensures LinkInv(AfterArrival(s))
  {
  }

  lemma CloseKeepsControl(s: State)
    requires ControlInv(s)
    ensures ControlInv(AfterClose(s))
  {
  }

  lemma CloseKeepsLinks(s: State)
    requires LinkInv(s) && WinnerInv(s) && ClaimInv(s) && PayloadInv(s)
    ensures LinkInv(AfterClose(s))
  {
  }

  lemma LockedControlStep(s: State, step: Step)
    requires ControlInv(s) && Enabled(s, step)
    requires step.TestDone? || step.Acquire? || step.Test? || step.Claim? || step.Record? || step.Release?
    ensures ControlInv(Next(s, step))
  {
    match step
    case TestDone(i) => TestDoneKeepsControl(s, i);
    case Acquire(i) => AcquireKeepsControl(s, i);
    case Test(i) => TestKeepsControl(s, i);
    case Claim(i) => ClaimKeepsControl(s, i);
    case Record(i) => RecordKeepsControl(s, i);
    case Release(i) => ReleaseKeepsControl(s, i);
  }

  lemma SendingControlStep(s: State, step: Step)
    requires ControlInv(s) && Enabled(s, step)
    requires step.SetStop? || step.TestLost? || step.Send? || step.SendReply? || step.MarkLost?
    ensures ControlInv(Next(s, step))
  {
    match step
    case SetStop(i) => SetStopKeepsControl(s, i);
    case TestLost(i) => TestLostKeepsControl(s, i);
    case Send(i) => SendKeepsControl(s, i);
    case SendReply(i, r) => ReplyKeepsControl(s, i, r);
    case MarkLost(i) => MarkLostKeepsControl(s, i);
  }

  lemma BeatControlStep(s: State, step: Step)
    requires ControlInv(s) && Enabled(s, step) && step.IsBeat()
    ensures ControlInv(Next(s, step))
  {
    match step
    case BeatAcquire | BeatTest | BeatRelease => BeatLocksKeepsControl(s, step);
    case BeatSend | BeatReply(_) | BeatTally => BeatSendsKeepsControl(s, step);
    case BeatTimeout | BeatStopped | BeatMarkLost | BeatMarkStop => BeatRestsKeepsControl(s, step);
  }

  lemma OutsideControlStep(s: State, step: Step)
    requires ControlInv(s) && Enabled(s, step) && (step.HandlerEnds? || step.TerminateArrives? || step.CloseToken?)
    ensures ControlInv(Next(s, step))
  {
    match step
    case HandlerEnds(e) => if e.Escapes? { EscapeKeepsControl(s); } else { HandlerKeepsControl(s, e); }
    case TerminateArrives => ArrivalKeepsControl(s);
    case CloseToken => CloseKeepsControl(s);
  }

  lemma ControlStep(s: State, step: Step)
    requires ControlInv(s) && Enabled(s, step)
    ensures ControlInv(Next(s, step))
  {
    if step.IsBeat() {
      BeatControlStep(s, step);
    } else if step.HandlerEnds? || step.TerminateArrives? || step.CloseToken? {
      OutsideControlStep(s, step);
    } else if step.SetStop? || step.TestLost? || step.Send? || step.SendReply? || step.MarkLost? {
      SendingControlStep(s, step);
    } else {
      LockedControlStep(s, step);
    }
  }

  lemma LockedLinkStep(s: State, step: Step)
    requires LinkInv(s) && ControlInv(s) && Enabled(s, step)
    requires step.TestDone? || step.Acquire? || step.Test? || step.Claim? || step.Record? || step.Release?
    ensures LinkInv(Next(s, step))
  {
    match step
    case TestDone(i) => TestDoneKeepsLinks(s, i);
    case Acquire(i) => AcquireKeepsLinks(s, i);
    case Test(i) => TestKeepsLinks(s, i);
    case Claim(i) => ClaimKeepsLinks(s, i);
    case Record(i) => RecordKeepsLinks(s, i);
    case Release(i) => ReleaseKeepsLinks(s, i);
  }

  lemma SendingLinkStep(s: State, step: Step)
    requires LinkInv(s) && ControlInv(s) && Enabled(s, step)
    requires step.SetStop? || step.TestLost? || step.Send? || step.SendReply? || step.MarkLost?
    ensures LinkInv(Next(s, step))
  {
    match step
    case SetStop(i) => SetStopKeepsLinks(s, i);
    case TestLost(i) => TestLostKeepsLinks(s, i);
    case Send(i) => SendKeepsLinks(s, i);
    case SendReply(i, r) => ReplyKeepsLinks(s, i, r);
    case MarkLost(i) => MarkLostKeepsLinks(s, i);
  }

  lemma BeatLinkStep(s: State, step: Step)
    requires LinkInv(s) && ControlInv(s) && Enabled(s, step) && step.IsBeat()
    ensures LinkInv(Next(s, step))
  {
    match step
    case BeatAcquire | BeatTest | BeatRelease => BeatLocksKeepsLinks(s, step);
    case BeatSend | BeatReply(_) | BeatTally => BeatSendsKeepsLinks(s, step);
    case BeatTimeout | BeatStopped | BeatMarkLost | BeatMarkStop => BeatRestsKeepsLinks(s, step);
  }

  lemma OutsideLinkStep(s: State, step: Step)
    requires LinkInv(s) && ControlInv(s) && Enabled(s, step)
             && (step.HandlerEnds? || step.TerminateArrives? || step.CloseToken?)
    ensures LinkInv(Next(s, step))
  {
    match step
    case HandlerEnds(e) => HandlerKeepsLinks(s, e);
    case TerminateArrives => ArrivalKeepsLinks(s);
    case CloseToken => CloseKeepsLinks(s);
  }

  lemma LinkStep(s: State, step: Step)
    requires LinkInv(s) && ControlInv(s) && Enabled(s, step)
    ensures LinkInv(Next(s, step))
  {
    if step.IsBeat() {
      BeatLinkStep(s, step);
    } else if step.HandlerEnds? || step.TerminateArrives? || step.CloseToken? {
      OutsideLinkStep(s, step);
    } else if step.SetStop? || step.TestLost? || step.Send? || step.SendReply? || step.MarkLost? {
      SendingLinkStep(s, step);
    } else {
      LockedLinkStep(s, step);
    }
  }

  /** What the state must say for an event to extend an orderly history. */
  lemma OrderlyAppend(h: seq<Event>, e: Event)
    requires Orderly(h)
    requires e.IsBeat() || e.Claimed? ==> forall k :: 0 <= k < |h| ==> !h[k].Claimed?
    requires e.Claimed? ==> OpenBeats(h) == 0
    requires e.CompletionStart? ==> forall k :: 0 <= k < |h| ==> !h[k].CompletionStart?
    requires (e.BeatEnd? || e.CompletionEnd?) && e.reply.Accepted() ==> forall k :: 0 <= k < |h| ==> !h[k].TokenClosed?
    requires e.LostTested? && !e.seen ==> forall k :: 0 <= k < |h| ==> !h[k].LostMarked?
    ensures Orderly(h + [e])
  {
    var g := h + [e];
    assert forall k :: 0 <= k <= |h| ==> g[..k] == h[..k];
    assert h[..|h|] == h;
  }

  lemma CountAppend(h: seq<Event>, e: Event)
    ensures BeatCount(h + [e]) == BeatCount(h) + if e == BeatEnd(Delivered) then 1 else 0
    ensures OpenBeats(h + [e]) == OpenBeats(h) + if e.BeatStart? then 1 else if e.BeatEnd? then -1 else 0
  {
    assert (h + [e])[..|h|] == h;
  }

  /** The event a step adds to the history, if any. */
  function EventOf(s: State, step: Step): Option<Event>
    requires Enabled(s, step)
  {
    match step
    case BeatSend => Some(BeatStart)
    case BeatReply(r) => Some(BeatEnd(r))
    case BeatMarkLost | MarkLost(_) => Some(LostMarked)
    case Claim(i) => Some(Claimed(i))
    case TestLost(i) => Some(LostTested(i, s.lost))
    case Send(i) => Some(CompletionStart(i, s.threads[i].payload))
    case SendReply(i, r) => Some(CompletionEnd(i, r))
    case CloseToken => Some(TokenClosed)
    case _ => None
  }

  lemma HistoryGrows(s: State, step: Step)
    requires Enabled(s, step)
    ensures Next(s, step).history ==
            match EventOf(s, step) case Some(e) => s.history + [e] case None => s.history
  {
  }

  lemma OrderlyStep(s: State, step: Step)
    requires Inv(s) && Enabled(s, step)
    ensures Orderly(Next(s, step).history)
  {
    HistoryGrows(s, step);
    if EventOf(s, step).Some? {
      OrderlyAppend(s.history, EventOf(s, step).value);
    }
  }

  /** The count follows the one new event, or nothing. */
  lemma CountKept(s: State, t: State, e: Option<Event>)
    requires CountInv(s) && t.history == (match e case Some(v) => s.history + [v] case None => s.history)
    requires e.None? || !e.value.IsBeat() ==>
             t.heartbeats + (if t.beat.Counting? then 1 else 0) == s.heartbeats + (if s.beat.Counting? then 1 else 0)
    requires e.None? || !e.value.IsBeat() ==> (t.beat.Sending? <==> s.beat.Sending?)
    requires e == Some(BeatStart) ==>
             t.heartbeats == s.heartbeats && !s.beat.Counting? && !s.beat.Sending? && t.beat.Sending?
    requires e.Some? && e.value.BeatEnd? ==>
               t.heartbeats == s.heartbeats && s.beat.Sending? && !t.beat.Sending?
                   && (t.beat.Counting? <==> e.value.reply.Delivered?)
    ensures CountInv(t)
  {
    if e.Some? {
      CountAppend(s.history, e.value);
    }
  }

  lemma CountStep(s: State, step: Step)
    requires CountInv(s) && Enabled(s, step)
    ensures CountInv(Next(s, step))
  {
    HistoryGrows(s, step);
    CountKept(s, Next(s, step), EventOf(s, step));
  }

  lemma StepInv(s: State, step: Step)
    requires Inv(s) && Enabled(s, step)
    ensures Inv(Next(s, step))
  {
    ControlStep(s, step);
    LinkStep(s, step);
    CountStep(s, step);
    OrderlyStep(s, step);
  }

  lemma {:induction false} RunInv(s: State, steps: seq<Step>)
    requires Inv(s) && Runs(s, steps)
    ensures Inv(Exec(s, steps))
    decreases |steps|
  {
    if |steps| > 0 {
      StepInv(s, steps[0]);
      RunInv(Next(s, steps[0]), steps[1..]);
    }
  }
}
