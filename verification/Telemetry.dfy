/**
 Job telemetry of microvm/hooks/server.py: the ring of log entries behind /status and /events, and the cursor
 readers of it (GET /status?since=, _events, and _follow_status of microvm/playground/server.py). Every method
 of Job holds its lock, so each is one step (Phase is two, taken back to back here); any steps may come between two
 polls.
 */
module Telemetry {
  import opened Common
  import opened Json

  const RING := 200
  const TAIL := 50

  /** One log line; data holds the caller's extra fields. */
  datatype Entry = Entry(seqNo: nat, t: string, level: string, msg: string, phase: string, data: Fields)

  datatype Snapshot = Snapshot(phase: string, done: int, total: Option<int>, counters: map<string, Json>,
                               tail: seq<Entry>, lease: Json, seqNo: nat)

  /** list(q)[-n:] */
  function Last<T>(q: seq<T>, n: nat): seq<T> { if |q| <= n then q else q[|q| - n..] }

  /** [e for e in entries if e["seq"] > after] */
  function Newer(entries: seq<Entry>, after: int): seq<Entry> {
    if |entries| == 0 then []
    else (if entries[0].seqNo > after then [entries[0]] else []) + Newer(entries[1..], after)
  }

  /** The sequence numbers go up by one from base + 1. */
  ghost predicate Numbered(entries: seq<Entry>, base: nat) {
    forall k :: 0 <= k < |entries| ==> entries[k].seqNo == base + k + 1
  }

  lemma {:induction false} NewerIsSuffix(entries: seq<Entry>, base: nat, after: int)
    requires Numbered(entries, base)
    ensures Newer(entries, after) ==
            if after <= base then entries else if after >= base + |entries| then [] else entries[after - base..]
  {
    if |entries| > 0 {
      assert Numbered(entries[1..], base + 1) by {
        forall k | 0 <= k < |entries| - 1
            ensures entries[1..][k].seqNo == base + 1 + k + 1 { assert entries[1..][k] == entries[k + 1]; }
      }
      NewerIsSuffix(entries[1..], base + 1, after);
    }
  }

  // ---------------------------------------------------------------- what a read finds

  function Max(a: int, b: int): int { if a >= b then a else b }

  /** Where the entries a reader finds begin, after n were logged: past its cursor, but no further back than the
      ring reaches; without a cursor, the last 50. */
  function Begin(n: nat, since: Option<int>): nat {
    match since
    case Some(c) => if c >= n then n else Max(c, Max(0, n - RING))
    case None => Max(0, n - TAIL)
  }

  /** One read of the ring after all of log was logged. */
  function Found(log: seq<Entry>, since: Option<int>): seq<Entry> {
    match since
    case Some(c) => Newer(Last(log, RING), c)
    case None => Last(Last(log, RING), TAIL)
  }

  /** A read finds exactly the log from Begin on, in order. */
  lemma FoundIsSuffix(log: seq<Entry>, since: Option<int>)
    requires Numbered(log, 0)
    ensures Found(log, since) == log[Begin(|log|, since)..]
  {
    var base := Max(0, |log| - RING);
    assert Last(log, RING) == log[base..];
    if since.Some? {
      assert Numbered(log[base..], base) by {
        forall k | 0 <= k < |log| - base
            ensures log[base..][k].seqNo == base + k + 1 { assert log[base..][k] == log[base + k]; }
      }
      NewerIsSuffix(log[base..], base, since.value);
    }
  }

  // ---------------------------------------------------------------- Job

  class Job {
    var phaseName: string
    var done: int
    var total: Option<int>
    var counters: map<string, Json>
    var seqNo: nat
    var ring: seq<Entry>
    /** Every entry logged since the job was made. */
    ghost var log: seq<Entry>

    ghost predicate Valid()
      reads this
    {
      seqNo == |log| && Numbered(log, 0) && ring == Last(log, RING)
    }

    constructor ()
      ensures Valid() && log == [] && phaseName == "init" && done == 0 && total == None && counters == map[]
    {
      seqNo, ring, log := 0, [], [];
      phaseName, done, total, counters := "init", 0, None, map[];
    }

    /** Clears phase, progress and counters; the log and its numbers go on. */
    method Reset()
      requires Valid()
      modifies this`phaseName, this`done, this`total, this`counters
      ensures Valid() && phaseName == "init" && done == 0 && total == None && counters == map[]
    {
      phaseName, done, total, counters := "init", 0, None, map[];
    }

    /** deque(maxlen=200) drops its oldest entry when full. */
    method Log(t: string, level: string, msg: string, data: Fields)
      requires Valid()
      modifies this`seqNo, this`ring, this`log
      ensures Valid() && log == old(log) + [Entry(old(seqNo) + 1, t, level, msg, phaseName, data)]
    {
      seqNo := seqNo + 1;
      var entry := Entry(seqNo, t, level, msg, phaseName, data);
      ring := ring + [entry];
      if |ring| > RING { ring := ring[1..]; }
      log := log + [entry];
      assert Last(log, RING) == ring;
    }

    method Phase(t: string, name: string)
      requires Valid()
      modifies this`phaseName, this`seqNo, this`ring, this`log
      ensures Valid() && phaseName == name
      ensures log == old(log) + [Entry(old(seqNo) + 1, t, "info", "phase: " + name, name, Empty)]
    {
      phaseName := name;
      Log(t, "info", "phase: " + name, Empty);
    }

    method Progress(done: int, total: Option<int>)
      requires Valid()
      modifies this`done, this`total
      ensures Valid() && this.done == done
      ensures this.total == if total.Some? then total else old(this.total)
    {
      this.done := done;
      if total.Some? { this.total := total; }
    }

    method Counter(name: string, value: Json)
      requires Valid()
      modifies this`counters
      ensures Valid() && counters == old(counters)[name := value]
    {
      counters := counters[name := value];
    }

    method Since(after: int) returns (lines: seq<Entry>)
      requires Valid()
      ensures lines == log[Begin(|log|, Some(after))..]
    {
      FoundIsSuffix(log, Some(after));
      lines := Newer(ring, after);
    }

    method TakeSnapshot(since: Option<int>, lease: Json) returns (snap: Snapshot)
      requires Valid()
      ensures snap == Snapshot(phaseName, done, total, counters, log[Begin(|log|, since)..], lease, |log|)
    {
      FoundIsSuffix(log, since);
      var tail := if since.None? then Last(ring, TAIL) else Newer(ring, since.value);
      snap := Snapshot(phaseName, done, total, counters, tail, lease, seqNo);
    }
  }

  // ---------------------------------------------------------------- cursor readers

  /** A reader that carries the cursor: None before the first answer of /status. */
  class Follower {
    var since: Option<int>

    constructor ()
      ensures since == None
    {
      since := None;
    }

    /** One poll of _follow_status: the lines it copies, and the new cursor. */
    method Poll(job: Job, lease: Json) returns (lines: seq<Entry>)
      requires job.Valid()
      modifies this
      ensures lines == job.log[Begin(|job.log|, old(since))..] && since == Some(|job.log|)
    {
      var snap := job.TakeSnapshot(since, lease);
      lines := snap.tail;
      since := Some(snap.seqNo);
    }
  }

  /** A reader that is at cursor c and reads when polls[0], polls[1], ... entries have been logged. */
  ghost predicate Nondecreasing(c: nat, polls: seq<nat>)
    decreases |polls|
  {
    |polls| > 0 ==> c <= polls[0] && Nondecreasing(polls[0], polls[1..])
  }

  /** The cursor afterwards. */
  function Reached(c: nat, polls: seq<nat>): nat
    decreases |polls|
  {
    if |polls| == 0 then c else Reached(polls[0], polls[1..])
  }

  /** All it gets, read after read. */
  function Received(log: seq<Entry>, c: nat, polls: seq<nat>): seq<Entry>
    requires Nondecreasing(c, polls) && Reached(c, polls) <= |log|
    decreases |polls|
  {
    if |polls| == 0 then []
    else
      ReachedGrows(polls[0], polls[1..]);
      log[Begin(polls[0], Some(c))..polls[0]] + Received(log, polls[0], polls[1..])
  }

  lemma {:induction false} ReachedGrows(c: nat, polls: seq<nat>)
    requires Nondecreasing(c, polls)
    ensures Reached(c, polls) >= c
    decreases |polls|
  {
    if |polls| > 0 { ReachedGrows(polls[0], polls[1..]); }
  }

  /** The entries dropped from the ring before the reader came back for them. */
  function Missed(c: nat, polls: seq<nat>): nat
    decreases |polls|
  {
    if |polls| == 0 then 0 else Max(0, polls[0] - c - RING) + Missed(polls[0], polls[1..])
  }

  predicate KeepsUp(c: nat, polls: seq<nat>)
    decreases |polls|
  {
    |polls| > 0 ==> polls[0] - c <= RING && KeepsUp(polls[0], polls[1..])
  }

  lemma {:induction false} MissesNoneIff(c: nat, polls: seq<nat>)
    ensures Missed(c, polls) == 0 <==> KeepsUp(c, polls)
    decreases |polls|
  {
    if |polls| > 0 { MissesNoneIff(polls[0], polls[1..]); }
  }

  ghost predicate Ascending(entries: seq<Entry>, low: int, high: int) {
    && (forall k :: 0 <= k < |entries| ==> low < entries[k].seqNo <= high)
    && (forall j, k :: 0 <= j < k < |entries| ==> entries[j].seqNo < entries[k].seqNo)
  }

  lemma AscendingJoin(a: seq<Entry>, b: seq<Entry>, low: int, mid: int, high: int)
    requires low <= mid <= high && Ascending(a, low, mid) && Ascending(b, mid, high)
    ensures Ascending(a + b, low, high)
  {
  }

  lemma SliceAscends(log: seq<Entry>, a: nat, b: nat)
    requires Numbered(log, 0) && a <= b <= |log|
    ensures Ascending(log[a..b], a, b)
  {
    var s := log[a..b];
    assert forall k :: 0 <= k < |s| ==> s[k] == log[a + k];
  }

  lemma AscendingLower(s: seq<Entry>, a: int, low: int, high: int)
    requires Ascending(s, a, high) && low <= a
    ensures Ascending(s, low, high)
  {
  }

  ghost predicate AreLogged(s: seq<Entry>, log: seq<Entry>) {
    forall e :: e in s ==> 1 <= e.seqNo <= |log| && e == log[e.seqNo - 1]
  }

  lemma SliceIsLogged(log: seq<Entry>, a: nat, b: nat)
    requires Numbered(log, 0) && a <= b <= |log|
    ensures AreLogged(log[a..b], log)
  {
    forall e | e in log[a..b] ensures 1 <= e.seqNo <= |log| && e == log[e.seqNo - 1] {
      var k :| 0 <= k < b - a && log[a..b][k] == e;
      assert e == log[a + k];
    }
  }

  lemma {:induction false} ReceivedIsLogged(log: seq<Entry>, c: nat, polls: seq<nat>)
    requires Numbered(log, 0) && Nondecreasing(c, polls) && Reached(c, polls) <= |log|
    ensures Ascending(Received(log, c, polls), c, Reached(c, polls)) && AreLogged(Received(log, c, polls), log)
    decreases |polls|
  {
    if |polls| > 0 {
      var n, rest := polls[0], polls[1..];
      var b := Begin(n, Some(c));
      ReachedGrows(n, rest);
      ReceivedIsLogged(log, n, rest);
      SliceAscends(log, b, n);
      SliceIsLogged(log, b, n);
      AscendingLower(log[b..n], b, c, n);
      AscendingJoin(log[b..n], Received(log, n, rest), c, n, Reached(n, rest));
    }
  }

  lemma {:induction false} ReceivedAndMissed(log: seq<Entry>, c: nat, polls: seq<nat>)
    requires Nondecreasing(c, polls) && Reached(c, polls) <= |log|
    ensures |Received(log, c, polls)| + Missed(c, polls) == Reached(c, polls) - c
    decreases |polls|
  {
    if |polls| > 0 {
      ReachedGrows(polls[0], polls[1..]);
      ReceivedAndMissed(log, polls[0], polls[1..]);
    }
  }

  lemma {:induction false} KeepingUpMissesNone(log: seq<Entry>, c: nat, polls: seq<nat>)
    requires Nondecreasing(c, polls) && Reached(c, polls) <= |log| && KeepsUp(c, polls)
    ensures c <= Reached(c, polls) && Received(log, c, polls) == log[c..Reached(c, polls)]
    decreases |polls|
  {
    if |polls| > 0 {
      var n, r := polls[0], Reached(c, polls);
      ReachedGrows(n, polls[1..]);
      KeepingUpMissesNone(log, n, polls[1..]);
      assert log[c..n] + log[n..r] == log[c..r];
    }
  }

  /** A reader gets entries of the log in order, none twice, and none from before its first cursor; what it
      does not get is what the ring dropped between two polls; it gets the whole stretch of the log exactly
      when no more than 200 entries were logged between any two polls. */
  lemma ReaderGetsTheLog(log: seq<Entry>, c: nat, polls: seq<nat>)
    requires Numbered(log, 0) && Nondecreasing(c, polls) && c <= Reached(c, polls) <= |log|
    ensures var got := Received(log, c, polls);
            && Ascending(got, c, Reached(c, polls))
            && AreLogged(got, log)
            && |got| + Missed(c, polls) == Reached(c, polls) - c
            && (got == log[c..Reached(c, polls)] <==> KeepsUp(c, polls))
  {
    ReceivedIsLogged(log, c, polls);
    ReceivedAndMissed(log, c, polls);
    MissesNoneIff(c, polls);
    if KeepsUp(c, polls) {
      KeepingUpMissesNone(log, c, polls);
    }
  }

  /** A reader without a cursor, as _follow_status before its first answer, also gets the last 50 entries logged
      before its first read, in one piece with what follows if and only if it keeps up. */
  lemma FollowerGetsTheLog(log: seq<Entry>, n: nat, polls: seq<nat>)
    requires Numbered(log, 0) && Nondecreasing(n, polls) && n <= Reached(n, polls) <= |log|
    ensures var got := log[Begin(n, None)..n] + Received(log, n, polls);
            && Ascending(got, Begin(n, None), Reached(n, polls))
            && (got == log[Begin(n, None)..Reached(n, polls)] <==> KeepsUp(n, polls))
  {
    var b := Begin(n, None);
    ReaderGetsTheLog(log, n, polls);
    SliceAscends(log, b, n);
    AscendingJoin(log[b..n], Received(log, n, polls), b, n, Reached(n, polls));
    SameHead(log, b, n, Reached(n, polls), Received(log, n, polls));
  }

  lemma SameHead(log: seq<Entry>, a: nat, b: nat, c: nat, more: seq<Entry>)
    requires a <= b <= c <= |log|
    ensures log[a..b] + more == log[a..c] <==> more == log[b..c]
  {
    assert log[a..b] + log[b..c] == log[a..c];
    if log[a..b] + more == log[a..c] {
      assert more == (log[a..b] + more)[b - a..] == log[a..c][b - a..] == log[b..c];
    }
  }
}
