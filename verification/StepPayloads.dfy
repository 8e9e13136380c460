/**
 What the VM sends to its task token (_SfnCompleter of microvm/hooks/server.py) and what the generated states read of
 it: the microvm_id that Terminate and TerminateFailed act on.
 */
module StepPayloads {
  import opened Common
  import opened Completions
  import opened Json
  import opened JsonPrefix
  import opened StateMachine

  const CAUSE_LIMIT := 32768

  function FailureText(b: Base, e: VmError): string { Dumps(Obj(FailurePayload(b, e)), Spaced) }

  /** The errors the Retry lists. */
  const THROTTLING := "LambdaMicrovms.ThrottlingException"
  const QUOTA_EXCEEDED := "LambdaMicrovms.ServiceQuotaExceededException"

  function ErrorNamed(name: string): Error {
    if name == THROTTLING || name == QUOTA_EXCEEDED then Throttling else Other(name)
  }

  /** What SendTaskFailure carries. */
  function SendTaskFailure(b: Base, e: VmError): Failure {
    Failure(ErrorNamed(Prefix(e.errorType, 256)), Prefix(FailureText(b, e), CAUSE_LIMIT))
  }

  lemma ThrottlingNames(name: string)
    ensures ErrorNamed(Prefix(name, 256)) == Throttling <==> name in {THROTTLING, QUOTA_EXCEEDED}
  {
    assert |THROTTLING| == 34 && |QUOTA_EXCEEDED| == 44;
  }

  /** What SendTaskSuccess carries. */
  function SendTaskSuccess(b: Base, result: Json): string { Dumps(Obj(SuccessPayload(b, result)), Spaced) }

  /** The failure's cause is a JSON object that names a VM, as the Choice and the $parse see it. */
  predicate NamesVm(f: Failure) { Contains(f.cause, MICROVM_ID_KEY) && ParsedVm(f.cause).Some? }

  lemma QuotedKey()
    ensures Quote("microvm_id") == MICROVM_ID_KEY
  {
    EscapePlain("microvm_id");
  }

  lemma ContainsSecond(s: string, part: string)
    requires |s| > |part| && s[1..|part| + 1] == part
    ensures Contains(s, part)
  {
    assert part <= s[1..];
    assert Contains(s[1..], part);
  }

  lemma MiddleOf(open: string, key: string, rest: string)
    ensures (open + (key + rest))[|open|..|key| + |open|] == key
  {
  }

  lemma SliceOfPrefix(t: string, n: nat, i: nat, j: nat)
    requires i <= j <= n && j <= |t|
    ensures Prefix(t, n)[i..j] == t[i..j]
  {
  }

  lemma StartsWithKey(open: string, key: string, rest: string, n: nat)
    requires |open| == 1 && |key| + 1 <= n
    ensures Contains(Prefix(open + (key + rest), n), key)
  {
    MiddleOf(open, key, rest);
    SliceOfPrefix(open + (key + rest), n, 1, |key| + 1);
    ContainsSecond(Prefix(open + (key + rest), n), key);
  }

  lemma Head(open: string, key: string, value: string, rest: string)
    ensures open + ((key + value) + rest) == open + (key + (value + rest))
  {
  }

  /** Any object whose first key is microvm_id, however it is cut. */
  lemma ObjectStartsWithKey(v: Json, more: Fields, n: nat)
    requires n >= 16
    ensures Contains(Prefix(Dumps(Obj(More("microvm_id", v, more)), Spaced), n), MICROVM_ID_KEY)
  {
    QuotedKey();
    var value, rest := ": " + Dumps(v, Spaced), DumpFields(more, Spaced);
    Head("{", MICROVM_ID_KEY, value, rest);
    StartsWithKey("{", MICROVM_ID_KEY, value + rest, n);
  }

  /** The Choice sends every failure the VM reports to TerminateFailed. */
  lemma CauseMentionsVm(b: Base, e: VmError)
    ensures Contains(SendTaskFailure(b, e).cause, MICROVM_ID_KEY)
  {
    ObjectStartsWithKey(b.microvmId, FailurePayload(b, e).rest, CAUSE_LIMIT);
  }

  lemma CauseParses(b: Base, e: VmError)
    requires WellFormedBase(b) && WellFormedFields(e.data)
    ensures Loads(SendTaskFailure(b, e).cause) ==
            if |FailureText(b, e)| <= CAUSE_LIMIT then Some(Obj(FailurePayload(b, e))) else None
  {
    ErrorIsProper(e);
    MessageIsProper(b, "error", Obj(ErrorFields(e)));
    if |FailureText(b, e)| <= CAUSE_LIMIT {
      LoadsOfDumps(Obj(FailurePayload(b, e)), Spaced);
    } else {
      CutObjectDoesNotLoad(FailurePayload(b, e), Spaced, CAUSE_LIMIT);
    }
  }

  /** TerminateFailed can tell which VM to terminate exactly when the VM knew its own id and the failure's JSON was not
      cut at 32768 characters, and then it is that VM; otherwise its argument cannot be evaluated, and the VM is left
      to its duration cap. */
  lemma FailureNamesVmIff(b: Base, e: VmError)
    requires WellFormedBase(b) && WellFormedFields(e.data)
    ensures var f := SendTaskFailure(b, e);
            && (NamesVm(f) <==> b.microvmId.Str? && |FailureText(b, e)| <= CAUSE_LIMIT)
            && (NamesVm(f) ==> ParsedVm(f.cause) == Some(b.microvmId.s))
            && (!NamesVm(f) ==> TargetOf(CauseVm, Fresh("").(failure := Some(f))).None?)
  {
    CauseMentionsVm(b, e);
    CauseParses(b, e);
    FailureStarts(b, e);
  }

  lemma FailureStarts(b: Base, e: VmError)
    ensures FailurePayload(b, e).Get("microvm_id") == Some(b.microvmId)
  {
  }

  lemma SuccessIsMessage(b: Base, result: Json) returns (value: Json)
    requires WellFormed(result)
    ensures WellFormed(value) && SuccessPayload(b, result) == Message(b, "result", value)
  {
    SummaryIsWellFormed(result);
    value := if SuccessPayload(b, result) == Message(b, "result", result) then result else Summary(result);
  }

  lemma DumpedMicrovmId(f: Fields)
    requires WellFormedFields(f)
    ensures MicrovmId(Dumps(Obj(f), Spaced)) == f.Get("microvm_id")
  {
    LoadsOfDumps(Obj(f), Spaced);
  }

  /** A message of 32768 characters is enough for that. */
  lemma LongFailureNamesNoVm()
    ensures var b, e := Base(Str("mvm-1"), Null, Int(1)), VmError("Crash", seq(CAUSE_LIMIT, _ => 'x'), false, Empty);
            WellFormedBase(b) && !NamesVm(SendTaskFailure(b, e))
  {
    var b, e := Base(Str("mvm-1"), Null, Int(1)), VmError("Crash", seq(CAUSE_LIMIT, _ => 'x'), false, Empty);
    FailureIsLongerThanMessage(b, e);
    FailureNamesVmIff(b, e);
  }

  /** Whatever the handler returned, and whether or not its result was replaced by the truncation notice, the success
      payload carries the VM's own id: $vm is that id, or null if the VM did not know it. */
  lemma SuccessNamesVm(b: Base, result: Json)
    requires WellFormedBase(b) && WellFormed(result)
    ensures var output := SendTaskSuccess(b, result);
            && MicrovmId(output) == Some(b.microvmId)
            && ParsedVm(output) == if b.microvmId.Str? then Some(b.microvmId.s) else None
  {
    var value := SuccessIsMessage(b, result);
    MessageIsProper(b, "result", value);
    DumpedMicrovmId(SuccessPayload(b, result));
  }

  // ---------------------------------------------------------------- answers that come from the launched VM

  /** What the VM with this id puts into base(): its id, or null when neither the run hook nor the environment
      told it. */
  ghost predicate IsBaseOf(b: Base, vm: string) { WellFormedBase(b) && (b.microvmId == Str(vm) || b.microvmId == Null) }

  ghost predicate OwnSuccess(vm: string, output: string) {
    exists b, result :: IsBaseOf(b, vm) && WellFormed(result) && output == SendTaskSuccess(b, result)
  }

  ghost predicate OwnFailure(vm: string, f: Failure) {
    exists b: Base, e: VmError :: IsBaseOf(b, vm) && WellFormedFields(e.data) && f == SendTaskFailure(b, e)
  }

  /** A success comes from the VM that was launched; so does an error whose cause names a VM (those of timeouts and of
      refused calls name none). */
  ghost predicate Own(ev: Event) {
    match ev
    case Answered(Finished(vm, output)) => OwnSuccess(vm, output)
    case Answered(Err(launched, error, cause)) =>
      ParsedVm(cause).None? || (launched.Some? && OwnFailure(launched.value, Failure(error, cause)))
    case Inner(_, event) => Own(event)
    case _ => true
  }

  ghost predicate AllOwn(evs: seq<Event>) { forall k :: 0 <= k < |evs| ==> Own(evs[k]) }

  /** What an own answer names is the VM of its launch. */
  lemma OwnNames(a: Answer)
    requires Own(Answered(a))
    ensures a.Finished? ==> MicrovmId(a.output).Some? && (ParsedVm(a.output).None? || ParsedVm(a.output) == Some(a.vm))
    ensures a.Err? ==> ParsedVm(a.cause).None? || ParsedVm(a.cause) == a.launched
  {
    match a
    case Finished(vm, output) =>
      var b, result :| IsBaseOf(b, vm) && WellFormed(result) && output == SendTaskSuccess(b, result);
      SuccessNamesVm(b, result);
    case Ok(_) =>
    case Err(launched, error, cause) =>
      if ParsedVm(cause).Some? {
        var b: Base, e: VmError :| IsBaseOf(b, launched.value) && WellFormedFields(e.data)
            && Failure(error, cause) == SendTaskFailure(b, e);
        FailureNamesVmIff(b, e);
        CauseMentionsVm(b, e);
      }
  }
}
