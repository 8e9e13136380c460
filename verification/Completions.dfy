/**
 What the VM reports and what the durable orchestrator reads: completion and _DurableCompleter of
 microvm/hooks/server.py, _decode and _error_from of microvm/integrations/durable.py.
 */
module Completions {
  import opened Common
  import opened Json
  import opened JsonPrefix
  import opened LeaseContract

  const RESULT_LIMIT := 240 * 1024
  const SUMMARY_LIMIT := 4096
  const MESSAGE_LIMIT := 1024
  const ERROR_DATA_LIMIT := 4096
  const SDK_MODULE := "aws_durable_execution_sdk_python"

  function Prefix(s: string, n: nat): string { if |s| <= n then s else s[..n] }

  // ---------------------------------------------------------------- the VM's side

  /** _error(...) */
  datatype VmError = VmError(errorType: string, message: string, retryable: bool, data: Fields)

  function ErrorFields(e: VmError): Fields {
    More("error_type", Str(e.errorType), More("message", Str(e.message),
    More("retryable", Bool(e.retryable), More("data", Obj(e.data), Empty))))
  }

  /** base(): the fields every message carries. */
  datatype Base = Base(microvmId: Json, leaseId: Json, elapsed: Json)

  function Message(b: Base, key: string, value: Json): Fields {
    More("microvm_id", b.microvmId, More("lease_id", b.leaseId, More("elapsed_s", b.elapsed, More(key, value, Empty))))
  }

  function FailurePayload(b: Base, e: VmError): Fields { Message(b, "error", Obj(ErrorFields(e))) }

  /** completion(result=...), with its size guard. */
  function SuccessPayload(b: Base, result: Json): Fields {
    if |Dumps(Obj(Message(b, "result", result)), Spaced)| <= RESULT_LIMIT then Message(b, "result", result)
    else Message(b, "result", Summary(result))
  }

  function Summary(result: Json): Json {
    Obj(More("truncated", Bool(true), More("summary", Str(Prefix(Dumps(result, Spaced), SUMMARY_LIMIT)), Empty)))
  }

  // ---------------------------------------------------------------- the orchestrator's side

  /** What _decode is given: text (bytes decoded) or a value already. */
  datatype Raw = Text(text: string) | Value(value: Json)

  /** CallbackExternalError: its attributes, None when missing, and str(exc). */
  datatype External = External(data: Option<Raw>, errorType: string, message: string, text: string)

  datatype OrchestratorError = OrchestratorError(errorType: Json, message: Json, retryable: bool, data: Fields)

  function Decode(raw: Raw): Json {
    match raw
    case Text(s) => Loads(s).GetOr(Str(s))
    case Value(v) => v
  }

  /** The error object inside the data: under "error", or the data itself, or nothing. */
  function ErrorObject(data: Json): Fields {
    if !data.Obj? then Empty
    else match data.fields.Get("error")
      case Some(Obj(err)) => err
      case _ => if data.fields.Has("error_type") then data.fields else Empty
  }

  function ErrorFrom(e: External): OrchestratorError {
    var err := ErrorObject(if e.data.Some? then Decode(e.data.value) else Null);
    var sdkType := if SDK_MODULE <= e.errorType then "" else e.errorType;
    OrchestratorError(
      OrElse(OrElse(err.Get("error_type").GetOr(Null), Str(sdkType)), Str("Unknown")),
      OrElse(OrElse(err.Get("message").GetOr(Null), Str(e.message)), Str(e.text)),
      Truthy(err.Get("retryable").GetOr(Bool(false))),
      match err.Get("data") case Some(Obj(fields)) => fields case _ => Empty)
  }

  /** SendDurableExecutionCallbackFailure, as it arrives at the other end. */
  function SendFailure(b: Base, e: VmError, text: string): External {
    External(Some(Text(Prefix(Dumps(Obj(FailurePayload(b, e)), Spaced), ERROR_DATA_LIMIT))),
             e.errorType, Prefix(e.message, MESSAGE_LIMIT), text)
  }

  /** lease_microvm's reading of a result. */
  function ResultOf(raw: Raw): Json {
    var payload := Decode(raw);
    if payload.Obj? && payload.fields.Has("result") then payload.fields.Get("result").GetOr(payload) else payload
  }

  // ---------------------------------------------------------------- one reads what the other wrote

  lemma Keys(key: string)
    requires key == "error" || key == "result"
    ensures key != "microvm_id" && key != "lease_id" && key != "elapsed_s"
    ensures "microvm_id" != "lease_id" && "microvm_id" != "elapsed_s" && "lease_id" != "elapsed_s"
    ensures "error_type" != "message" && "error_type" != "retryable" && "error_type" != "data"
    ensures "message" != "retryable" && "message" != "data" && "retryable" != "data"
  {
    assert |"error"| == 5 && |"result"| == 6 && |"microvm_id"| == 10 && |"lease_id"| == 8 && |"elapsed_s"| == 9;
    assert |"error_type"| == 10 && |"message"| == 7 && |"retryable"| == 9 && |"data"| == 4;
  }

  lemma FourEntries(k1: string, v1: Json, k2: string, v2: Json, k3: string, v3: Json, k4: string, v4: Json)
    requires WellFormed(v1) && WellFormed(v2) && WellFormed(v3) && WellFormed(v4)
    requires k1 != k2 && k1 != k3 && k1 != k4 && k2 != k3 && k2 != k4 && k3 != k4
    ensures var f := More(k1, v1, More(k2, v2, More(k3, v3, More(k4, v4, Empty))));
            && WellFormedFields(f) && f.Has(k4)
            && f.Get(k1) == Some(v1) && f.Get(k2) == Some(v2) && f.Get(k3) == Some(v3) && f.Get(k4) == Some(v4)
  {
    var f4 := More(k4, v4, Empty);
    var f3 := More(k3, v3, f4);
    var f2 := More(k2, v2, f3);
    assert forall k :: f4.Has(k) <==> k == k4;
    assert forall k :: f3.Has(k) <==> k == k3 || f4.Has(k);
    assert forall k :: f2.Has(k) <==> k == k2 || f3.Has(k);
    assert WellFormedFields(f4);
    assert WellFormedFields(f3);
    assert WellFormedFields(f2);
    GetFirst(k4, v4, Empty);
    assert f3.Get(k4) == f4.Get(k4);
    assert f2.Get(k4) == f3.Get(k4) && f2.Get(k3) == f3.Get(k3);
  }

  lemma GetFirst(k: string, v: Json, rest: Fields)
    ensures More(k, v, rest).Get(k) == Some(v)
  {
  }

  ghost predicate WellFormedBase(b: Base) { WellFormed(b.microvmId) && WellFormed(b.leaseId) && WellFormed(b.elapsed) }

  lemma MessageIsProper(b: Base, key: string, value: Json)
    requires WellFormedBase(b) && WellFormed(value) && (key == "error" || key == "result")
    ensures WellFormedFields(Message(b, key, value)) && Message(b, key, value).Has(key)
    ensures Message(b, key, value).Get(key) == Some(value)
    ensures Message(b, key, value).Get("microvm_id") == Some(b.microvmId)
  {
    Keys(key);
    FourEntries("microvm_id", b.microvmId, "lease_id", b.leaseId, "elapsed_s", b.elapsed, key, value);
  }

  lemma ErrorIsProper(e: VmError)
    requires WellFormedFields(e.data)
    ensures var f := ErrorFields(e);
            && WellFormedFields(f)
            && f.Get("error_type") == Some(Str(e.errorType)) && f.Get("message") == Some(Str(e.message))
            && f.Get("retryable") == Some(Bool(e.retryable)) && f.Get("data") == Some(Obj(e.data))
  {
    Keys("error");
    FourEntries("error_type", Str(e.errorType), "message", Str(e.message), "retryable", Bool(e.retryable),
                "data", Obj(e.data));
  }

  /** What the orchestrator finds in ErrorData: the whole payload, or, when it was cut, nothing. */
  lemma ErrorDataArrives(b: Base, e: VmError)
    requires WellFormedBase(b) && WellFormedFields(e.data)
    ensures var raw := Dumps(Obj(FailurePayload(b, e)), Spaced);
            ErrorObject(Decode(Text(Prefix(raw, ERROR_DATA_LIMIT)))) ==
            if |raw| <= ERROR_DATA_LIMIT then ErrorFields(e) else Empty
  {
    var payload := FailurePayload(b, e);
    var raw := Dumps(Obj(payload), Spaced);
    ErrorIsProper(e);
    MessageIsProper(b, "error", Obj(ErrorFields(e)));
    if |raw| <= ERROR_DATA_LIMIT {
      LoadsOfDumps(Obj(payload), Spaced);
    } else {
      CutObjectDoesNotLoad(payload, Spaced, ERROR_DATA_LIMIT);
    }
  }

  predicate ErrorDataFits(b: Base, e: VmError) { |Dumps(Obj(FailurePayload(b, e)), Spaced)| <= ERROR_DATA_LIMIT }

  lemma FailureIsLongerThanMessage(b: Base, e: VmError)
    requires WellFormedBase(b) && WellFormedFields(e.data)
    ensures |Dumps(Obj(FailurePayload(b, e)), Spaced)| > |e.message|
  {
    ErrorIsProper(e);
    MessageIsProper(b, "error", Obj(ErrorFields(e)));
    StringWithin(FailurePayload(b, e), "error", ErrorFields(e), "message", e.message, Spaced);
  }

  /** A failure the VM reports reaches the orchestrator whole while its JSON fits 4096 characters, but for an empty
      type or message, which get a stand-in. Beyond that ErrorData is cut and can no longer be read: the type and
      the first 1024 characters of the message still arrive, the data is lost, and so is the retryable flag. */
  lemma ErrorReachesOrchestrator(b: Base, e: VmError, text: string)
    requires WellFormedBase(b) && WellFormedFields(e.data) && !(SDK_MODULE <= e.errorType)
    ensures var got := ErrorFrom(SendFailure(b, e, text));
            && got.errorType == Str(if e.errorType == "" then "Unknown" else e.errorType)
            && got.message == Str(if e.message == "" then text
                                  else if ErrorDataFits(b, e) then e.message else Prefix(e.message, MESSAGE_LIMIT))
            && got.retryable == (e.retryable && ErrorDataFits(b, e))
            && got.data == (if ErrorDataFits(b, e) then e.data else Empty)
  {
    ErrorDataArrives(b, e);
    ErrorIsProper(e);
    assert |Prefix(e.message, MESSAGE_LIMIT)| == 0 <==> |e.message| == 0;
  }

  lemma SummaryIsWellFormed(result: Json)
    ensures WellFormed(Summary(result))
  {
    var rest := More("summary", Str(Prefix(Dumps(result, Spaced), SUMMARY_LIMIT)), Empty);
    assert "truncated"[0] == 't' && "summary"[0] == 's';
    assert forall k :: rest.Has(k) <==> k == "summary";
    assert WellFormedFields(rest.rest);
    assert WellFormedFields(rest);
  }

  lemma DumpedResult(f: Fields, value: Json)
    requires WellFormedFields(f) && f.Has("result") && f.Get("result") == Some(value)
    ensures ResultOf(Text(Dumps(Obj(f), Spaced))) == value
  {
    LoadsOfDumps(Obj(f), Spaced);
  }

  lemma MessageResult(b: Base, value: Json)
    requires WellFormedBase(b) && WellFormed(value)
    ensures ResultOf(Text(Dumps(Obj(Message(b, "result", value)), Spaced))) == value
  {
    MessageIsProper(b, "result", value);
    DumpedResult(Message(b, "result", value), value);
  }

  /** A result comes back as the handler returned it, whatever JSON it is, while the payload fits 240 KiB; a larger
      one as the truncation notice. */
  lemma ResultReachesOrchestrator(b: Base, result: Json)
    requires WellFormedBase(b) && WellFormed(result)
    ensures var raw := Dumps(Obj(SuccessPayload(b, result)), Spaced);
            ResultOf(Text(raw)) ==
            if |Dumps(Obj(Message(b, "result", result)), Spaced)| <= RESULT_LIMIT then result else Summary(result)
  {
    SummaryIsWellFormed(result);
    MessageResult(b, result);
    MessageResult(b, Summary(result));
  }
}
