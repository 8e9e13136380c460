/**
 The lease payload: the encoder and decoder of microvm/lease.py, and the decoder the VM runs on its own copy
 (_decode_lease of microvm/hooks/server.py). Lease fields hold any JSON value, as Python's do; Null is None.
 */
module LeaseContract {
  import opened Common
  import opened Json

  datatype Lease = Lease(kind: Json, token: Json, region: Json, target: Json, heartbeat: Json, id: Json)

  datatype Outcome<T> = Ok(value: T) | ValueError | TypeError

  const PAYLOAD_LIMIT := 4096
  const TOKEN_LIMIT := 1024
  const US_EAST_1: Json := Str("us-east-1")

  // ---------------------------------------------------------------- Python's view of a value

  predicate HasNonzeroDigit(s: string) {
    |s| > 0 && s[0] != 'e' && s[0] != 'E' && ('1' <= s[0] <= '9' || HasNonzeroDigit(s[1..]))
  }

  predicate Truthy(j: Json) {
    match j
    case Null => false
    case Bool(b) => b
    case Int(n) => n != 0
    case Float(literal) => HasNonzeroDigit(literal)
    case Str(s) => |s| > 0
    case Arr(items) => items.Cons?
    case Obj(fields) => fields.More?
  }

  /** x or default */
  function OrElse(j: Json, default: Json): Json { if Truthy(j) then j else default }

  predicate IsNumber(j: Json) { j.Int? || j.Float? }

  predicate Positive(j: Json) {
    match j
    case Int(n) => n > 0
    case Float(literal) => |literal| > 0 && literal[0] != '-' && HasNonzeroDigit(literal)
    case _ => false
  }

  function CountItems(items: Items): nat { if items.Nil? then 0 else 1 + CountItems(items.tail) }
  function CountFields(fields: Fields): nat { if fields.Empty? then 0 else 1 + CountFields(fields.rest) }

  /** len(x); None where it raises TypeError. */
  function Len(j: Json): Option<nat> {
    match j
    case Str(s) => Some(|s|)
    case Arr(items) => Some(CountItems(items))
    case Obj(fields) => Some(CountFields(fields))
    case _ => None
  }

  predicate IsKind(j: Json) {
    j == Str("sfn") || j == Str("durable") || j == Str("http") || j == Str("sqs") || j == Str("eventbridge")
        || j == Str("none")
  }

  predicate NeedsTarget(kind: Json) { kind == Str("http") || kind == Str("sqs") || kind == Str("eventbridge") }

  /** str(target).startswith(("http://", "https://")): no value but a string can. */
  predicate IsHttpUrl(target: Json) { target.Str? && ("http://" <= target.s || "https://" <= target.s) }

  // ---------------------------------------------------------------- Lease

  function Validate(l: Lease): Outcome<()> {
    if !IsKind(l.kind) then ValueError
    else if l.kind != Str("none") && !Truthy(l.token) then ValueError
    else if Truthy(l.token) && Len(l.token).None? then TypeError
    else if Truthy(l.token) && Len(l.token).value > TOKEN_LIMIT then ValueError
    else if NeedsTarget(l.kind) && !Truthy(l.target) then ValueError
    else if l.kind == Str("http") && !IsHttpUrl(l.target) then ValueError
    else if !Truthy(l.region) || !l.region.Str? then ValueError
    else if !IsNumber(l.heartbeat) then ValueError
    else if !Positive(l.heartbeat) then ValueError
    else Ok(())
  }

  /** An entry of to_dict(): left out when the value is None. */
  function Entry(key: string, value: Json, rest: Fields): Fields {
    if value.Null? then rest else More(key, value, rest)
  }

  function ToDict(l: Lease): Fields {
    Entry("kind", l.kind, Entry("token", l.token, Entry("region", l.region,
    Entry("target", l.target, Entry("heartbeat_s", l.heartbeat, Entry("id", l.id, Empty))))))
  }

  predicate KnownKey(k: string) {
    k == "kind" || k == "token" || k == "region" || k == "target" || k == "heartbeat_s" || k == "id"
  }

  predicate OnlyKnownKeys(fields: Fields) {
    fields.More? ==> KnownKey(fields.key) && OnlyKnownKeys(fields.rest)
  }

  function FromDict(d: Json): Outcome<Lease> {
    if !d.Obj? then ValueError
    else if !d.fields.Has("kind") then ValueError
    else if !OnlyKnownKeys(d.fields) then ValueError
    else
      var l := Lease(
        d.fields.Get("kind").GetOr(Null),
        OrElse(d.fields.Get("token").GetOr(Null), Str("")),
        OrElse(d.fields.Get("region").GetOr(Null), US_EAST_1),
        d.fields.Get("target").GetOr(Null),
        d.fields.Get("heartbeat_s").GetOr(Int(30)),
        d.fields.Get("id").GetOr(Null));
      match Validate(l)
      case Ok(_) => Ok(l)
      case ValueError => ValueError
      case TypeError => TypeError
  }

  // ---------------------------------------------------------------- the payload

  function Payload(l: Lease, task: Fields): Json {
    Obj(More("lease", Obj(ToDict(l)), More("task", Obj(task), Empty)))
  }

  function EncodePayload(l: Lease, task: Fields): Outcome<string> {
    match Validate(l)
    case ValueError => ValueError
    case TypeError => TypeError
    case Ok(_) =>
      var raw := Dumps(Payload(l, task), Compact);
      if |raw| > PAYLOAD_LIMIT then ValueError else Ok(raw)
  }

  function DecodePayload(raw: string): Outcome<(Lease, Fields)> {
    if |raw| == 0 then ValueError
    else match Loads(raw)
      case None => ValueError
      case Some(obj) =>
        if !obj.Obj? || !obj.fields.Has("lease") then ValueError
        else
          var task := obj.fields.Get("task").GetOr(Obj(Empty));
          if !task.Obj? then ValueError
          else match FromDict(obj.fields.Get("lease").GetOr(Null)) {
            case ValueError => ValueError
            case TypeError => TypeError
            case Ok(l) => Ok((l, task.fields))
          }
  }

  // ---------------------------------------------------------------- the VM's decoder

  datatype VmDecoded = NotALease | Malformed | Accepted(lease: Fields, task: Fields)

  function SetDefault(fields: Fields, key: string, value: Json): Fields {
    if fields.Has(key) then fields else Append(fields, key, value)
  }

  function Append(fields: Fields, key: string, value: Json): Fields {
    if fields.Empty? then More(key, value, Empty) else More(fields.key, fields.value, Append(fields.rest, key, value))
  }

  /** lease["heartbeat_s"] = value, whether or not the key is there. */
  function Assign(fields: Fields, key: string, value: Json): Fields {
    if fields.Empty? then More(key, value, Empty)
    else if fields.key == key then More(key, value, fields.rest)
    else More(fields.key, fields.value, Assign(fields.rest, key, value))
  }

  function VmDecode(raw: string): VmDecoded {
    if |raw| == 0 then NotALease
    else match Loads(raw)
      case None => NotALease
      case Some(obj) =>
        if !obj.Obj? || !obj.fields.Has("lease") then NotALease
        else
          var lease := obj.fields.Get("lease").GetOr(Null);
          var task := obj.fields.Get("task").GetOr(Obj(Empty));
          if !lease.Obj? || !task.Obj? then Malformed
          else
            var kind := lease.fields.Get("kind").GetOr(Null);
            if !IsKind(kind) then Malformed
            else if kind != Str("none") && !Truthy(lease.fields.Get("token").GetOr(Null)) then Malformed
            else if NeedsTarget(kind) && !Truthy(lease.fields.Get("target").GetOr(Null)) then Malformed
            else
              var heartbeat := lease.fields.Get("heartbeat_s").GetOr(Int(30));
              if !IsNumber(heartbeat) || !Positive(heartbeat) then Malformed
              else Accepted(Assign(SetDefault(lease.fields, "region", US_EAST_1), "heartbeat_s", heartbeat),
                  task.fields)
  }

  // ---------------------------------------------------------------- reading back a dict

  lemma GetAppend(fields: Fields, key: string, value: Json, k: string)
    ensures Append(fields, key, value).Get(k) ==
            if fields.Get(k).Some? then fields.Get(k) else if k == key then Some(value) else None
  {
  }

  lemma GetAssign(fields: Fields, key: string, value: Json, k: string)
    ensures Assign(fields, key, value).Get(k) == if k == key then Some(value) else fields.Get(k)
  {
  }

  /** What the VM finds under each key of the lease it accepted. */
  lemma VmFields(fields: Fields, heartbeat: Json, k: string)
    ensures Assign(SetDefault(fields, "region", US_EAST_1), "heartbeat_s", heartbeat).Get(k) ==
            if k == "heartbeat_s" then Some(heartbeat)
            else if k == "region" && fields.Get("region").None? then Some(US_EAST_1)
            else fields.Get(k)
  {
    GetAbsent(fields, "region");
    GetAssign(SetDefault(fields, "region", US_EAST_1), "heartbeat_s", heartbeat, k);
    if !fields.Has("region") {
      GetAppend(fields, "region", US_EAST_1, k);
    }
  }

  lemma GetEntry(key: string, value: Json, rest: Fields, k: string)
    ensures Entry(key, value, rest).Get(k) == if k == key && !value.Null? then Some(value) else rest.Get(k)
  {
  }

  function FieldOf(l: Lease, k: string): Json {
    if k == "kind" then l.kind else if k == "token" then l.token else if k == "region" then l.region
    else if k == "target" then l.target else if k == "heartbeat_s" then l.heartbeat else if k == "id" then l.id
        else Null
  }

  /** to_dict() then get(): the field, or absent when it was None; nothing under any other key. */
  lemma ToDictGet(l: Lease, k: string)
    ensures ToDict(l).Get(k) == if FieldOf(l, k).Null? then None else Some(FieldOf(l, k))
  {
    DistinctKeys();
    var f6 := Entry("id", l.id, Empty);
    var f5 := Entry("heartbeat_s", l.heartbeat, f6);
    var f4 := Entry("target", l.target, f5);
    var f3 := Entry("region", l.region, f4);
    var f2 := Entry("token", l.token, f3);
    GetEntry("id", l.id, Empty, k);
    GetEntry("heartbeat_s", l.heartbeat, f6, k);
    GetEntry("target", l.target, f5, k);
    GetEntry("region", l.region, f4, k);
    GetEntry("token", l.token, f3, k);
    GetEntry("kind", l.kind, f2, k);
  }

  lemma EntryKeepsKnown(key: string, value: Json, rest: Fields)
    requires KnownKey(key) && OnlyKnownKeys(rest)
    ensures OnlyKnownKeys(Entry(key, value, rest))
  {
  }

  lemma EntryKeepsWellFormed(key: string, value: Json, rest: Fields)
    requires WellFormed(value) && WellFormedFields(rest) && rest.Get(key).None?
    ensures WellFormedFields(Entry(key, value, rest))
  {
    GetAbsent(rest, key);
  }

  ghost predicate WellFormedLease(l: Lease) {
    WellFormed(l.kind) && WellFormed(l.token) && WellFormed(l.region) && WellFormed(l.target)
        && WellFormed(l.heartbeat) && WellFormed(l.id)
  }

  /** None of the keys an inner entry may have written. */
  lemma EntryLeavesAbsent(key: string, value: Json, rest: Fields, k: string)
    requires rest.Get(k).None? && k != key
    ensures Entry(key, value, rest).Get(k).None?
  {
  }

  lemma ToDictIsProper(l: Lease)
    requires WellFormedLease(l)
    ensures WellFormedFields(ToDict(l)) && OnlyKnownKeys(ToDict(l))
  {
    DistinctKeys();
    var f6 := Entry("id", l.id, Empty);
    var f5 := Entry("heartbeat_s", l.heartbeat, f6);
    var f4 := Entry("target", l.target, f5);
    var f3 := Entry("region", l.region, f4);
    var f2 := Entry("token", l.token, f3);
    forall k | KnownKey(k) && k != "id" ensures f6.Get(k).None? { EntryLeavesAbsent("id", l.id, Empty, k); }
    EntryKeepsWellFormed("id", l.id, Empty);
    EntryKeepsKnown("id", l.id, Empty);
    EntryLeavesAbsent("heartbeat_s", l.heartbeat, f6, "target");
    EntryLeavesAbsent("heartbeat_s", l.heartbeat, f6, "region");
    EntryLeavesAbsent("heartbeat_s", l.heartbeat, f6, "token");
    EntryLeavesAbsent("heartbeat_s", l.heartbeat, f6, "kind");
    EntryKeepsWellFormed("heartbeat_s", l.heartbeat, f6);
    EntryKeepsKnown("heartbeat_s", l.heartbeat, f6);
    EntryLeavesAbsent("target", l.target, f5, "region");
    EntryLeavesAbsent("target", l.target, f5, "token");
    EntryLeavesAbsent("target", l.target, f5, "kind");
    EntryKeepsWellFormed("target", l.target, f5);
    EntryKeepsKnown("target", l.target, f5);
    EntryLeavesAbsent("region", l.region, f4, "token");
    EntryLeavesAbsent("region", l.region, f4, "kind");
    EntryKeepsWellFormed("region", l.region, f4);
    EntryKeepsKnown("region", l.region, f4);
    EntryLeavesAbsent("token", l.token, f3, "kind");
    EntryKeepsWellFormed("token", l.token, f3);
    EntryKeepsKnown("token", l.token, f3);
    EntryKeepsWellFormed("kind", l.kind, f2);
    EntryKeepsKnown("kind", l.kind, f2);
  }

  lemma DistinctKeys()
    ensures "kind" != "token" && "kind" != "region" && "kind" != "target" && "kind" != "heartbeat_s" && "kind" != "id"
    ensures "token" != "region" && "token" != "target" && "token" != "heartbeat_s" && "token" != "id"
    ensures "region" != "target" && "region" != "heartbeat_s" && "region" != "id"
    ensures "target" != "heartbeat_s" && "target" != "id" && "heartbeat_s" != "id" && "lease" != "task"
  {
    assert |"kind"| == 4 && |"token"| == 5 && |"region"| == 6 && |"heartbeat_s"| == 11 && |"id"| == 2;
    assert "region"[0] == 'r' && "target"[0] == 't' && "lease"[0] == 'l' && "task"[0] == 't';
  }

  // ---------------------------------------------------------------- round trips

  /** What from_dict makes of the token of a lease: a falsy one comes back as "". */
  function Normal(l: Lease): Lease { l.(token := OrElse(l.token, Str(""))) }

  lemma FromToDict(l: Lease)
    requires WellFormedLease(l) && Validate(l) == Ok(())
    ensures FromDict(Obj(ToDict(l))) == Ok(Normal(l))
  {
    ToDictIsProper(l);
    DistinctKeys();
    ToDictGet(l, "kind");
    ToDictGet(l, "token");
    ToDictGet(l, "region");
    ToDictGet(l, "target");
    ToDictGet(l, "heartbeat_s");
    ToDictGet(l, "id");
    GetAbsent(ToDict(l), "kind");
    assert Validate(Normal(l)) == Ok(());
  }

  lemma PayloadGet(l: Lease, task: Fields)
    ensures Payload(l, task).fields.Get("lease") == Some(Obj(ToDict(l))) && Payload(l, task).fields.Has("lease")
    ensures Payload(l, task).fields.Get("task") == Some(Obj(task))
  {
    DistinctKeys();
  }

  lemma PayloadIsWellFormed(lease: Fields, task: Fields)
    requires WellFormedFields(lease) && WellFormedFields(task)
    ensures WellFormed(Obj(More("lease", Obj(lease), More("task", Obj(task), Empty))))
  {
    DistinctKeys();
    TwoEntries("lease", Obj(lease), "task", Obj(task));
  }

  lemma TwoEntries(k1: string, v1: Json, k2: string, v2: Json)
    requires WellFormed(v1) && WellFormed(v2) && k1 != k2
    ensures WellFormedFields(More(k1, v1, More(k2, v2, Empty)))
  {
    var rest := More(k2, v2, Empty);
    assert forall k :: rest.Has(k) <==> k == k2;
    assert WellFormedFields(rest);
  }

  lemma LoadsPayload(l: Lease, task: Fields)
    requires WellFormedLease(l) && WellFormedFields(task)
    ensures Loads(Dumps(Payload(l, task), Compact)) == Some(Payload(l, task))
    ensures |Dumps(Payload(l, task), Compact)| > 0
  {
    ToDictIsProper(l);
    DistinctKeys();
    PayloadIsWellFormed(ToDict(l), task);
    LoadsOfDumps(Payload(l, task), Compact);
    DumpStarts(Payload(l, task), Compact);
  }

  /** Encoding succeeds exactly for a valid lease whose payload fits 4096 characters; what it produces decodes
      to the same task and the same lease, up to the token: the lease comes back unchanged if and only if its
      token is truthy or the empty string. */
  lemma EncodeDecode(l: Lease, task: Fields)
    requires WellFormedLease(l) && WellFormedFields(task)
    ensures var raw := Dumps(Payload(l, task), Compact);
            EncodePayload(l, task) == Ok(raw) <==> Validate(l) == Ok(()) && |raw| <= PAYLOAD_LIMIT
    ensures EncodePayload(l, task).Ok? ==>
              && DecodePayload(EncodePayload(l, task).value) == Ok((Normal(l), task))
              && (Normal(l) == l <==> Truthy(l.token) || l.token == Str(""))
  {
    if EncodePayload(l, task).Ok? {
      LoadsPayload(l, task);
      PayloadGet(l, task);
      FromToDict(l);
    }
  }

  /** A valid lease with a token of 0 comes back from its dict with the empty string. */
  lemma ZeroTokenIsNotKept()
    ensures var l := Lease(Str("none"), Int(0), US_EAST_1, Null, Int(30), Null);
            Validate(l) == Ok(()) && FromDict(Obj(ToDict(l))) == Ok(l.(token := Str("")))
  {
    var l := Lease(Str("none"), Int(0), US_EAST_1, Null, Int(30), Null);
    FromToDict(l);
  }

  // ---------------------------------------------------------------- the two decoders agree

  /** The lease dict of a payload. */
  function LeaseDict(raw: string): Fields {
    match Loads(raw)
    case Some(Obj(fields)) => (match fields.Get("lease") case Some(Obj(lease)) => lease case _ => Empty)
    case _ => Empty
  }

  /** Every payload decode_payload accepts is accepted by the VM, with the same task, kind, target, id and
      heartbeat. The token agrees unless the payload holds a falsy one other than "", the region unless the
      payload holds a falsy one. */
  lemma VmAcceptsWhatDecodeAccepts(raw: string)
    requires DecodePayload(raw).Ok?
    ensures var (l, task) := DecodePayload(raw).value;
            var dict := LeaseDict(raw);
            var vm := VmDecode(raw);
            && vm.Accepted? && vm.task == task
            && vm.lease.Get("kind") == Some(l.kind)
            && vm.lease.Get("target").GetOr(Null) == l.target
            && vm.lease.Get("id").GetOr(Null) == l.id
            && vm.lease.Get("heartbeat_s") == Some(l.heartbeat)
            && (vm.lease.Get("token").GetOr(Str("")) == l.token <==>
                  Truthy(dict.Get("token").GetOr(Null)) || dict.Get("token").GetOr(Str("")) == Str(""))
            && (vm.lease.Get("region") == Some(l.region) <==> Truthy(dict.Get("region").GetOr(US_EAST_1)))
  {
    var (l, task) := DecodePayload(raw).value;
    var dict := LeaseDict(raw);
    DistinctKeys();
    GetAbsent(Loads(raw).value.fields, "lease");
    GetAbsent(dict, "kind");
    assert FromDict(Obj(dict)) == Ok(l);
    VmFields(dict, l.heartbeat, "kind");
    VmFields(dict, l.heartbeat, "token");
    VmFields(dict, l.heartbeat, "region");
    VmFields(dict, l.heartbeat, "target");
    VmFields(dict, l.heartbeat, "heartbeat_s");
    VmFields(dict, l.heartbeat, "id");
    assert Validate(l) == Ok(());
  }

  /** The lease as the VM keeps it. */
  function VmLease(l: Lease): Fields { Assign(SetDefault(ToDict(l), "region", US_EAST_1), "heartbeat_s", l.heartbeat) }

  lemma VmReads(raw: string, fields: Fields, lease: Fields, task: Fields)
    requires Loads(raw) == Some(Obj(fields)) && VmDecode(raw).Accepted?
    requires fields.Get("lease") == Some(Obj(lease)) && fields.Get("task") == Some(Obj(task))
    ensures var heartbeat := lease.Get("heartbeat_s").GetOr(Int(30));
            VmDecode(raw) == Accepted(Assign(SetDefault(lease, "region", US_EAST_1), "heartbeat_s", heartbeat), task)
  {
  }

  lemma EncodedLease(l: Lease, task: Fields)
    requires WellFormedLease(l) && WellFormedFields(task) && EncodePayload(l, task).Ok?
    ensures VmDecode(EncodePayload(l, task).value) == Accepted(VmLease(l), task)
  {
    EncodeDecode(l, task);
    LoadsPayload(l, task);
    PayloadGet(l, task);
    var raw := EncodePayload(l, task).value;
    VmAcceptsWhatDecodeAccepts(raw);
    VmReads(raw, Payload(l, task).fields, ToDict(l), task);
    ToDictGet(l, "heartbeat_s");
  }

  /** A payload the encoder produced reaches the VM with every field as the control plane set it; a None or
      otherwise falsy token included. */
  lemma EncodedReachesVm(l: Lease, task: Fields)
    requires WellFormedLease(l) && WellFormedFields(task) && EncodePayload(l, task).Ok?
    ensures var vm := VmDecode(EncodePayload(l, task).value);
            && vm.Accepted? && vm.task == task
            && forall k :: KnownKey(k) ==> vm.lease.Get(k).GetOr(Null) == FieldOf(l, k)
  {
    EncodedLease(l, task);
    DistinctKeys();
    ToDictGet(l, "region");
    forall k | KnownKey(k)
      ensures VmLease(l).Get(k).GetOr(Null) == FieldOf(l, k)
    {
      ToDictGet(l, k);
      VmFields(ToDict(l), l.heartbeat, k);
    }
  }
}
