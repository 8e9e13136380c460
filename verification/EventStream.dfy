/**
 The event stream: what _events of microvm/hooks/server.py writes and what EndpointClient.watch of
 microvm/endpoint.py yields from it (fields and lines as in section 9.2 of the WHATWG HTML Standard). The stream
 may be cut at any character.
 */
module EventStream {
  import opened Common
  import opened Json
  import opened JsonPrefix
  import opened LeaseContract
  import opened Lines
  import opened Telemetry
  import opened Text

  /** One frame; named for the snapshots, whose frame has an event field. */
  datatype Event = Event(named: bool, fields: Fields)

  function Name(named: bool): string { if named then "event: snapshot" + ['\n'] else "" }

  function Data(e: Event): string { "data: " + Dumps(Obj(e.fields), Spaced) }

  function Framed(named: bool, data: string): string { Name(named) + (data + ['\n', '\n']) }

  function Frame(e: Event): string { Framed(e.named, Data(e)) }

  function Stream(events: seq<Event>): string {
    if |events| == 0 then "" else Frame(events[0]) + Stream(events[1..])
  }

  // ---------------------------------------------------------------- the reader

  /** What watch makes of one line: nothing unless it is a data field holding JSON. */
  function Payload(line: string): Option<Json> {
    if "data:" <= line then Loads(Strip(line[5..])) else None
  }

  function Payloads(lines: seq<string>): seq<Json> {
    if |lines| == 0 then []
    else (if Payload(lines[0]).Some? then [Payload(lines[0]).value] else []) + Payloads(lines[1..])
  }

  /** An object whose lease is an object with a truthy done. */
  predicate Done(j: Json) {
    j.Obj? &&
    match j.fields.Get("lease")
    case Some(Obj(lease)) => Truthy(lease.Get("done").GetOr(Null))
    case _ => false
  }

  /** Everything up to the first object whose lease is done, that one included. */
  function UpToDone(objects: seq<Json>): seq<Json> {
    if |objects| == 0 then [] else if Done(objects[0]) then [objects[0]] else [objects[0]] + UpToDone(objects[1..])
  }

  /** What is still to be yielded from line i on. */
  ghost function Pending(lines: seq<string>, i: nat): seq<Json>
    requires i <= |lines|
    decreases |lines| - i
  {
    if i == |lines| then []
    else match Payload(lines[i])
      case None => Pending(lines, i + 1)
      case Some(j) => if Done(j) then [j] else [j] + Pending(lines, i + 1)
  }

  lemma UpToDoneFrom(obj: Json, more: seq<Json>)
    ensures UpToDone([obj] + more) == if Done(obj) then [obj] else [obj] + UpToDone(more)
  {
    assert ([obj] + more)[1..] == more;
  }

  lemma {:induction false} PendingIs(lines: seq<string>, i: nat)
    requires i <= |lines|
    ensures Pending(lines, i) == UpToDone(Payloads(lines[i..]))
    decreases |lines| - i
  {
    if i < |lines| {
      PendingIs(lines, i + 1);
      assert lines[i..][0] == lines[i] && lines[i..][1..] == lines[i + 1..];
      if Payload(lines[i]).Some? {
        assert Payloads(lines[i..]) == [Payload(lines[i]).value] + Payloads(lines[i + 1..]);
        UpToDoneFrom(Payload(lines[i]).value, Payloads(lines[i + 1..]));
      } else {
        assert Payloads(lines[i..]) == Payloads(lines[i + 1..]);
      }
    }
  }

  /** One line of the loop: the object it yields, if any, and whether the loop goes on. */
  method ReadLine(line: string) returns (found: seq<Json>, again: bool)
    ensures found == if Payload(line).Some? then [Payload(line).value] else []
    ensures again <==> Payload(line).None? || !Done(Payload(line).value)
  {
    if !("data:" <= line) { return [], true; }
    var parsed := Loads(Strip(line[5..]));
    if parsed.None? { return [], true; }
    return [parsed.value], !Done(parsed.value);
  }

  /** EndpointClient.watch over the lines of the response. */
  method Watch(lines: seq<string>) returns (yielded: seq<Json>)
    ensures yielded == UpToDone(Payloads(lines))
  {
    yielded := [];
    PendingIs(lines, 0);
    assert lines[0..] == lines;
    for i := 0 to |lines|
      invariant Pending(lines, 0) == yielded + Pending(lines, i)
    {
      var found, again := ReadLine(lines[i]);
      yielded := yielded + found;
      if !again { return; }
    }
  }

  // ---------------------------------------------------------------- printed values are one line

  ghost predicate Printable(s: string) { forall k :: 0 <= k < |s| ==> ' ' <= s[k] <= '~' }

  lemma JoinPrintable(a: string, b: string)
    requires Printable(a) && Printable(b)
    ensures Printable(a + b)
  {
  }

  lemma {:induction false} EscapeIsPrintable(s: string)
    ensures Printable(Escape(s))
  {
    if |s| > 0 {
      EscapeIsPrintable(s[1..]);
      CharIsPrintable(s[0]);
      JoinPrintable(EscapeChar(s[0]), Escape(s[1..]));
    }
  }

  lemma HexIsPrintable(n: nat)
    requires n < 0x10000
    ensures Printable(Hex4(n))
  {
    assert forall k :: 0 <= k < 16 ==> ' ' <= HEX[k] <= '~';
  }

  lemma UnitIsPrintable(n: nat)
    requires n < 0x10000
    ensures Printable(['\\', 'u'] + Hex4(n))
  {
    HexIsPrintable(n);
  }

  lemma CharIsPrintable(c: char)
    ensures Printable(EscapeChar(c))
  {
    var n := c as int;
    if n < 0x10000 {
      UnitIsPrintable(n);
    } else {
      UnitIsPrintable(High(n));
      UnitIsPrintable(Low(n));
      JoinPrintable(['\\', 'u'] + Hex4(High(n)), ['\\', 'u'] + Hex4(Low(n)));
    }
  }

  lemma QuoteIsPrintable(s: string)
    ensures Printable(Quote(s))
  {
    EscapeIsPrintable(s);
  }

  lemma IntIsPrintable(n: int)
    ensures Printable(DumpInt(n))
  {
  }

  lemma FloatIsPrintable(s: string)
    requires IsFloatLiteral(s)
    ensures Printable(s)
  {
    FloatChars(s);
    assert forall c: char :: IsNumberChar(c) ==> ' ' <= c <= '~';
  }

  lemma ScalarIsPrintable(j: Json)
    requires WellFormed(j) && !j.Arr? && !j.Obj?
    ensures Printable(Dumps(j, Spaced))
  {
    match j
    case Null => assert Printable("null");
    case Bool(_) => assert Printable("true") && Printable("false");
    case Int(n) => IntIsPrintable(n);
    case Float(literal) => FloatIsPrintable(literal);
    case Str(s) => QuoteIsPrintable(s);
  }

  lemma {:induction false} DumpsIsPrintable(j: Json)
    requires WellFormed(j)
    ensures Printable(Dumps(j, Spaced))
    decreases j, 0
  {
    match j
    case Arr(items) =>
      if items.Cons? {
        DumpsIsPrintable(items.head);
        ItemsArePrintable(items.tail);
        JoinPrintable(Dumps(items.head, Spaced), DumpItems(items.tail, Spaced));
        JoinPrintable("[", Dumps(items.head, Spaced) + DumpItems(items.tail, Spaced));
      }
    case Obj(fields) =>
      if fields.More? {
        EntryIsPrintable(fields.key, fields.value);
        FieldsArePrintable(fields.rest);
        JoinPrintable(DumpEntry(fields.key, fields.value, Spaced), DumpFields(fields.rest, Spaced));
        JoinPrintable("{", DumpEntry(fields.key, fields.value, Spaced) + DumpFields(fields.rest, Spaced));
      }
    case _ => ScalarIsPrintable(j);
  }

  lemma {:induction false} ItemsArePrintable(items: Items)
    requires WellFormedItems(items)
    ensures Printable(DumpItems(items, Spaced))
    decreases items, 0
  {
    if items.Cons? {
      DumpsIsPrintable(items.head);
      ItemsArePrintable(items.tail);
      JoinPrintable(Dumps(items.head, Spaced), DumpItems(items.tail, Spaced));
      JoinPrintable(", ", Dumps(items.head, Spaced) + DumpItems(items.tail, Spaced));
    }
  }

  lemma {:induction false} EntryIsPrintable(k: string, v: Json)
    requires WellFormed(v)
    ensures Printable(DumpEntry(k, v, Spaced))
    decreases v, 1
  {
    QuoteIsPrintable(k);
    DumpsIsPrintable(v);
    JoinPrintable(": ", Dumps(v, Spaced));
    JoinPrintable(Quote(k), ": " + Dumps(v, Spaced));
  }

  lemma {:induction false} FieldsArePrintable(fields: Fields)
    requires WellFormedFields(fields)
    ensures Printable(DumpFields(fields, Spaced))
    decreases fields, 0
  {
    if fields.More? {
      EntryIsPrintable(fields.key, fields.value);
      FieldsArePrintable(fields.rest);
      JoinPrintable(DumpEntry(fields.key, fields.value, Spaced), DumpFields(fields.rest, Spaced));
      JoinPrintable(", ", DumpEntry(fields.key, fields.value, Spaced) + DumpFields(fields.rest, Spaced));
    }
  }

  lemma {:induction false} FieldsEnd(fields: Fields)
    ensures var s := DumpFields(fields, Spaced); |s| > 0 && s[|s| - 1] == '}'
  {
    if fields.More? {
      FieldsEnd(fields.rest);
    }
  }

  lemma ObjectEnds(fields: Fields)
    ensures var s := Dumps(Obj(fields), Spaced); |s| > 0 && s[0] == '{' && s[|s| - 1] == '}'
  {
    if fields.More? {
      FieldsEnd(fields.rest);
    }
  }

  // ---------------------------------------------------------------- frames

  lemma DataIsOneLine(e: Event, m: nat)
    requires WellFormedFields(e.fields) && m <= |Data(e)|
    ensures OneLine(Data(e)[..m], OfBytes)
  {
    DumpsIsPrintable(Obj(e.fields));
    JoinPrintable("data: ", Dumps(Obj(e.fields), Spaced));
  }

  /** The payload of a data field whose JSON is cut after k characters. */
  lemma CutPayload(fields: Fields, k: nat)
    requires WellFormedFields(fields) && k <= |Dumps(Obj(fields), Spaced)|
    ensures Loads(Strip([' '] + Dumps(Obj(fields), Spaced)[..k])) ==
            if k == |Dumps(Obj(fields), Spaced)| then Some(Obj(fields)) else None
  {
    var text := Dumps(Obj(fields), Spaced);
    ObjectEnds(fields);
    StripCut(text, k);
    if k == |text| {
      LoadsOfDumps(Obj(fields), Spaced);
    } else {
      CutObjectDoesNotLoad(fields, Spaced, |Strip([' '] + text[..k])|);
    }
  }

  lemma CutField(text: string, m: nat)
    requires m <= 6 + |text|
    ensures var cut := ("data: " + text)[..m];
            if m < 5 then !("data:" <= cut)
            else "data:" <= cut && cut[5..] == if m == 5 then "" else [' '] + text[..m - 6]
  {
    var cut := ("data: " + text)[..m];
    if m >= 6 {
      assert cut == "data: " + text[..m - 6];
      assert cut[5..] == [' '] + text[..m - 6];
    } else if m == 5 {
      assert cut == "data:";
    }
  }

  /** A data field, whole or cut short, on a line of its own. */
  lemma CutData(e: Event, m: nat)
    requires WellFormedFields(e.fields) && m <= |Data(e)|
    ensures Payload(Data(e)[..m]) == if m == |Data(e)| then Some(Obj(e.fields)) else None
  {
    var text := Dumps(Obj(e.fields), Spaced);
    CutField(text, m);
    if m >= 6 {
      CutPayload(e.fields, m - 6);
    }
  }

  lemma StripCut(text: string, k: nat)
    requires k <= |text| && |text| > 0 && text[0] == '{' && text[|text| - 1] == '}'
    ensures var s := Strip([' '] + text[..k]); |s| <= k && s == text[..|s|] && (k == |text| ==> s == text)
  {
    var s := [' '] + text[..k];
    assert s[1..] == text[..k];
    if k > 0 {
      assert StripLeft(text[..k]) == text[..k];
    }
    assert text[..|text|] == text;
  }

  lemma OnePayload(line: string, j: Json, more: seq<string>)
    requires Payload(line) == Some(j)
    ensures Payloads([line] + more) == [j] + Payloads(more)
  {
  }

  lemma NoPayload(line: string, more: seq<string>)
    requires Payload(line).None?
    ensures Payloads([line] + more) == Payloads(more)
  {
  }

  /** The event field of a snapshot gives watch nothing. */
  lemma NamePasses(named: bool, tail: string)
    ensures Payloads(SplitLines(Name(named) + tail, OfBytes)) == Payloads(SplitLines(tail, OfBytes))
  {
    if named {
      var name := "event: snapshot";
      assert OneLine(name, OfBytes) && name[0] == 'e';
      assert Name(named) + tail == name + (['\n'] + tail);
      FirstLine(name, tail, OfBytes);
      NoPayload(name, SplitLines(tail, OfBytes));
    } else {
      assert Name(named) + tail == tail;
    }
  }

  lemma FrameText(name: string, data: string, rest: string)
    ensures name + (data + ['\n', '\n']) + rest == name + (data + (['\n'] + ("" + (['\n'] + rest))))
  {
  }

  /** A data line, its empty line, and what follows, after the event field if there is one. */
  lemma LinesOfFrame(named: bool, data: string, j: Json, rest: string)
    requires OneLine(data, OfBytes) && Payload(data) == Some(j)
    ensures Payloads(SplitLines(Framed(named, data) + rest, OfBytes)) == [j] + Payloads(SplitLines(rest, OfBytes))
  {
    var after := "" + (['\n'] + rest);
    FirstLine("", rest, OfBytes);
    FirstLine(data, after, OfBytes);
    OnePayload(data, j, [""] + SplitLines(rest, OfBytes));
    NoPayload("", SplitLines(rest, OfBytes));
    FrameText(Name(named), data, rest);
    NamePasses(named, data + (['\n'] + after));
  }

  lemma FrameLines(e: Event, rest: string)
    requires WellFormedFields(e.fields)
    ensures Payloads(SplitLines(Frame(e) + rest, OfBytes)) == [Obj(e.fields)] + Payloads(SplitLines(rest, OfBytes))
  {
    CutData(e, |Data(e)|);
    DataIsOneLine(e, |Data(e)|);
    assert Data(e)[..|Data(e)|] == Data(e);
    LinesOfFrame(e.named, Data(e), Obj(e.fields), rest);
  }

  lemma CutInName(named: bool, data: string, n: nat)
    requires n < |Name(named)|
    ensures Payloads(SplitLines(Framed(named, data)[..n], OfBytes)) == []
  {
    var name := "event: snapshot";
    assert Framed(named, data)[..n] == name[..n];
    assert OneLine(name, OfBytes) && name[0] == 'e';
    LastLine(name[..n], OfBytes);
  }

  lemma CutInData(named: bool, data: string, n: nat)
    requires OneLine(data, OfBytes) && |Name(named)| <= n <= |Name(named)| + |data|
    ensures Payloads(SplitLines(Framed(named, data)[..n], OfBytes)) == Payloads([data[..n - |Name(named)|]])
  {
    var cut := data[..n - |Name(named)|];
    assert Framed(named, data)[..n] == Name(named) + cut;
    LastLine(cut, OfBytes);
    NamePasses(named, cut);
  }

  lemma CutAfterData(named: bool, data: string, n: nat)
    requires OneLine(data, OfBytes) && n == |Name(named)| + |data| + 1
    ensures Payloads(SplitLines(Framed(named, data)[..n], OfBytes)) == Payloads([data])
  {
    assert Framed(named, data)[..n] == Name(named) + (data + (['\n'] + ""));
    FirstLine(data, "", OfBytes);
    NamePasses(named, data + (['\n'] + ""));
  }

  lemma CutFrame(e: Event, n: nat)
    requires WellFormedFields(e.fields) && n < |Frame(e)|
    ensures Payloads(SplitLines(Frame(e)[..n], OfBytes)) ==
            if n < |Name(e.named)| + |Data(e)| then [] else [Obj(e.fields)]
  {
    var data := Data(e);
    DataIsOneLine(e, |data|);
    assert data[..|data|] == data;
    if n < |Name(e.named)| {
      CutInName(e.named, data, n);
    } else if n <= |Name(e.named)| + |data| {
      CutData(e, n - |Name(e.named)|);
      CutInData(e.named, data, n);
    } else {
      CutData(e, |data|);
      CutAfterData(e.named, data, n);
    }
  }

  lemma CutJoin(f: string, s: string, n: nat)
    requires n <= |f| + |s|
    ensures (f + s)[..n] == if n >= |f| then f + s[..n - |f|] else f[..n]
  {
  }

  // ---------------------------------------------------------------- the stream

  ghost predicate AllWellFormed(events: seq<Event>) {
    forall k :: 0 <= k < |events| ==> WellFormedFields(events[k].fields)
  }

  function Objects(events: seq<Event>): seq<Json> {
    if |events| == 0 then [] else [Obj(events[0].fields)] + Objects(events[1..])
  }

  /** How many events have their whole data field in the first n characters. */
  function Complete(events: seq<Event>, n: int): (k: nat)
    ensures k <= |events|
    ensures n >= |Stream(events)| ==> k == |events|
  {
    if |events| == 0 || n < |Name(events[0].named)| + |Data(events[0])| then 0
    else 1 + Complete(events[1..], n - |Frame(events[0])|)
  }

  lemma ObjectsOfPrefix(events: seq<Event>, k: nat)
    requires k < |events|
    ensures Objects(events[..k + 1]) == [Obj(events[0].fields)] + Objects(events[1..][..k])
  {
    assert events[..k + 1][1..] == events[1..][..k];
  }

  lemma {:induction false} CutStream(events: seq<Event>, n: nat)
    requires AllWellFormed(events) && n <= |Stream(events)|
    ensures Payloads(SplitLines(Stream(events)[..n], OfBytes)) == Objects(events[..Complete(events, n)])
    decreases |events|
  {
    if |events| > 0 {
      var f, rest := Frame(events[0]), events[1..];
      CutJoin(f, Stream(rest), n);
      if n >= |f| {
        CutStream(rest, n - |f|);
        FrameLines(events[0], Stream(rest)[..n - |f|]);
        ObjectsOfPrefix(events, Complete(rest, n - |f|));
      } else {
        CutFrame(events[0], n);
        CompleteOfNegative(rest, n - |f|);
        ObjectsOfPrefix(events, 0);
      }
    }
  }

  lemma CompleteOfNegative(events: seq<Event>, n: int)
    requires n < 0
    ensures Complete(events, n) == 0
  {
  }

  // ---------------------------------------------------------------- the writer

  /** {"seq": ..., ...} with the caller's data under the keys still free. */
  function EntryFields(e: Entry): Fields {
    Adopt(More("seq", Int(e.seqNo), More("t", Str(e.t), More("level", Str(e.level), More("msg", Str(e.msg),
      More("phase", Str(e.phase), Empty))))), e.data)
  }

  function Adopt(base: Fields, data: Fields): Fields
    decreases data
  {
    if data.Empty? then base else Adopt(SetDefault(base, data.key, data.value), data.rest)
  }

  function EntryEvents(entries: seq<Entry>): seq<Event> {
    if |entries| == 0 then [] else [Event(false, EntryFields(entries[0]))] + EntryEvents(entries[1..])
  }

  /** One turn of the loop of _events: the snapshot if one is due, and how much was logged when it looked. */
  datatype Turn = Turn(snapshot: Option<Fields>, logged: nat)

  function Logged(turns: seq<Turn>): seq<nat> {
    if |turns| == 0 then [] else [turns[0].logged] + Logged(turns[1..])
  }

  /** The log only grows, up to total entries. */
  ghost predicate Grows(c: nat, turns: seq<Turn>, total: nat)
    decreases |turns|
  {
    |turns| > 0 ==> c <= turns[0].logged <= total && Grows(turns[0].logged, turns[1..], total)
  }

  function TurnEvents(log: seq<Entry>, c: nat, turn: Turn): seq<Event>
    requires turn.logged <= |log|
  {
    (if turn.snapshot.Some? then [Event(true, turn.snapshot.value)] else []) +
    EntryEvents(log[Begin(turn.logged, Some(c))..turn.logged])
  }

  /** What the turns write, for a client that connected after c entries. */
  ghost function Written(log: seq<Entry>, c: nat, turns: seq<Turn>): seq<Event>
    requires Grows(c, turns, |log|)
    decreases |turns|
  {
    if |turns| == 0 then [] else TurnEvents(log, c, turns[0]) + Written(log, turns[0].logged, turns[1..])
  }

  lemma {:induction false} StreamJoin(a: seq<Event>, b: seq<Event>)
    ensures Stream(a + b) == Stream(a) + Stream(b)
  {
    if |a| == 0 {
      assert a + b == b;
    } else {
      assert (a + b)[1..] == a[1..] + b;
      StreamJoin(a[1..], b);
    }
  }

  /** The entries a turn found, and the cursor it leaves. */
  method WriteEntries(found: seq<Entry>, after: nat) returns (text: string, cursor: nat)
    ensures text == Stream(EntryEvents(found))
    ensures cursor == if |found| == 0 then after else found[|found| - 1].seqNo
  {
    text, cursor := "", after;
    for i := 0 to |found|
      invariant Stream(EntryEvents(found)) == text + Stream(EntryEvents(found[i..]))
      invariant cursor == if i == 0 then after else found[i - 1].seqNo
    {
      assert found[i..][1..] == found[i + 1..];
      var event := Event(false, EntryFields(found[i]));
      assert EntryEvents(found[i..])[1..] == EntryEvents(found[i + 1..]);
      cursor := found[i].seqNo;
      text := text + Frame(event);
    }
  }

  /** One turn of _events, for a client at the given cursor. */
  method WriteTurn(log: seq<Entry>, at: nat, turn: Turn) returns (text: string, cursor: nat)
    requires Numbered(log, 0) && at <= turn.logged <= |log|
    ensures text == Stream(TurnEvents(log, at, turn)) && cursor == turn.logged
  {
    text := "";
    ghost var head := [];
    if turn.snapshot.Some? {
      var event := Event(true, turn.snapshot.value);
      text := Frame(event);
      head := [event];
      assert head[1..] == [] && text == Stream(head);
    }
    FoundIsSuffix(log[..turn.logged], Some(at));
    var found := Found(log[..turn.logged], Some(at));
    assert found == log[Begin(turn.logged, Some(at))..turn.logged];
    var entries;
    entries, cursor := WriteEntries(found, at);
    text := text + entries;
    StreamJoin(head, EntryEvents(found));
  }

  /** The text of the turns from i on. */
  ghost function Rest(log: seq<Entry>, c: nat, turns: seq<Turn>, i: nat): string
    requires i <= |turns| && Grows(c, turns[i..], |log|)
  {
    Stream(Written(log, c, turns[i..]))
  }

  lemma WrittenFrom(log: seq<Entry>, c: nat, turns: seq<Turn>, i: nat)
    requires i < |turns| && Grows(c, turns[i..], |log|)
    ensures c <= turns[i].logged <= |log| && Grows(turns[i].logged, turns[i + 1..], |log|)
    ensures Rest(log, c, turns, i) == Stream(TurnEvents(log, c, turns[i])) + Rest(log, turns[i].logged, turns, i + 1)
  {
    assert turns[i..][0] == turns[i] && turns[i..][1..] == turns[i + 1..];
    StreamJoin(TurnEvents(log, c, turns[i]), Written(log, turns[i].logged, turns[i + 1..]));
  }

  /** _events, for as long as the client stays. */
  method WriteEvents(log: seq<Entry>, connectedAt: nat, turns: seq<Turn>) returns (text: string)
    requires Numbered(log, 0) && Grows(connectedAt, turns, |log|)
    ensures text == Stream(Written(log, connectedAt, turns))
  {
    text := "";
    var cursor := connectedAt;
    assert turns[0..] == turns;
    ghost var all := Rest(log, connectedAt, turns, 0);
    for i := 0 to |turns|
      invariant Grows(cursor, turns[i..], |log|) && all == text + Rest(log, cursor, turns, i)
    {
      WrittenFrom(log, cursor, turns, i);
      var more, next := WriteTurn(log, cursor, turns[i]);
      text, cursor := text + more, next;
    }
  }

  /** The events that are not snapshots. */
  function Unnamed(events: seq<Event>): seq<Event> {
    if |events| == 0 then [] else (if events[0].named then [] else [events[0]]) + Unnamed(events[1..])
  }

  lemma {:induction false} UnnamedJoin(a: seq<Event>, b: seq<Event>)
    ensures Unnamed(a + b) == Unnamed(a) + Unnamed(b)
  {
    if |a| == 0 {
      assert a + b == b;
    } else {
      assert (a + b)[1..] == a[1..] + b;
      UnnamedJoin(a[1..], b);
    }
  }

  lemma {:induction false} EntriesAreUnnamed(entries: seq<Entry>)
    ensures Unnamed(EntryEvents(entries)) == EntryEvents(entries)
  {
    if |entries| > 0 {
      EntriesAreUnnamed(entries[1..]);
      assert EntryEvents(entries)[1..] == EntryEvents(entries[1..]);
    }
  }

  lemma {:induction false} EntryEventsJoin(a: seq<Entry>, b: seq<Entry>)
    ensures EntryEvents(a + b) == EntryEvents(a) + EntryEvents(b)
  {
    if |a| == 0 {
      assert a + b == b;
    } else {
      assert (a + b)[1..] == a[1..] + b;
      EntryEventsJoin(a[1..], b);
    }
  }

  lemma {:induction false} GrowsMeansNondecreasing(c: nat, turns: seq<Turn>, total: nat)
    requires Grows(c, turns, total) && c <= total
    ensures Nondecreasing(c, Logged(turns)) && Reached(c, Logged(turns)) <= total
    decreases |turns|
  {
    if |turns| > 0 {
      GrowsMeansNondecreasing(turns[0].logged, turns[1..], total);
      assert Logged(turns)[1..] == Logged(turns[1..]);
    }
  }

  /** Apart from the snapshots, the stream carries what a cursor reader of the ring receives, in that order: by
      Telemetry.ReaderGetsTheLog everything logged since the client connected, when no turn comes more than 200
      entries after the last. */
  lemma {:induction false} StreamCarriesTheLog(log: seq<Entry>, c: nat, turns: seq<Turn>)
    requires Grows(c, turns, |log|) && c <= |log|
    ensures Nondecreasing(c, Logged(turns)) && Reached(c, Logged(turns)) <= |log|
    ensures Unnamed(Written(log, c, turns)) == EntryEvents(Received(log, c, Logged(turns)))
    decreases |turns|
  {
    GrowsMeansNondecreasing(c, turns, |log|);
    if |turns| > 0 {
      var turn, more := turns[0], turns[1..];
      var n := turn.logged;
      var found := log[Begin(n, Some(c))..n];
      var head := if turn.snapshot.Some? then [Event(true, turn.snapshot.value)] else [];
      StreamCarriesTheLog(log, n, more);
      UnnamedJoin(TurnEvents(log, c, turn), Written(log, n, more));
      UnnamedJoin(head, EntryEvents(found));
      EntriesAreUnnamed(found);
      assert Unnamed(head) == [];
      assert Logged(turns)[1..] == Logged(more);
      EntryEventsJoin(found, Received(log, n, Logged(more)));
    }
  }

  // ---------------------------------------------------------------- the whole way

  lemma {:induction false} AppendKeepsWellFormed(fields: Fields, k: string, v: Json)
    requires WellFormedFields(fields) && WellFormed(v) && !fields.Has(k)
    ensures WellFormedFields(Append(fields, k, v))
    ensures forall key :: Append(fields, k, v).Has(key) <==> fields.Has(key) || key == k
  {
    if fields.More? {
      AppendKeepsWellFormed(fields.rest, k, v);
    }
  }

  lemma {:induction false} AdoptKeepsWellFormed(base: Fields, data: Fields)
    requires WellFormedFields(base) && WellFormedFields(data)
    ensures WellFormedFields(Adopt(base, data))
    decreases data
  {
    if data.More? {
      if !base.Has(data.key) {
        AppendKeepsWellFormed(base, data.key, data.value);
      }
      AdoptKeepsWellFormed(SetDefault(base, data.key, data.value), data.rest);
    }
  }

  lemma EntryKeys()
    ensures "seq" != "t" && "seq" != "level" && "seq" != "msg" && "seq" != "phase" && "t" != "level" && "t" != "msg"
    ensures "t" != "phase" && "level" != "msg" && "level" != "phase" && "msg" != "phase"
  {
    assert |"seq"| == 3 && |"t"| == 1 && |"level"| == 5 && |"msg"| == 3 && |"phase"| == 5;
    assert "seq"[0] == 's' && "level"[0] == 'l' && "msg"[0] == 'm' && "phase"[0] == 'p';
  }

  lemma TwoKeys(k1: string, v1: Json, k2: string, v2: Json)
    requires WellFormed(v1) && WellFormed(v2) && k1 != k2
    ensures var f := More(k1, v1, More(k2, v2, Empty));
            WellFormedFields(f) && forall k :: f.Has(k) <==> k == k1 || k == k2
  {
    var rest := More(k2, v2, Empty);
    assert forall k :: rest.Has(k) <==> k == k2;
    assert WellFormedFields(rest);
  }

  lemma EntryIsWellFormed(e: Entry)
    requires WellFormedFields(e.data)
    ensures WellFormedFields(EntryFields(e))
  {
    EntryKeys();
    var f4 := More("msg", Str(e.msg), More("phase", Str(e.phase), Empty));
    TwoKeys("msg", Str(e.msg), "phase", Str(e.phase));
    var f3 := More("level", Str(e.level), f4);
    assert WellFormedFields(f3);
    var f2 := More("t", Str(e.t), f3);
    assert !f3.Has("t") && !f3.Has("seq");
    assert WellFormedFields(f2) && !f2.Has("seq");
    AdoptKeepsWellFormed(More("seq", Int(e.seqNo), f2), e.data);
  }

  lemma {:induction false} EntriesAreWellFormed(entries: seq<Entry>)
    requires forall k :: 0 <= k < |entries| ==> WellFormedFields(entries[k].data)
    ensures AllWellFormed(EntryEvents(entries))
  {
    if |entries| > 0 {
      EntryIsWellFormed(entries[0]);
      EntriesAreWellFormed(entries[1..]);
    }
  }

  lemma {:induction false} WrittenIsWellFormed(log: seq<Entry>, c: nat, turns: seq<Turn>)
    requires Grows(c, turns, |log|)
    requires forall k :: 0 <= k < |log| ==> WellFormedFields(log[k].data)
    requires forall k :: 0 <= k < |turns| && turns[k].snapshot.Some? ==> WellFormedFields(turns[k].snapshot.value)
    ensures AllWellFormed(Written(log, c, turns))
    decreases |turns|
  {
    if |turns| > 0 {
      EntriesAreWellFormed(log[Begin(turns[0].logged, Some(c))..turns[0].logged]);
      WrittenIsWellFormed(log, turns[0].logged, turns[1..]);
    }
  }

  /** Server to client: a client that connected after c entries yields exactly the objects the server wrote for
      it, as far as they arrived whole, up to the first whose lease is done. */
  method ServeAndWatch(log: seq<Entry>, c: nat, turns: seq<Turn>, arrived: nat) returns (yielded: seq<Json>)
    requires Numbered(log, 0) && Grows(c, turns, |log|)
    requires forall k :: 0 <= k < |log| ==> WellFormedFields(log[k].data)
    requires forall k :: 0 <= k < |turns| && turns[k].snapshot.Some? ==> WellFormedFields(turns[k].snapshot.value)
    ensures var events := Written(log, c, turns);
            && yielded == UpToDone(Objects(events[..Complete(events, arrived)]))
            && (arrived >= |Stream(events)| ==> yielded == UpToDone(Objects(events)))
  {
    var text := WriteEvents(log, c, turns);
    ghost var events := Written(log, c, turns);
    WrittenIsWellFormed(log, c, turns);
    if arrived >= |text| {
      CutStream(events, |text|);
      assert text[..|text|] == text && events[..|events|] == events;
      yielded := Watch(SplitLines(text, OfBytes));
    } else {
      CutStream(events, arrived);
      yielded := Watch(SplitLines(text[..arrived], OfBytes));
    }
  }
}
