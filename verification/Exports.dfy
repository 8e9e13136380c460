/** parse_exports of microvm/playground/server.py, and the export lines post_bootstrap prints. Case folding is that of
    ASCII letters. */
module Exports {
  import opened Common
  import opened Lines

  // ---------------------------------------------------------------- string methods

  function LowerChar(c: char): char { if 'A' <= c <= 'Z' then (c as int + 32) as char else c }
  function UpperChar(c: char): char { if 'a' <= c <= 'z' then (c as int - 32) as char else c }

  function Lower(s: string): string { seq(|s|, i requires 0 <= i < |s| => LowerChar(s[i])) }
  function Upper(s: string): string { seq(|s|, i requires 0 <= i < |s| => UpperChar(s[i])) }

  /** s.rstrip(";") */
  function DropSemicolons(s: string): (r: string)
    ensures r <= s
  {
    if |s| > 0 && s[|s| - 1] == ';' then DropSemicolons(s[..|s| - 1]) else s
  }

  /** s.find(c, from) */
  function IndexOf(s: string, c: char, from: nat): (r: Option<nat>)
    ensures r.Some? ==> from <= r.value < |s| && s[r.value] == c && forall k :: from <= k < r.value ==> s[k] != c
    ensures r.None? ==> forall k :: from <= k < |s| ==> s[k] != c
    decreases |s| - from
  {
    if from >= |s| then None else if s[from] == c then Some(from) else IndexOf(s, c, from + 1)
  }

  predicate HashAt(s: string, k: nat) { k + 1 < |s| && s[k] == ' ' && s[k + 1] == '#' }

  /** s.find(" #", from) */
  function FindHash(s: string, from: nat): (r: Option<nat>)
    ensures r.Some? ==> HashAt(s, r.value)
    ensures r.None? ==> forall k :: from <= k ==> !HashAt(s, k)
    decreases |s| - from
  {
    if from >= |s| then None else if HashAt(s, from) then Some(from) else FindHash(s, from + 1)
  }

  predicate IsQuote(c: char) { c == '\'' || c == '"' }

  predicate IsEnvKey(k: string) {
    k == "AWS_ACCESS_KEY_ID" || k == "AWS_SECRET_ACCESS_KEY" || k == "AWS_SESSION_TOKEN" || k == "AWS_PROFILE" ||
    k == "AWS_DEFAULT_REGION" || k == "AWS_REGION" || k == "MVM_REGION" || k == "MVM_PROFILE" ||
    k == "MVM_ARTIFACT_BUCKET" || k == "MVM_BUILD_ROLE_ARN" || k == "MVM_EXECUTION_ROLE_ARN"
  }

  // ---------------------------------------------------------------- one line

  function DropPrefix(line: string): string {
    var lower := Lower(line);
    if "export " <= lower then Strip(line[7..])
    else if "set " <= lower then Strip(line[4..])
    else if "setx " <= lower then Strip(line[5..])
    else if "$env:" <= lower then Strip(line[5..])
    else line
  }

  /** The value in a stripped right-hand side: quoted, or up to a comment. */
  function Unquote(val: string): string {
    if |val| > 0 && IsQuote(val[0]) then
      match IndexOf(val, val[0], 1)
      case Some(end) => val[1..end]
      case None => val[1..]
    else
      match FindHash(val, 0)
      case Some(k) => Strip(val[..k])
      case None => val
  }

  function ParseLine(line: string): Option<(string, string)> {
    var l := DropSemicolons(Strip(line));
    if |l| == 0 || l[0] == '#' then None
    else
      var assignment := DropPrefix(l);
      match IndexOf(assignment, '=', 0)
      case None => None
      case Some(i) =>
        var key, val := Upper(Strip(assignment[..i])), Unquote(Strip(assignment[i + 1..]));
        if IsEnvKey(key) && |val| > 0 then Some((key, val)) else None
  }

  /** The settings of the lines, later ones over earlier ones. */
  function Settings(lines: seq<string>): map<string, string> {
    if |lines| == 0 then map[]
    else
      var before := Settings(lines[..|lines| - 1]);
      match ParseLine(lines[|lines| - 1])
      case Some((k, v)) => before[k := v]
      case None => before
  }

  /** One turn of the loop. */
  method ReadLine(text: string) returns (setting: Option<(string, string)>)
    ensures setting == ParseLine(text)
  {
    var line := DropSemicolons(Strip(text));
    if |line| == 0 || line[0] == '#' { return None; }
    line := DropPrefix(line);
    var equals := IndexOf(line, '=', 0);
    if equals.None? { return None; }
    var key, val := Upper(Strip(line[..equals.value])), Strip(line[equals.value + 1..]);
    if |val| > 0 && IsQuote(val[0]) {
      var end := IndexOf(val, val[0], 1);
      val := if end.Some? then val[1..end.value] else val[1..];
    } else {
      var hash := FindHash(val, 0);
      if hash.Some? { val := Strip(val[..hash.value]); }
    }
    setting := if IsEnvKey(key) && |val| > 0 then Some((key, val)) else None;
  }

  method ParseExports(text: string) returns (out: map<string, string>)
    ensures out == Settings(SplitLines(text, OfText))
  {
    out := map[];
    var lines := SplitLines(text, OfText);
    for n := 0 to |lines|
      invariant out == Settings(lines[..n])
    {
      assert lines[..n + 1][..n] == lines[..n];
      var setting := ReadLine(lines[n]);
      if setting.Some? {
        out := out[setting.value.0 := setting.value.1];
      }
    }
    assert lines[..|lines|] == lines;
  }

  // ---------------------------------------------------------------- concatenation

  lemma {:induction false} SettingsJoin(a: seq<string>, b: seq<string>)
    ensures Settings(a + b) == Settings(a) + Settings(b)
  {
    if |b| == 0 {
      assert a + b == a;
    } else {
      assert (a + b)[..|a + b| - 1] == a + b[..|b| - 1];
      SettingsJoin(a, b[..|b| - 1]);
    }
  }

  lemma EmptyLineSetsNothing(lines: seq<string>)
    ensures Settings([""] + lines) == Settings(lines)
  {
    SettingsJoin([""], lines);
    assert ParseLine("").None?;
    assert Settings([""]) == map[];
  }

  lemma SettingsAfter(line: string, lines: seq<string>)
    ensures Settings([line] + lines) == Settings([line]) + Settings(lines)
  {
    SettingsJoin([line], lines);
  }

  lemma AppendAfter(tail: string, w: nat, end: string)
    requires w <= |tail|
    ensures (tail + end)[w..] == tail[w..] + end
  {
  }

  lemma ReturnAndFeed(y: string)
    ensures (['\r'] + (['\n'] + y))[2..] == y
  {
  }

  /** A text that goes on after a break, with another text after it. */
  lemma Continue(line: string, tail: string, y: string)
    requires OneLine(line, OfText) && |tail| > 0 && IsBreak(tail[0], OfText)
    ensures SplitLines(line + tail, OfText) == [line] + SplitLines(tail[BreakWidth(tail)..], OfText)
    ensures SplitLines(line + (tail + (['\n'] + y)), OfText) ==
            [line] + if tail == "\r" then SplitLines(y, OfText)
                     else SplitLines(tail[BreakWidth(tail)..] + (['\n'] + y), OfText)
  {
    var rest := tail + (['\n'] + y);
    NextLine(line, tail, OfText);
    NextLine(line, rest, OfText);
    if tail == "\r" {
      assert rest == ['\r'] + (['\n'] + y);
      ReturnAndFeed(y);
    } else {
      assert BreakWidth(rest) == BreakWidth(tail);
      AppendAfter(tail, BreakWidth(tail), ['\n'] + y);
    }
  }

  /** The text x, a line feed and y: the settings of x updated by those of y. */
  ghost predicate Updates(x: string, y: string) {
    Settings(SplitLines(x + (['\n'] + y), OfText)) == Settings(SplitLines(x, OfText)) + Settings(SplitLines(y, OfText))
  }

  lemma Regroup(a: string, b: string, c: string)
    ensures (a + b) + c == a + (b + c)
  {
  }

  lemma AfterLast(line: string, y: string)
    requires OneLine(line, OfText)
    ensures Updates(line, y)
  {
    FirstLine(line, y, OfText);
    LastLine(line, OfText);
    if line == "" {
      EmptyLineSetsNothing(SplitLines(y, OfText));
      assert Settings([]) + Settings(SplitLines(y, OfText)) == Settings(SplitLines(y, OfText));
    } else {
      SettingsAfter(line, SplitLines(y, OfText));
    }
  }

  lemma AfterReturn(line: string, y: string)
    requires OneLine(line, OfText)
    ensures Updates(line + "\r", y)
  {
    Continue(line, "\r", y);
    Regroup(line, "\r", ['\n'] + y);
    SettingsAfter(line, SplitLines(y, OfText));
    SettingsAfter(line, SplitLines("\r"[BreakWidth("\r")..], OfText));
    assert "\r"[BreakWidth("\r")..] == "";
    assert Settings([line]) + map[] == Settings([line]);
  }

  lemma AfterBreak(line: string, tail: string, y: string)
    requires OneLine(line, OfText) && |tail| > 0 && IsBreak(tail[0], OfText) && tail != "\r"
    requires Updates(tail[BreakWidth(tail)..], y)
    ensures Updates(line + tail, y)
  {
    var more := tail[BreakWidth(tail)..];
    Continue(line, tail, y);
    Regroup(line, tail, ['\n'] + y);
    SettingsAfter(line, SplitLines(more, OfText));
    SettingsAfter(line, SplitLines(more + (['\n'] + y), OfText));
    MergeAssociates(Settings([line]), Settings(SplitLines(more, OfText)), Settings(SplitLines(y, OfText)));
  }

  lemma {:induction false} AfterFirst(line: string, tail: string, y: string)
    requires OneLine(line, OfText) && (|tail| > 0 ==> IsBreak(tail[0], OfText))
    ensures Updates(line + tail, y)
    decreases |tail|, 0
  {
    if tail == "" {
      AfterLast(line, y);
      assert line + tail == line;
    } else if tail == "\r" {
      AfterReturn(line, y);
    } else {
      ConcatenationUpdates(tail[BreakWidth(tail)..], y);
      AfterBreak(line, tail, y);
    }
  }

  /** Two texts one after the other: the settings of the first updated by those of the second. */
  lemma {:induction false} ConcatenationUpdates(x: string, y: string)
    ensures Updates(x, y)
    decreases |x|, 1
  {
    var n := LineEnd(x, OfText);
    AfterFirst(x[..n], x[n..], y);
    assert x == x[..n] + x[n..];
  }

  lemma MergeAssociates(a: map<string, string>, b: map<string, string>, c: map<string, string>)
    ensures a + (b + c) == (a + b) + c
  {
  }
}
