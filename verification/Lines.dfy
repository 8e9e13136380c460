/** Python's strip and splitlines. */
module Lines {
  /** Whitespace as str.isspace has it. */
  predicate IsBlank(c: char) {
    var n := c as int;
    9 <= n <= 13 || 28 <= n <= 32 || n == 0x85 || n == 0xA0 || n == 0x1680 || 0x2000 <= n <= 0x200A ||
    n == 0x2028 || n == 0x2029 || n == 0x202F || n == 0x205F || n == 0x3000
  }

  function StripLeft(s: string): string { if |s| > 0 && IsBlank(s[0]) then StripLeft(s[1..]) else s }

  function StripRight(s: string): (r: string)
    ensures r <= s
    ensures |r| > 0 ==> !IsBlank(r[|r| - 1])
    ensures |s| > 0 && !IsBlank(s[|s| - 1]) ==> r == s
  {
    if |s| > 0 && IsBlank(s[|s| - 1]) then StripRight(s[..|s| - 1]) else s
  }

  function Strip(s: string): string { StripRight(StripLeft(s)) }

  /** What bytes.splitlines and what str.splitlines break at. */
  datatype Breaks = OfBytes | OfText

  predicate IsBreak(c: char, b: Breaks) {
    var n := c as int;
    n == 10 || n == 13
        || (b.OfText? && (n == 11 || n == 12 || 28 <= n <= 30 || n == 0x85 || n == 0x2028 || n == 0x2029))
  }

  predicate OneLine(s: string, b: Breaks) { forall k :: 0 <= k < |s| ==> !IsBreak(s[k], b) }

  function LineEnd(s: string, b: Breaks): (n: nat)
    ensures n <= |s| && OneLine(s[..n], b) && (n < |s| ==> IsBreak(s[n], b))
  {
    if |s| == 0 || IsBreak(s[0], b) then 0 else 1 + LineEnd(s[1..], b)
  }

  function BreakWidth(s: string): (n: nat)
    requires |s| > 0
    ensures 1 <= n <= |s|
  {
    if s[0] == '\r' && |s| > 1 && s[1] == '\n' then 2 else 1
  }

  /** s.splitlines() */
  function SplitLines(s: string, b: Breaks): seq<string>
    decreases |s|
  {
    if |s| == 0 then []
    else
      var n := LineEnd(s, b);
      if n == |s| then [s] else [s[..n]] + SplitLines(s[n..][BreakWidth(s[n..])..], b)
  }

  lemma {:induction false} LineEndOf(line: string, rest: string, b: Breaks)
    requires OneLine(line, b) && (|rest| > 0 ==> IsBreak(rest[0], b))
    ensures LineEnd(line + rest, b) == |line|
  {
    if |line| == 0 {
      assert line + rest == rest;
    } else {
      assert (line + rest)[1..] == line[1..] + rest;
      LineEndOf(line[1..], rest, b);
    }
  }

  /** A line and its break come off the front. */
  lemma NextLine(line: string, rest: string, b: Breaks)
    requires OneLine(line, b) && |rest| > 0 && IsBreak(rest[0], b)
    ensures SplitLines(line + rest, b) == [line] + SplitLines(rest[BreakWidth(rest)..], b)
  {
    LineEndOf(line, rest, b);
    assert (line + rest)[..|line|] == line && (line + rest)[|line|..] == rest;
  }

  lemma FirstLine(line: string, rest: string, b: Breaks)
    requires OneLine(line, b)
    ensures SplitLines(line + (['\n'] + rest), b) == [line] + SplitLines(rest, b)
  {
    NextLine(line, ['\n'] + rest, b);
    assert (['\n'] + rest)[1..] == rest;
  }

  lemma LastLine(line: string, b: Breaks)
    requires OneLine(line, b)
    ensures SplitLines(line, b) == if line == "" then [] else [line]
  {
    LineEndOf(line, "", b);
    assert line + "" == line;
  }
}
