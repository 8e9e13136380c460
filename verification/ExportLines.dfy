/** Which printed export lines parse_exports reads back. */
module ExportLines {
  import opened Common
  import opened Lines
  import opened Exports

  /** export K=v */
  function Line(key: string, value: string): string { "export " + (key + (['='] + value)) }

  // ---------------------------------------------------------------- keys

  predicate KeyChar(c: char) { 'A' <= c <= 'Z' || c == '_' }

  predicate KeyLike(k: string) { |k| > 0 && forall i :: 0 <= i < |k| ==> KeyChar(k[i]) }

  lemma AwsKeys()
    ensures KeyLike("AWS_ACCESS_KEY_ID") && KeyLike("AWS_SECRET_ACCESS_KEY") && KeyLike("AWS_SESSION_TOKEN")
    ensures KeyLike("AWS_PROFILE") && KeyLike("AWS_DEFAULT_REGION") && KeyLike("AWS_REGION")
  {
  }

  lemma MvmKeys()
    ensures KeyLike("MVM_REGION") && KeyLike("MVM_PROFILE") && KeyLike("MVM_ARTIFACT_BUCKET")
    ensures KeyLike("MVM_BUILD_ROLE_ARN") && KeyLike("MVM_EXECUTION_ROLE_ARN")
  {
  }

  lemma EnvKeyIsKeyLike(k: string)
    requires IsEnvKey(k)
    ensures KeyLike(k)
  {
    AwsKeys();
    MvmKeys();
  }

  // ---------------------------------------------------------------- trimming behind a fixed head

  /** A head that neither strip nor rstrip(";") can reach into. */
  predicate Solid(p: string) { |p| > 0 && !IsBlank(p[|p| - 1]) && p[|p| - 1] != ';' }

  lemma {:induction false} StripRightBehind(p: string, w: string)
    requires |p| > 0 && !IsBlank(p[|p| - 1])
    ensures StripRight(p + w) == p + StripRight(w)
  {
    if |w| == 0 {
      assert p + w == p;
    } else {
      assert (p + w)[|p + w| - 1] == w[|w| - 1];
      if IsBlank(w[|w| - 1]) {
        assert (p + w)[..|p + w| - 1] == p + w[..|w| - 1];
        StripRightBehind(p, w[..|w| - 1]);
      }
    }
  }

  lemma {:induction false} SemicolonsBehind(p: string, w: string)
    requires |p| > 0 && p[|p| - 1] != ';'
    ensures DropSemicolons(p + w) == p + DropSemicolons(w)
  {
    if |w| == 0 {
      assert p + w == p;
    } else {
      assert (p + w)[|p + w| - 1] == w[|w| - 1];
      if w[|w| - 1] == ';' {
        assert (p + w)[..|p + w| - 1] == p + w[..|w| - 1];
        SemicolonsBehind(p, w[..|w| - 1]);
      }
    }
  }

  lemma StripLeftNothing(s: string)
    requires |s| > 0 && !IsBlank(s[0])
    ensures StripLeft(s) == s
  {
  }

  /** strip, then rstrip(";"), of a text with a solid head. */
  lemma TrimBehind(p: string, w: string)
    requires Solid(p) && !IsBlank(p[0])
    ensures DropSemicolons(Strip(p + w)) == p + DropSemicolons(StripRight(w))
  {
    StripLeftNothing(p + w);
    StripRightBehind(p, w);
    SemicolonsBehind(p, StripRight(w));
  }

  // ---------------------------------------------------------------- a line

  lemma DropExport(rest: string)
    ensures DropPrefix("export " + rest) == Strip(rest)
  {
    var s := "export " + rest;
    assert Lower(s)[..7] == "export ";
    assert s[7..] == rest;
  }

  lemma Assoc3(a: string, b: string, c: string, d: string)
    ensures a + (b + (c + d)) == (a + (b + c)) + d
  {
  }

  lemma StripKey(key: string)
    requires KeyLike(key)
    ensures Upper(Strip(key)) == key
  {
    StripLeftNothing(key);
    assert KeyChar(key[|key| - 1]);
    assert Upper(key) == key;
  }

  lemma SplitAtEquals(key: string, x: string)
    requires KeyLike(key)
    ensures IndexOf(key + (['='] + x), '=', 0) == Some(|key|)
    ensures (key + (['='] + x))[..|key|] == key && (key + (['='] + x))[|key| + 1..] == x
  {
    var s := key + (['='] + x);
    assert s[|key|] == '=';
    assert forall k :: 0 <= k < |key| ==> s[k] == key[k] && KeyChar(key[k]);
  }

  /** The value a line's right-hand side comes to. */
  function ValueOf(w: string): string { Unquote(Strip(StripRight(DropSemicolons(StripRight(w))))) }

  /** What is left of an assignment after strip, its key in front. */
  lemma StripAssignment(key: string, x: string)
    requires KeyLike(key)
    ensures Strip(key + (['='] + x)) == key + (['='] + StripRight(x))
  {
    var head := key + ['='];
    assert head[|head| - 1] == '=';
    StripLeftNothing(head + x);
    StripRightBehind(head, x);
    Regroup(key, ['='], x);
    Regroup(key, ['='], StripRight(x));
  }

  /** The line once trimmed. */
  lemma TrimLine(key: string, w: string)
    requires KeyLike(key)
    ensures DropSemicolons(Strip(Line(key, w))) == Line(key, DropSemicolons(StripRight(w)))
  {
    var head := "export " + (key + ['=']);
    Assoc3("export ", key, ['='], w);
    Assoc3("export ", key, ['='], DropSemicolons(StripRight(w)));
    assert head[0] == 'e' && head[|head| - 1] == '=';
    TrimBehind(head, w);
  }

  lemma LineComesTo(key: string, w: string)
    requires IsEnvKey(key)
    ensures ParseLine(Line(key, w)) == if |ValueOf(w)| > 0 then Some((key, ValueOf(w))) else None
  {
    EnvKeyIsKeyLike(key);
    var x := DropSemicolons(StripRight(w));
    TrimLine(key, w);
    DropExport(key + (['='] + x));
    StripAssignment(key, x);
    SplitAtEquals(key, StripRight(x));
    StripKey(key);
  }

  // ---------------------------------------------------------------- plain values

  /** Not empty, not in quotes, with no blank at either end, no comment mark, and no semicolon at the end. */
  predicate Clean(v: string) {
    && |v| > 0 && !IsBlank(v[0]) && !IsBlank(v[|v| - 1]) && v[|v| - 1] != ';' && !IsQuote(v[0])
    && FindHash(v, 0).None?
  }

  lemma StripLeftShrinks(s: string)
    ensures |StripLeft(s)| <= |s|
    ensures |StripLeft(s)| == |s| ==> |s| == 0 || !IsBlank(s[0])
  {
  }

  lemma UnquoteShrinks(s: string)
    ensures |Unquote(s)| <= |s|
    ensures |s| > 0 && |Unquote(s)| == |s| ==> !IsQuote(s[0]) && FindHash(s, 0).None?
  {
    if |s| > 0 && !IsQuote(s[0]) && FindHash(s, 0).Some? {
      StripLeftShrinks(s[..FindHash(s, 0).value]);
    }
  }

  /** A right-hand side comes to itself exactly when it is clean or empty. */
  lemma CleanIff(v: string)
    ensures ValueOf(v) == v <==> Clean(v) || v == ""
  {
    var a := StripRight(v);
    var b := DropSemicolons(a);
    var c := StripRight(b);
    StripLeftShrinks(c);
    UnquoteShrinks(Strip(c));
    if ValueOf(v) == v && |v| > 0 {
      assert |a| == |b| == |c| == |v|;
      assert a == v && b == v && c == v;
    } else if Clean(v) {
      StripLeftNothing(v);
    }
  }

  // ---------------------------------------------------------------- one-line texts

  ghost predicate SameLine(s: string) { OneLine(s, OfText) }

  lemma {:induction false} StripKeepsLine(s: string)
    requires SameLine(s)
    ensures SameLine(StripLeft(s)) && SameLine(StripRight(s))
  {
    if |s| > 0 && IsBlank(s[0]) {
      StripKeepsLine(s[1..]);
    }
  }

  lemma ValueIsOneLine(line: string)
    requires SameLine(line) && ParseLine(line).Some?
    ensures SameLine(ParseLine(line).value.1)
  {
    StripKeepsLine(line);
    StripKeepsLine(StripLeft(line));
    var l := DropSemicolons(Strip(line));
    DropPrefixKeepsLine(l);
    var m := DropPrefix(l);
    var r := m[IndexOf(m, '=', 0).value + 1..];
    StripKeepsLine(r);
    StripKeepsLine(StripLeft(r));
    UnquoteKeepsLine(Strip(r));
  }

  lemma DropPrefixKeepsLine(l: string)
    requires SameLine(l)
    ensures SameLine(DropPrefix(l))
  {
    if |l| >= 7 { StripKeepsLine(l[7..]); StripKeepsLine(StripLeft(l[7..])); }
    if |l| >= 5 { StripKeepsLine(l[5..]); StripKeepsLine(StripLeft(l[5..])); }
    if |l| >= 4 { StripKeepsLine(l[4..]); StripKeepsLine(StripLeft(l[4..])); }
  }

  lemma UnquoteKeepsLine(s: string)
    requires SameLine(s)
    ensures SameLine(Unquote(s))
  {
    if FindHash(s, 0).Some? {
      StripKeepsLine(s[..FindHash(s, 0).value]);
      StripKeepsLine(StripLeft(s[..FindHash(s, 0).value]));
    }
  }

  lemma {:induction false} SettingsAreOneLine(lines: seq<string>, k: string)
    requires (forall i :: 0 <= i < |lines| ==> SameLine(lines[i])) && k in Settings(lines)
    ensures SameLine(Settings(lines)[k])
  {
    var last := |lines| - 1;
    if ParseLine(lines[last]).Some? {
      ValueIsOneLine(lines[last]);
    }
    if k in Settings(lines[..last]) {
      SettingsAreOneLine(lines[..last], k);
    }
  }

  lemma {:induction false} SplitIntoLines(s: string, b: Breaks)
    ensures forall i :: 0 <= i < |SplitLines(s, b)| ==> OneLine(SplitLines(s, b)[i], b)
    decreases |s|
  {
    var n := LineEnd(s, b);
    assert n == |s| ==> s[..n] == s;
    if n < |s| {
      SplitIntoLines(s[n..][BreakWidth(s[n..])..], b);
    }
  }

  lemma LineIsOneLine(key: string, v: string)
    requires KeyLike(key)
    ensures SameLine(Line(key, v)) <==> SameLine(v)
  {
    var s, h := Line(key, v), |key| + 8;
    assert s[h..] == v;
    assert forall i :: 0 <= i < |key| ==> s[i + 7] == key[i] && KeyChar(key[i]);
    if SameLine(v) {
      forall i | 0 <= i < |s| ensures !IsBreak(s[i], OfText) {
        if i >= h {
          assert s[i] == v[i - h];
        } else if 7 <= i < h - 1 {
          assert s[i] == key[i - 7];
        }
      }
    } else {
      var i :| 0 <= i < |v| && IsBreak(v[i], OfText);
      assert s[i + h] == v[i];
    }
  }

  /** parse_exports undoes one printed line if and only if the value is clean and holds no line break; "=" may occur
      in it anywhere. */
  lemma LineRoundTripIff(key: string, v: string)
    requires IsEnvKey(key)
    ensures Settings(SplitLines(Line(key, v), OfText)) == map[key := v] <==> Clean(v) && OneLine(v, OfText)
  {
    EnvKeyIsKeyLike(key);
    LineIsOneLine(key, v);
    if SameLine(v) {
      LastLine(Line(key, v), OfText);
      LineComesTo(key, v);
      CleanIff(v);
      SettingsOfOne(Line(key, v));
      assert key in map[key := v];
    } else if Settings(SplitLines(Line(key, v), OfText)) == map[key := v] {
      SplitIntoLines(Line(key, v), OfText);
      assert key in Settings(SplitLines(Line(key, v), OfText));
      SettingsAreOneLine(SplitLines(Line(key, v), OfText), key);
    }
  }

  lemma SettingsOfOne(line: string)
    ensures Settings([line]) == match ParseLine(line) case Some((k, v)) => map[k := v] case None => map[]
  {
    assert [line][..0] == [];
  }

  // ---------------------------------------------------------------- quoted values

  function InQuotes(q: char, v: string): string { [q] + v + [q] }

  lemma UnquoteInQuotes(q: char, v: string)
    requires IsQuote(q)
    ensures Unquote(InQuotes(q, v)) == v <==> q !in v
    ensures |Unquote(InQuotes(q, v))| > 0 ==> |v| > 0
  {
    var w := InQuotes(q, v);
    assert forall k :: 0 <= k < |v| ==> w[k + 1] == v[k];
    assert w[|w| - 1] == q;
    var end := IndexOf(w, q, 1).value;
    if q !in v {
      assert end == |w| - 1;
      assert w[1..|w| - 1] == v;
    } else {
      var k :| 0 <= k < |v| && v[k] == q;
      assert end <= k + 1;
    }
  }

  lemma TrimQuoted(q: char, v: string)
    requires IsQuote(q)
    ensures ValueOf(InQuotes(q, v)) == Unquote(InQuotes(q, v))
  {
    var w := InQuotes(q, v);
    assert w[0] == q && w[|w| - 1] == q;
    StripLeftNothing(w);
  }

  /** In quotes, a value comes back if and only if it is not empty and does not hold the quote; blanks, comment marks
      and semicolons are then safe. */
  lemma QuotedRoundTripIff(key: string, q: char, v: string)
    requires IsEnvKey(key) && IsQuote(q)
    ensures ParseLine(Line(key, InQuotes(q, v))) == Some((key, v)) <==> |v| > 0 && q !in v
  {
    LineComesTo(key, InQuotes(q, v));
    TrimQuoted(q, v);
    UnquoteInQuotes(q, v);
  }

  // ---------------------------------------------------------------- the text of post_bootstrap

  datatype Export = Export(key: string, value: string)

  /** "\n".join(f"export {key}={value}") */
  function Print(items: seq<Export>): string {
    if |items| == 0 then ""
    else if |items| == 1 then Line(items[0].key, items[0].value)
    else Line(items[0].key, items[0].value) + (['\n'] + Print(items[1..]))
  }

  function AsMap(items: seq<Export>): map<string, string> {
    if |items| == 0 then map[] else map[items[0].key := items[0].value] + AsMap(items[1..])
  }

  /** The printed exports of clean values, pasted back, give the same settings. */
  lemma {:induction false} PrintedExportsRoundTrip(items: seq<Export>)
    requires forall i ::
             0 <= i < |items| ==> IsEnvKey(items[i].key) && Clean(items[i].value) && OneLine(items[i].value, OfText)
    ensures Settings(SplitLines(Print(items), OfText)) == AsMap(items)
  {
    if |items| > 0 {
      LineRoundTripIff(items[0].key, items[0].value);
      if |items| > 1 {
        PrintedExportsRoundTrip(items[1..]);
        ConcatenationUpdates(Line(items[0].key, items[0].value), Print(items[1..]));
      } else {
        assert AsMap(items[1..]) == map[];
      }
    }
  }
}
