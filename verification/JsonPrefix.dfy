/** A printed object cut short is not JSON: the parser reads the same from every longer text. */
module JsonPrefix {
  import opened Common
  import opened Json

  lemma {:induction false} SkipMore(s: string, x: string)
    requires |SkipSpace(s)| > 0
    ensures SkipSpace(s + x) == SkipSpace(s) + x
  {
    if |s| > 0 && IsSpace(s[0]) {
      assert (s + x)[1..] == s[1..] + x;
      SkipMore(s[1..], x);
    }
  }

  lemma UnitMore(s: string, x: string)
    requires |s| >= 4
    ensures Unit(s + x) == Unit(s)
  {
  }

  lemma ParseUnitMore(s: string, x: string)
    requires ParseUnit(s).Some?
    ensures ParseUnit(s + x) == Some(Parsed(ParseUnit(s).value.value, ParseUnit(s).value.rest + x))
  {
    UnitMore(s, x);
    assert (s + x)[4..] == s[4..] + x;
    if |s| >= 10 {
      UnitMore(s[6..], x);
      assert (s + x)[6..] == s[6..] + x && (s + x)[10..] == s[10..] + x;
    }
  }

  lemma ParseCharMore(s: string, x: string)
    requires |s| > 0 && ParseChar(s).Some?
    ensures ParseChar(s + x) == Some(Parsed(ParseChar(s).value.value, ParseChar(s).value.rest + x))
  {
    assert (s + x)[1..] == s[1..] + x;
    if |s| >= 2 {
      assert (s + x)[2..] == s[2..] + x;
      if s[0] == '\\' && s[1] == 'u' {
        ParseUnitMore(s[2..], x);
      }
    }
  }

  lemma {:induction false} ParseCharsMore(s: string, x: string)
    requires ParseChars(s).Some?
    ensures ParseChars(s + x) == Some(Parsed(ParseChars(s).value.value, ParseChars(s).value.rest + x))
    decreases |s|
  {
    if s[0] == '"' {
      assert (s + x)[1..] == s[1..] + x;
    } else {
      ParseCharMore(s, x);
      ParseCharsMore(ParseChar(s).value.rest, x);
    }
  }

  lemma {:induction false} SpanMore(s: string, x: string)
    requires NumberSpan(s) < |s|
    ensures NumberSpan(s + x) == NumberSpan(s)
  {
    if IsNumberChar(s[0]) {
      assert (s + x)[1..] == s[1..] + x;
      SpanMore(s[1..], x);
    }
  }

  lemma ParseNumberMore(s: string, x: string)
    requires ParseNumber(s).Some? && |ParseNumber(s).value.rest| > 0
    ensures ParseNumber(s + x) == Some(Parsed(ParseNumber(s).value.value, ParseNumber(s).value.rest + x))
  {
    var n := NumberSpan(s);
    SpanMore(s, x);
    assert (s + x)[..n] == s[..n] && (s + x)[n..] == s[n..] + x;
  }

  lemma WordMore(w: string, s: string, x: string)
    requires w <= s
    ensures w <= s + x && (s + x)[|w|..] == s[|w|..] + x
  {
  }

  lemma WordStarts(s: string)
    ensures "null" <= s ==> s[0] == 'n'
    ensures "true" <= s ==> s[0] == 't'
    ensures "false" <= s ==> s[0] == 'f'
  {
  }

  lemma {:induction false} ParseScalarMore(s: string, x: string)
    requires |s| > 0 && s[0] != '[' && s[0] != '{' && ParseValue(s).Some? && |ParseValue(s).value.rest| > 0
    ensures ParseValue(s + x) == Some(Parsed(ParseValue(s).value.value, ParseValue(s).value.rest + x))
  {
    WordStarts(s);
    WordStarts(s + x);
    if s[0] == '"' {
      assert (s + x)[1..] == s[1..] + x;
      ParseCharsMore(s[1..], x);
    } else if "null" <= s {
      WordMore("null", s, x);
    } else if "true" <= s {
      WordMore("true", s, x);
    } else if "false" <= s {
      WordMore("false", s, x);
    } else {
      ParseNumberMore(s, x);
      NumberStarts(s);
    }
  }

  lemma NumberStarts(s: string)
    requires ParseNumber(s).Some?
    ensures |s| > 0 && IsNumberChar(s[0])
  {
    assert NumberSpan(s) > 0;
  }

  /** A value the parser reads with text left over, it reads the same from any longer text. */
  lemma {:induction false} ParseValueMore(s: string, x: string)
    requires ParseValue(s).Some? && (|ParseValue(s).value.rest| > 0 || s[0] == '[' || s[0] == '{')
    ensures ParseValue(s + x) == Some(Parsed(ParseValue(s).value.value, ParseValue(s).value.rest + x))
    decreases |s|, 0
  {
    if s[0] == '[' || s[0] == '{' {
      var t := SkipSpace(s[1..]);
      assert (s + x)[1..] == s[1..] + x;
      SkipMore(s[1..], x);
      if t[0] == ']' || t[0] == '}' {
        assert (t + x)[1..] == t[1..] + x;
      }
      if s[0] == '[' && t[0] != ']' {
        ParseItemMore(t, x);
      } else if s[0] == '{' && t[0] != '}' {
        ParseEntryMore(t, x);
      }
    } else {
      ParseScalarMore(s, x);
    }
  }

  lemma {:induction false} ParseItemMore(s: string, x: string)
    requires ParseItem(s).Some?
    ensures ParseItem(s + x) == Some(Parsed(ParseItem(s).value.value, ParseItem(s).value.rest + x))
    decreases |s|, 2
  {
    var v := ParseValue(s).value;
    ParseItemsMore(v.rest, x);
    ParseValueMore(s, x);
  }

  lemma {:induction false} ParseItemsMore(s: string, x: string)
    requires ParseItems(s).Some?
    ensures ParseItems(s + x) == Some(Parsed(ParseItems(s).value.value, ParseItems(s).value.rest + x))
    ensures |s| > 0
    decreases |s|, 1
  {
    var t := SkipSpace(s);
    SkipMore(s, x);
    assert (t + x)[1..] == t[1..] + x;
    if t[0] == ',' {
      SkipMore(t[1..], x);
      ParseItemMore(SkipSpace(t[1..]), x);
    }
  }

  lemma ColonMore(s: string, x: string)
    requires |SkipSpace(s)| > 0 && |SkipSpace(SkipSpace(s)[1..])| > 0
    ensures SkipSpace(s + x) == SkipSpace(s) + x
    ensures SkipSpace(SkipSpace(s + x)[1..]) == SkipSpace(SkipSpace(s)[1..]) + x
  {
    var t := SkipSpace(s);
    SkipMore(s, x);
    assert (t + x)[1..] == t[1..] + x;
    SkipMore(t[1..], x);
  }

  lemma {:induction false} ParseEntryMore(s: string, x: string)
    requires ParseEntry(s).Some?
    ensures ParseEntry(s + x) == Some(Parsed(ParseEntry(s).value.value, ParseEntry(s).value.rest + x))
    decreases |s|, 2
  {
    assert (s + x)[1..] == s[1..] + x;
    ParseCharsMore(s[1..], x);
    var k := ParseChars(s[1..]).value;
    ColonMore(k.rest, x);
    var u := SkipSpace(SkipSpace(k.rest)[1..]);
    ParseFieldsMore(ParseValue(u).value.rest, x);
    ParseValueMore(u, x);
  }

  lemma {:induction false} ParseFieldsMore(s: string, x: string)
    requires ParseFields(s).Some?
    ensures ParseFields(s + x) == Some(Parsed(ParseFields(s).value.value, ParseFields(s).value.rest + x))
    ensures |s| > 0
    decreases |s|, 1
  {
    var t := SkipSpace(s);
    SkipMore(s, x);
    assert (t + x)[1..] == t[1..] + x;
    if t[0] == ',' {
      SkipMore(t[1..], x);
      ParseEntryMore(SkipSpace(t[1..]), x);
    }
  }

  lemma AllIsNeeded(s: string, x: string, j: Json)
    requires |s| > 0 && s[0] == '{' && ParseValue(s + x) == Some(Parsed(j, ""))
    ensures ParseValue(s).Some? ==> x == ""
  {
    if ParseValue(s).Some? {
      ParseValueMore(s, x);
    }
  }

  /** No proper prefix of a printed object loads. */
  lemma CutObjectDoesNotLoad(fields: Fields, style: Style, n: nat)
    requires WellFormedFields(fields) && n < |Dumps(Obj(fields), style)|
    ensures Loads(Dumps(Obj(fields), style)[..n]).None?
  {
    var text := Dumps(Obj(fields), style);
    if n > 0 {
      ObjectRoundTrip(fields, style, "");
      assert text + "" == text == text[..n] + text[n..];
      assert text[0] == '{';
      AllIsNeeded(text[..n], text[n..], Obj(fields));
    }
  }
}
