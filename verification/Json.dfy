/**
 JSON values with the printer and parser the lease payloads and the event stream rely on: json.dumps with
 ASCII escapes and either pair of separators, and json.loads. The grammar is that of RFC 8259; a float is kept
 as its literal.
 */
module Json {
  import opened Common
  import opened Text

  datatype Json =
    | Null
    | Bool(b: bool)
    | Int(n: int)
    | Float(literal: string)
    | Str(s: string)
    | Arr(items: Items)
    | Obj(fields: Fields)

  datatype Items = Nil | Cons(head: Json, tail: Items)

  /** The entries of an object in insertion order. */
  datatype Fields = Empty | More(key: string, value: Json, rest: Fields) {
    predicate Has(k: string) { More? && (key == k || rest.Has(k)) }

    function Get(k: string): Option<Json> {
      if Empty? then None else if key == k then Some(value) else rest.Get(k)
    }

    function Without(k: string): Fields {
      if Empty? then Empty else if key == k then rest.Without(k) else More(key, value, rest.Without(k))
    }
  }

  // ---------------------------------------------------------------- characters

  const HEX: seq<char> := ['0', '1', '2', '3', '4', '5', '6', '7', '8', '9', 'a', 'b', 'c', 'd', 'e', 'f']

  function Hex4(n: nat): string
    requires n < 0x10000
  {
    [HEX[n / 16 / 16 / 16], HEX[n / 16 / 16 % 16], HEX[n / 16 % 16], HEX[n % 16]]
  }

  function HexValue(c: char): Option<nat> {
    if '0' <= c <= '9' then Some(c as int - '0' as int)
    else if 'a' <= c <= 'f' then Some(c as int - 'a' as int + 10)
    else if 'A' <= c <= 'F' then Some(c as int - 'A' as int + 10)
    else None
  }

  /** The code unit four hexadecimal digits stand for. */
  function Unit(s: string): Option<nat>
    requires |s| >= 4
  {
    match (HexValue(s[0]), HexValue(s[1]), HexValue(s[2]), HexValue(s[3]))
    case (Some(a), Some(b), Some(c), Some(d)) => Some(4096 * a + 256 * b + 16 * c + d)
    case _ => None
  }

  lemma HexDigit(d: nat)
    requires d < 16
    ensures HexValue(HEX[d]) == Some(d)
  {
  }

  lemma UnitOfHex4(n: nat, rest: string)
    requires n < 0x10000
    ensures Unit(Hex4(n) + rest) == Some(n)
  {
    var a, b, c := n / 16 / 16 / 16, n / 16 / 16, n / 16;
    HexDigit(a);
    HexDigit(b % 16);
    HexDigit(c % 16);
    HexDigit(n % 16);
    assert n == 16 * c + n % 16 && c == 16 * b + c % 16 && b == 16 * a + b % 16;
    UnitOfDigits(HEX[a], HEX[b % 16], HEX[c % 16], HEX[n % 16], rest);
  }

  lemma UnitOfDigits(a: char, b: char, c: char, d: char, rest: string)
    requires HexValue(a).Some? && HexValue(b).Some? && HexValue(c).Some? && HexValue(d).Some?
    ensures Unit([a, b, c, d] + rest) ==
            Some(4096 * HexValue(a).value + 256 * HexValue(b).value + 16 * HexValue(c).value + HexValue(d).value)
  {
  }

  predicate IsPlain(c: char) { ' ' <= c <= '~' && c != '"' && c != '\\' }

  /** How json.dumps writes one character inside a string. */
  function EscapeChar(c: char): string {
    var n := c as int;
    if IsPlain(c) then [c]
    else if c == '"' then ['\\', '"']
    else if c == '\\' then ['\\', '\\']
    else if n == 10 then ['\\', 'n']
    else if n == 13 then ['\\', 'r']
    else if n == 9 then ['\\', 't']
    else if n == 8 then ['\\', 'b']
    else if n == 12 then ['\\', 'f']
    else if n < 0x10000 then ['\\', 'u'] + Hex4(n)
    else ['\\', 'u'] + Hex4(High(n)) + (['\\', 'u'] + Hex4(Low(n)))
  }

  function Escape(s: string): string {
    if |s| == 0 then "" else EscapeChar(s[0]) + Escape(s[1..])
  }

  function Quote(s: string): string { ['"'] + Escape(s) + ['"'] }

  /** A parsed prefix: the value and what follows it. */
  datatype Parsed<T> = Parsed(value: T, rest: string)

  /** The character after a backslash, for the two-character escapes. */
  function ShortEscape(c: char): Option<char> {
    if c == '"' || c == '\\' || c == '/' then Some(c)
    else if c == 'n' then Some(10 as char)
    else if c == 'r' then Some(13 as char)
    else if c == 't' then Some(9 as char)
    else if c == 'b' then Some(8 as char)
    else if c == 'f' then Some(12 as char)
    else None
  }

  /** \uXXXX, or a surrogate pair of two of them; s follows the first backslash-u. Lone surrogates are refused. */
  function ParseUnit(s: string): (r: Option<Parsed<char>>)
    ensures r.Some? ==> |r.value.rest| < |s|
  {
    if |s| < 4 || Unit(s).None? then None
    else
      var n := Unit(s).value;
      if n < 0xD800 || 0xE000 <= n < 0x10000 then Some(Parsed(n as char, s[4..]))
      else if n < 0xDC00 && |s| >= 10 && s[4] == '\\' && s[5] == 'u' && Unit(s[6..]).Some?
          && 0xDC00 <= Unit(s[6..]).value < 0xE000 then
        Some(Parsed((0x10000 + (n - 0xD800) * 1024 + (Unit(s[6..]).value - 0xDC00)) as char, s[10..]))
      else None
  }

  /** One character of a string literal. */
  function ParseChar(s: string): (r: Option<Parsed<char>>)
    requires |s| > 0
    ensures r.Some? ==> |r.value.rest| < |s|
  {
    if s[0] != '\\' then (if (s[0] as int) < 32 then None else Some(Parsed(s[0], s[1..])))
    else if |s| < 2 then None
    else if s[1] == 'u' then ParseUnit(s[2..])
    else match ShortEscape(s[1])
      case Some(c) => Some(Parsed(c, s[2..]))
      case None => None
  }

  /** The characters of a string literal after its opening quote, up to and including the closing one. */
  function ParseChars(s: string): (r: Option<Parsed<string>>)
    ensures r.Some? ==> |r.value.rest| < |s|
    decreases |s|
  {
    if |s| == 0 then None
    else if s[0] == '"' then Some(Parsed("", s[1..]))
    else match ParseChar(s)
      case None => None
      case Some(c) =>
        match ParseChars(c.rest) {
          case None => None
          case Some(t) => Some(Parsed([c.value] + t.value, t.rest))
        }
  }

  function High(n: nat): nat
    requires 0x10000 <= n < 0x110000
    ensures 0xD800 <= High(n) < 0xDC00
  {
    0xD800 + (n - 0x10000) / 1024
  }

  function Low(n: nat): nat
    requires 0x10000 <= n < 0x110000
    ensures 0xDC00 <= Low(n) < 0xE000
  {
    0xDC00 + (n - 0x10000) % 1024
  }

  /** Four hexadecimal digits h of a code unit that is not a surrogate. */
  lemma ParsePlainUnit(h: string, n: nat, rest: string)
    requires |h| == 4 && Unit(h + rest) == Some(n) && (n < 0xD800 || 0xE000 <= n < 0x10000)
    ensures ParseChar(['\\', 'u'] + h + rest) == Some(Parsed(n as char, rest))
  {
    var s := ['\\', 'u'] + h + rest;
    assert s[2..] == h + rest;
    assert (h + rest)[4..] == rest;
  }

  /** The digits h and l of a surrogate pair. */
  lemma ParsePair(h: string, l: string, n: nat, rest: string)
    requires |h| == |l| == 4 && 0x10000 <= n < 0x110000
    requires Unit(h + (['\\', 'u'] + l + rest)) == Some(High(n)) && Unit(l + rest) == Some(Low(n))
    ensures ParseChar(['\\', 'u'] + h + (['\\', 'u'] + l) + rest) == Some(Parsed(n as char, rest))
  {
    var s := ['\\', 'u'] + h + (['\\', 'u'] + l) + rest;
    var t := h + (['\\', 'u'] + l + rest);
    assert s[2..] == t;
    assert t[4] == '\\' && t[5] == 'u' && t[6..] == l + rest;
    assert t[10..] == rest;
    assert 0x10000 + (High(n) - 0xD800) * 1024 + (Low(n) - 0xDC00) == n;
  }

  lemma ShortRoundTrip(c: char, e: char, rest: string)
    requires e != 'u' && ShortEscape(e) == Some(c)
    ensures ParseChar(['\\', e] + rest) == Some(Parsed(c, rest))
  {
    assert (['\\', e] + rest)[2..] == rest;
  }

  lemma CharRoundTrip(c: char, rest: string)
    ensures ParseChar(EscapeChar(c) + rest) == Some(Parsed(c, rest))
    ensures (EscapeChar(c) + rest)[0] != '"'
  {
    var n := c as int;
    if IsPlain(c) {
      assert ([c] + rest)[1..] == rest;
    } else if c == '"' || c == '\\' {
      ShortRoundTrip(c, c, rest);
    } else if n == 10 {
      ShortRoundTrip(c, 'n', rest);
    } else if n == 13 {
      ShortRoundTrip(c, 'r', rest);
    } else if n == 9 {
      ShortRoundTrip(c, 't', rest);
    } else if n == 8 {
      ShortRoundTrip(c, 'b', rest);
    } else if n == 12 {
      ShortRoundTrip(c, 'f', rest);
    } else if n < 0x10000 {
      UnitOfHex4(n, rest);
      ParsePlainUnit(Hex4(n), n, rest);
    } else {
      UnitOfHex4(High(n), ['\\', 'u'] + Hex4(Low(n)) + rest);
      UnitOfHex4(Low(n), rest);
      ParsePair(Hex4(High(n)), Hex4(Low(n)), n, rest);
    }
  }

  lemma ParseCharsStep(e: string, c: char, t: string, tail: string, rest: string)
    requires |e| > 0 && e[0] != '"' && ParseChar(e + tail) == Some(Parsed(c, tail))
    requires ParseChars(tail) == Some(Parsed(t, rest))
    ensures ParseChars(e + tail) == Some(Parsed([c] + t, rest))
  {
  }

  lemma {:induction false} CharsRoundTrip(t: string, rest: string)
    ensures ParseChars(Escape(t) + (['"'] + rest)) == Some(Parsed(t, rest))
  {
    if |t| == 0 {
      assert Escape(t) + (['"'] + rest) == ['"'] + rest;
      assert (['"'] + rest)[1..] == rest;
    } else {
      var e, tail := EscapeChar(t[0]), Escape(t[1..]) + (['"'] + rest);
      CharRoundTrip(t[0], tail);
      CharsRoundTrip(t[1..], rest);
      ParseCharsStep(e, t[0], t[1..], tail, rest);
      Associate(e, Escape(t[1..]), ['"'] + rest);
      assert [t[0]] + t[1..] == t;
    }
  }

  lemma Associate(a: string, b: string, c: string)
    ensures (a + b) + c == a + (b + c)
  {
  }

  // ---------------------------------------------------------------- numbers

  predicate IsNumberChar(c: char) { IsDigit(c) || c == '-' || c == '+' || c == '.' || c == 'e' || c == 'E' }

  /** The length of the longest prefix of number characters. */
  function NumberSpan(s: string): (n: nat)
    ensures n <= |s|
    ensures forall k :: 0 <= k < n ==> IsNumberChar(s[k])
  {
    if |s| == 0 || !IsNumberChar(s[0]) then 0 else 1 + NumberSpan(s[1..])
  }

  function DigitSpan(s: string): (n: nat)
    ensures n <= |s|
    ensures forall k :: 0 <= k < n ==> IsDigit(s[k])
  {
    if |s| == 0 || !IsDigit(s[0]) then 0 else 1 + DigitSpan(s[1..])
  }

  predicate IsDigits(s: string) { |s| > 0 && forall k :: 0 <= k < |s| ==> IsDigit(s[k]) }

  /** The digits of an int literal: no leading zero unless it is the only one. */
  predicate IsNatural(s: string) { IsDigits(s) && (s[0] == '0' ==> |s| == 1) }

  predicate IsIntLiteral(s: string) { IsNatural(s) || (|s| > 0 && s[0] == '-' && IsNatural(s[1..])) }

  /** An exponent: e or E, an optional sign, digits. */
  predicate IsExponent(s: string) {
    |s| > 1 && (s[0] == 'e' || s[0] == 'E') && (IsDigits(s[1..]) || ((s[1] == '+' || s[1] == '-') && IsDigits(s[2..])))
  }

  /** A fraction and an exponent, at least one of them. */
  predicate IsFractionExponent(s: string) {
    IsExponent(s) ||
    (|s| > 1 && s[0] == '.' &&
     (var d := DigitSpan(s[1..]); d > 0 && (s[1 + d..] == "" || IsExponent(s[1 + d..]))))
  }

  predicate IsFloatLiteral(s: string) {
    var t := if |s| > 0 && s[0] == '-' then s[1..] else s;
    var d := DigitSpan(t);
    IsNatural(t[..d]) && IsFractionExponent(t[d..])
  }

  function DumpInt(n: int): string { if n < 0 then ['-'] + Decimal(-n) else Decimal(n) }

  function IntValue(s: string): int
    requires IsIntLiteral(s)
  {
    if s[0] == '-' then -(Value(s[1..]) as int) else Value(s)
  }

  function ParseNumber(s: string): (r: Option<Parsed<Json>>)
    ensures r.Some? ==> |r.value.rest| < |s|
  {
    var n := NumberSpan(s);
    if IsIntLiteral(s[..n]) then Some(Parsed(Int(IntValue(s[..n])), s[n..]))
    else if IsFloatLiteral(s[..n]) then Some(Parsed(Float(s[..n]), s[n..]))
    else None
  }

  /** A literal ends where no number character follows. */
  predicate Ends(rest: string) { |rest| == 0 || !IsNumberChar(rest[0]) }

  lemma {:induction false} SpanOfLiteral(s: string, rest: string)
    requires (forall k :: 0 <= k < |s| ==> IsNumberChar(s[k])) && Ends(rest)
    ensures NumberSpan(s + rest) == |s|
  {
    if |s| == 0 {
      assert s + rest == rest;
    } else {
      assert (s + rest)[1..] == s[1..] + rest;
      SpanOfLiteral(s[1..], rest);
    }
  }

  lemma {:induction false} DecimalIsNatural(n: nat)
    ensures IsNatural(Decimal(n)) && (n > 0 ==> Decimal(n)[0] != '0')
  {
    if n >= 10 {
      DecimalIsNatural(n / 10);
    }
  }

  lemma IntRoundTrip(n: int, rest: string)
    requires Ends(rest)
    ensures ParseNumber(DumpInt(n) + rest) == Some(Parsed(Int(n), rest))
    ensures IsNumberChar(DumpInt(n)[0])
  {
    var s := DumpInt(n);
    var m := if n < 0 then -n else n;
    DecimalIsNatural(m);
    ValueOfDecimal(m);
    SpanOfLiteral(s, rest);
    assert (s + rest)[..|s|] == s && (s + rest)[|s|..] == rest;
    assert n < 0 ==> s[1..] == Decimal(m);
  }

  lemma ExponentChars(s: string)
    requires IsExponent(s)
    ensures forall k :: 0 <= k < |s| ==> IsNumberChar(s[k])
  {
    forall k | 0 <= k < |s| ensures IsNumberChar(s[k]) {
      if k > 1 {
        assert s[k] == s[1..][k - 1] == s[2..][k - 2];
      } else if k == 1 {
        assert s[1] == s[1..][0];
      }
    }
  }

  lemma FractionExponentChars(s: string)
    requires IsFractionExponent(s)
    ensures forall k :: 0 <= k < |s| ==> IsNumberChar(s[k])
    ensures |s| > 0 && !IsDigit(s[0])
  {
    if IsExponent(s) {
      ExponentChars(s);
    } else {
      var d := DigitSpan(s[1..]);
      if IsExponent(s[1 + d..]) {
        ExponentChars(s[1 + d..]);
      }
      forall k | 0 <= k < |s| ensures IsNumberChar(s[k]) {
        if 1 <= k <= d {
          assert s[k] == s[1..][k - 1];
        } else if k > d {
          assert s[k] == s[1 + d..][k - 1 - d];
        }
      }
    }
  }

  lemma FloatChars(s: string)
    requires IsFloatLiteral(s)
    ensures |s| > 0 && forall k :: 0 <= k < |s| ==> IsNumberChar(s[k])
    ensures !IsIntLiteral(s)
  {
    var sign := if s[0] == '-' then 1 else 0;
    var t := if s[0] == '-' then s[1..] else s;
    var d := DigitSpan(t);
    FractionExponentChars(t[d..]);
    assert !IsDigit(t[d]) by { assert t[d] == t[d..][0]; }
    assert t[d] == s[sign + d];
    forall k | 0 <= k < |s| ensures IsNumberChar(s[k]) {
      if sign <= k < sign + d {
        assert s[k] == t[k - sign];
      } else if k >= sign + d {
        assert s[k] == t[d..][k - sign - d];
      }
    }
    if s[0] == '-' {
      assert !IsDigit(s[1..][d]);
    }
  }

  lemma FloatRoundTrip(s: string, rest: string)
    requires IsFloatLiteral(s) && Ends(rest)
    ensures ParseNumber(s + rest) == Some(Parsed(Float(s), rest))
    ensures |s| > 0 && IsNumberChar(s[0])
  {
    FloatChars(s);
    SpanOfLiteral(s, rest);
    assert (s + rest)[..|s|] == s && (s + rest)[|s|..] == rest;
  }

  // ---------------------------------------------------------------- values

  /** separators=(",", ":"), or json.dumps's default pair. */
  datatype Style = Compact | Spaced {
    function Comma(): string { if Compact? then "," else ", " }
    function Colon(): string { if Compact? then ":" else ": " }
  }

  function Dumps(j: Json, style: Style): string
    decreases j, 0
  {
    match j
    case Null => "null"
    case Bool(b) => if b then "true" else "false"
    case Int(n) => DumpInt(n)
    case Float(literal) => literal
    case Str(s) => Quote(s)
    case Arr(items) =>
        (match items case Nil => "[]" case Cons(v, more) => "[" + (Dumps(v, style) + DumpItems(more, style)))
    case Obj(fields) =>
      match fields
      case Empty => "{}"
      case More(k, v, more) => "{" + (DumpEntry(k, v, style) + DumpFields(more, style))
  }

  /** What follows an item of an array. */
  function DumpItems(items: Items, style: Style): string
    decreases items, 0
  {
    match items
    case Nil => "]"
    case Cons(v, more) => style.Comma() + (Dumps(v, style) + DumpItems(more, style))
  }

  function DumpEntry(k: string, v: Json, style: Style): string
    decreases v, 1
  {
    Quote(k) + (style.Colon() + Dumps(v, style))
  }

  /** What follows an entry of an object. */
  function DumpFields(fields: Fields, style: Style): string
    decreases fields, 0
  {
    match fields
    case Empty => "}"
    case More(k, v, more) => style.Comma() + (DumpEntry(k, v, style) + DumpFields(more, style))
  }

  /** A value Python can hold: distinct keys, and float literals that are some float's repr. */
  predicate WellFormed(j: Json) {
    match j
    case Float(literal) => IsFloatLiteral(literal)
    case Arr(items) => WellFormedItems(items)
    case Obj(fields) => WellFormedFields(fields)
    case _ => true
  }

  predicate WellFormedItems(items: Items) {
    items.Cons? ==> WellFormed(items.head) && WellFormedItems(items.tail)
  }

  predicate WellFormedFields(fields: Fields) {
    fields.More? ==> !fields.rest.Has(fields.key) && WellFormed(fields.value) && WellFormedFields(fields.rest)
  }

  predicate IsSpace(c: char) { c == ' ' || c == '\n' || c == '\r' || c == '\t' }

  function SkipSpace(s: string): (r: string)
    ensures |r| <= |s|
  {
    if |s| > 0 && IsSpace(s[0]) then SkipSpace(s[1..]) else s
  }

  /** A parsed entry put in front of the later ones: of two values for a key the later one counts, in the
      place of the first. */
  function Put(k: string, v: Json, later: Fields): Fields {
    match later.Get(k)
    case Some(w) => More(k, w, later.Without(k))
    case None => More(k, v, later)
  }

  /** One value; s has no leading space. */
  function ParseValue(s: string): (r: Option<Parsed<Json>>)
    ensures r.Some? ==> |r.value.rest| < |s|
    decreases |s|, 0
  {
    if |s| == 0 then None
    else if s[0] == '"' then
      (match ParseChars(s[1..]) case None => None case Some(t) => Some(Parsed(Str(t.value), t.rest)))
    else if s[0] == '[' then
      var t := SkipSpace(s[1..]);
      if |t| > 0 && t[0] == ']' then Some(Parsed(Arr(Nil), t[1..]))
      else
        (match ParseItem(t) case None => None case Some(p) => Some(Parsed(Arr(p.value), p.rest)))
    else if s[0] == '{' then
      var t := SkipSpace(s[1..]);
      if |t| > 0 && t[0] == '}' then Some(Parsed(Obj(Empty), t[1..]))
      else
        (match ParseEntry(t) case None => None case Some(p) => Some(Parsed(Obj(p.value), p.rest)))
    else if "null" <= s then Some(Parsed(Null, s[4..]))
    else if "true" <= s then Some(Parsed(Bool(true), s[4..]))
    else if "false" <= s then Some(Parsed(Bool(false), s[5..]))
    else ParseNumber(s)
  }

  /** A value, then the rest of the array. */
  function ParseItem(s: string): (r: Option<Parsed<Items>>)
    ensures r.Some? ==> |r.value.rest| < |s|
    decreases |s|, 2
  {
    match ParseValue(s)
    case None => None
    case Some(v) =>
      match ParseItems(v.rest) {
        case None => None
        case Some(more) => Some(Parsed(Cons(v.value, more.value), more.rest))
      }
  }

  /** What follows an item. */
  function ParseItems(s: string): (r: Option<Parsed<Items>>)
    ensures r.Some? ==> |r.value.rest| < |s|
    decreases |s|, 1
  {
    var t := SkipSpace(s);
    if |t| == 0 then None
    else if t[0] == ']' then Some(Parsed(Nil, t[1..]))
    else if t[0] == ',' then ParseItem(SkipSpace(t[1..]))
    else None
  }

  /** A key and a value, then the rest of the object. */
  function ParseEntry(s: string): (r: Option<Parsed<Fields>>)
    ensures r.Some? ==> |r.value.rest| < |s|
    decreases |s|, 2
  {
    if |s| == 0 || s[0] != '"' then None
    else match ParseChars(s[1..])
      case None => None
      case Some(k) =>
        var t := SkipSpace(k.rest);
        if |t| == 0 || t[0] != ':' then None
        else match ParseValue(SkipSpace(t[1..])) {
          case None => None
          case Some(v) =>
            match ParseFields(v.rest) {
              case None => None
              case Some(more) => Some(Parsed(Put(k.value, v.value, more.value), more.rest))
            }
        }
  }

  /** What follows an entry. */
  function ParseFields(s: string): (r: Option<Parsed<Fields>>)
    ensures r.Some? ==> |r.value.rest| < |s|
    decreases |s|, 1
  {
    var t := SkipSpace(s);
    if |t| == 0 then None
    else if t[0] == '}' then Some(Parsed(Empty, t[1..]))
    else if t[0] == ',' then ParseEntry(SkipSpace(t[1..]))
    else None
  }

  /** json.loads, None where it raises. */
  function Loads(s: string): Option<Json> {
    match ParseValue(SkipSpace(s))
    case Some(p) => if SkipSpace(p.rest) == "" then Some(p.value) else None
    case None => None
  }

  // ---------------------------------------------------------------- round trip

  lemma GetAbsent(f: Fields, k: string)
    ensures f.Get(k).None? <==> !f.Has(k)
  {
  }

  /** The first character of a printed value is neither space nor a closing bracket. */
  lemma {:induction false} DumpStarts(j: Json, style: Style)
    requires WellFormed(j)
    ensures |Dumps(j, style)| > 0
    ensures var c := Dumps(j, style)[0]; !IsSpace(c) && c != ']' && c != '}'
  {
    if j.Int? {
      IntRoundTrip(j.n, "");
    } else if j.Float? {
      FloatRoundTrip(j.literal, "");
    }
  }

  lemma SkipNone(s: string)
    requires |s| > 0 && !IsSpace(s[0])
    ensures SkipSpace(s) == s
  {
  }

  /** A separator before a printed value is skipped whichever style wrote it. */
  lemma SkipSeparator(style: Style, s: string)
    requires |s| > 0 && !IsSpace(s[0])
    ensures var c := style.Comma() + s; c[0] == ',' && SkipSpace(c) == c && SkipSpace(c[1..]) == s
    ensures var c := style.Colon() + s; c[0] == ':' && SkipSpace(c) == c && SkipSpace(c[1..]) == s
  {
    SkipNone(s);
    if style.Spaced? {
      assert (style.Comma() + s)[1..] == [' '] + s && (style.Colon() + s)[1..] == [' '] + s;
      assert ([' '] + s)[1..] == s;
    } else {
      assert (style.Comma() + s)[1..] == s && (style.Colon() + s)[1..] == s;
    }
  }

  // The parser, one production at a time.

  lemma ReadString(chars: string, t: string, rest: string)
    requires ParseChars(chars) == Some(Parsed(t, rest))
    ensures ParseValue(['"'] + chars) == Some(Parsed(Str(t), rest))
  {
    assert (['"'] + chars)[1..] == chars;
  }

  lemma ReadArray(body: string, items: Items, rest: string)
    requires |body| > 0 && !IsSpace(body[0]) && body[0] != ']' && ParseItem(body) == Some(Parsed(items, rest))
    ensures ParseValue(['['] + body) == Some(Parsed(Arr(items), rest))
  {
    assert (['['] + body)[1..] == body;
  }

  lemma ReadObject(body: string, fields: Fields, rest: string)
    requires |body| > 0 && !IsSpace(body[0]) && body[0] != '}' && ParseEntry(body) == Some(Parsed(fields, rest))
    ensures ParseValue(['{'] + body) == Some(Parsed(Obj(fields), rest))
  {
    assert (['{'] + body)[1..] == body;
  }

  lemma ReadEntries(entry: string, more: string, fields: Fields, rest: string)
    requires |entry| > 0 && !IsSpace(entry[0]) && entry[0] != '}'
    requires ParseEntry(entry + (more + rest)) == Some(Parsed(fields, rest))
    ensures ParseValue("{" + (entry + more) + rest) == Some(Parsed(Obj(fields), rest))
  {
    ReadObject(entry + (more + rest), fields, rest);
    Regroup("{", entry, more, rest);
  }

  lemma ReadNextItem(style: Style, next: string, items: Items, rest: string)
    requires |next| > 0 && !IsSpace(next[0]) && ParseItem(next) == Some(Parsed(items, rest))
    ensures ParseItems(style.Comma() + next) == Some(Parsed(items, rest))
  {
    SkipSeparator(style, next);
  }

  lemma ReadNextEntry(style: Style, next: string, fields: Fields, rest: string)
    requires |next| > 0 && !IsSpace(next[0]) && ParseEntry(next) == Some(Parsed(fields, rest))
    ensures ParseFields(style.Comma() + next) == Some(Parsed(fields, rest))
  {
    SkipSeparator(style, next);
  }

  lemma ReadEntry(style: Style, chars: string, k: string, value: string, v: Json, tail: string, more: Fields,
                  rest: string)
    requires ParseChars(chars) == Some(Parsed(k, style.Colon() + value))
    requires |value| > 0 && !IsSpace(value[0]) && ParseValue(value) == Some(Parsed(v, tail))
    requires ParseFields(tail) == Some(Parsed(more, rest)) && !more.Has(k)
    ensures ParseEntry(['"'] + chars) == Some(Parsed(More(k, v, more), rest))
  {
    assert (['"'] + chars)[1..] == chars;
    SkipSeparator(style, value);
    GetAbsent(more, k);
  }

  lemma ReadEmpty(rest: string)
    ensures ParseValue("[]" + rest) == Some(Parsed(Arr(Nil), rest)) && ParseItems("]" + rest) == Some(Parsed(Nil, rest))
    ensures ParseValue("{}" + rest) == Some(Parsed(Obj(Empty), rest))
            && ParseFields("}" + rest) == Some(Parsed(Empty, rest))
  {
    assert ("[]" + rest)[1..] == "]" + rest && ("]" + rest)[1..] == rest;
    assert ("{}" + rest)[1..] == "}" + rest && ("}" + rest)[1..] == rest;
  }

  lemma ReadWord(rest: string)
    ensures ParseValue("null" + rest) == Some(Parsed(Null, rest))
    ensures ParseValue("true" + rest) == Some(Parsed(Bool(true), rest))
    ensures ParseValue("false" + rest) == Some(Parsed(Bool(false), rest))
  {
    assert ("null" + rest)[4..] == rest;
    assert ("true" + rest)[4..] == rest;
    assert ("false" + rest)[5..] == rest;
  }

  lemma ReadNumber(s: string, rest: string, j: Json)
    requires |s| > 0 && IsNumberChar(s[0]) && ParseNumber(s + rest) == Some(Parsed(j, rest))
    ensures ParseValue(s + rest) == Some(Parsed(j, rest))
  {
    assert (s + rest)[0] == s[0];
    assert "null"[0] == 'n' && "true"[0] == 't' && "false"[0] == 'f';
  }

  lemma Regroup(a: string, b: string, c: string, d: string)
    ensures a + (b + c) + d == a + (b + (c + d)) == (a + b) + (c + d)
  {
  }

  lemma QuoteText(t: string, rest: string)
    ensures Quote(t) + rest == ['"'] + (Escape(t) + (['"'] + rest))
  {
    Regroup(['"'], Escape(t), ['"'], rest);
  }

  lemma ScalarRoundTrip(j: Json, style: Style, rest: string)
    requires !j.Arr? && !j.Obj? && WellFormed(j) && Ends(rest)
    ensures ParseValue(Dumps(j, style) + rest) == Some(Parsed(j, rest))
  {
    match j
    case Null => ReadWord(rest);
    case Bool(b) => ReadWord(rest);
    case Int(n) =>
      IntRoundTrip(n, rest);
      ReadNumber(DumpInt(n), rest, j);
    case Float(literal) =>
      FloatRoundTrip(literal, rest);
      ReadNumber(literal, rest, j);
    case Str(t) =>
      CharsRoundTrip(t, rest);
      ReadString(Escape(t) + (['"'] + rest), t, rest);
      QuoteText(t, rest);
  }

  lemma {:induction false} ValueRoundTrip(j: Json, style: Style, rest: string)
    requires WellFormed(j) && Ends(rest)
    ensures ParseValue(Dumps(j, style) + rest) == Some(Parsed(j, rest))
    decreases j, 0
  {
    if j.Arr? {
      ArrayRoundTrip(j.items, style, rest);
    } else if j.Obj? {
      ObjectRoundTrip(j.fields, style, rest);
    } else {
      ScalarRoundTrip(j, style, rest);
    }
  }

  lemma {:induction false} ArrayRoundTrip(items: Items, style: Style, rest: string)
    requires WellFormedItems(items)
    ensures ParseValue(Dumps(Arr(items), style) + rest) == Some(Parsed(Arr(items), rest))
    decreases items, 2
  {
    match items
    case Nil => ReadEmpty(rest);
    case Cons(v, more) =>
      var body := Dumps(v, style) + (DumpItems(more, style) + rest);
      ItemRoundTrip(v, more, style, rest);
      DumpStarts(v, style);
      ReadArray(body, items, rest);
      Regroup("[", Dumps(v, style), DumpItems(more, style), rest);
  }

  lemma {:induction false} EntryStarts(k: string, v: Json, style: Style)
    ensures |DumpEntry(k, v, style)| > 0 && DumpEntry(k, v, style)[0] == '"'
  {
  }

  lemma {:induction false} DumpsObject(k: string, v: Json, more: Fields, style: Style)
    ensures Dumps(Obj(More(k, v, more)), style) == "{" + (DumpEntry(k, v, style) + DumpFields(more, style))
  {
  }

  lemma {:induction false} ObjectRoundTrip(fields: Fields, style: Style, rest: string)
    requires WellFormedFields(fields)
    ensures ParseValue(Dumps(Obj(fields), style) + rest) == Some(Parsed(Obj(fields), rest))
    decreases fields, 2
  {
    match fields
    case Empty => ReadEmpty(rest);
    case More(k, v, more) =>
      EntryRoundTrip(k, v, more, style, rest);
      EntryStarts(k, v, style);
      ReadEntries(DumpEntry(k, v, style), DumpFields(more, style), fields, rest);
      DumpsObject(k, v, more, style);
  }

  lemma {:induction false} ItemRoundTrip(v: Json, more: Items, style: Style, rest: string)
    requires WellFormed(v) && WellFormedItems(more)
    ensures ParseItem(Dumps(v, style) + (DumpItems(more, style) + rest)) == Some(Parsed(Cons(v, more), rest))
    decreases Cons(v, more), 1
  {
    var tail := DumpItems(more, style) + rest;
    ItemsRoundTrip(more, style, rest);
    SeparatorsEnd(style, more, Empty, rest);
    ValueRoundTrip(v, style, tail);
  }

  lemma {:induction false} ItemsRoundTrip(more: Items, style: Style, rest: string)
    requires WellFormedItems(more)
    ensures ParseItems(DumpItems(more, style) + rest) == Some(Parsed(more, rest))
    decreases more, 3
  {
    match more
    case Nil => ReadEmpty(rest);
    case Cons(v, tail) =>
      var next := Dumps(v, style) + (DumpItems(tail, style) + rest);
      ItemRoundTrip(v, tail, style, rest);
      DumpStarts(v, style);
      ReadNextItem(style, next, more, rest);
      Regroup(style.Comma(), Dumps(v, style), DumpItems(tail, style), rest);
  }

  /** What follows an item or an entry ends a number. */
  lemma SeparatorsEnd(style: Style, items: Items, fields: Fields, rest: string)
    ensures Ends(DumpItems(items, style) + rest) && Ends(DumpFields(fields, style) + rest)
  {
  }

  lemma {:induction false} EntryRoundTrip(k: string, v: Json, more: Fields, style: Style, rest: string)
    requires WellFormed(v) && WellFormedFields(more) && !more.Has(k)
    ensures var s := DumpEntry(k, v, style) + (DumpFields(more, style) + rest);
            ParseEntry(s) == Some(Parsed(More(k, v, more), rest)) && s[0] == '"'
    decreases More(k, v, more), 1
  {
    var tail := DumpFields(more, style) + rest;
    var value := Dumps(v, style) + tail;
    FieldsRoundTrip(more, style, rest);
    SeparatorsEnd(style, Nil, more, rest);
    ValueRoundTrip(v, style, tail);
    DumpStarts(v, style);
    CharsRoundTrip(k, style.Colon() + value);
    ReadEntry(style, Escape(k) + (['"'] + (style.Colon() + value)), k, value, v, tail, more, rest);
    EntryText(k, style, Dumps(v, style), tail);
  }

  lemma EntryText(k: string, style: Style, value: string, tail: string)
    ensures Quote(k) + (style.Colon() + value) + tail ==
            ['"'] + (Escape(k) + (['"'] + (style.Colon() + (value + tail))))
  {
    Associate(style.Colon(), value, tail);
    Associate(Quote(k), style.Colon() + value, tail);
    QuoteText(k, style.Colon() + (value + tail));
  }

  lemma {:induction false} FieldsRoundTrip(more: Fields, style: Style, rest: string)
    requires WellFormedFields(more)
    ensures ParseFields(DumpFields(more, style) + rest) == Some(Parsed(more, rest))
    decreases more, 3
  {
    match more
    case Empty => ReadEmpty(rest);
    case More(k, v, tail) =>
      var next := DumpEntry(k, v, style) + (DumpFields(tail, style) + rest);
      EntryRoundTrip(k, v, tail, style, rest);
      ReadNextEntry(style, next, more, rest);
      Regroup(style.Comma(), DumpEntry(k, v, style), DumpFields(tail, style), rest);
  }

  /** json.loads undoes json.dumps, in either style, for every value. */
  lemma LoadsOfDumps(j: Json, style: Style)
    requires WellFormed(j)
    ensures Loads(Dumps(j, style)) == Some(j)
  {
    DumpStarts(j, style);
    SkipNone(Dumps(j, style));
    ValueRoundTrip(j, style, "");
    assert Dumps(j, style) + "" == Dumps(j, style);
  }

  // ---------------------------------------------------------------- lengths

  lemma {:induction false} EscapePlain(s: string)
    requires forall k :: 0 <= k < |s| ==> IsPlain(s[k])
    ensures Escape(s) == s
  {
    if |s| > 0 {
      EscapePlain(s[1..]);
      assert [s[0]] + s[1..] == s;
    }
  }

  lemma {:induction false} EscapeIsNoShorter(s: string)
    ensures |Escape(s)| >= |s|
  {
    if |s| > 0 {
      EscapeIsNoShorter(s[1..]);
    }
  }

  lemma {:induction false} ValueWithin(fields: Fields, k: string, style: Style)
    requires fields.Get(k).Some?
    ensures |DumpFields(fields, style)| > |Dumps(fields.Get(k).value, style)|
    ensures |Dumps(Obj(fields), style)| > |Dumps(fields.Get(k).value, style)|
  {
    if fields.key != k {
      ValueWithin(fields.rest, k, style);
    }
    DumpsObject(fields.key, fields.value, fields.rest, style);
  }

  lemma StringWithin(outer: Fields, k: string, inner: Fields, l: string, s: string, style: Style)
    requires outer.Get(k) == Some(Obj(inner)) && inner.Get(l) == Some(Str(s))
    ensures |Dumps(Obj(outer), style)| > |s|
  {
    ValueWithin(outer, k, style);
    ValueWithin(inner, l, style);
    EscapeIsNoShorter(s);
  }
}
