/** Text helpers: decimal numerals and Python's str.replace("{i}", ...). */
module Text {
  import opened Arithmetic

  const DIGITS: seq<char> := ['0', '1', '2', '3', '4', '5', '6', '7', '8', '9']

  predicate IsDigit(c: char) { '0' <= c <= '9' }

  /** str(n) */
  function Decimal(n: nat): (s: string)
    ensures |s| > 0 && forall k :: 0 <= k < |s| ==> IsDigit(s[k])
  {
    if n < 10 then [DIGITS[n]] else Decimal(n / 10) + [DIGITS[n % 10]]
  }

  function DigitValue(c: char): nat
    requires IsDigit(c)
  {
    (c as int) - ('0' as int)
  }

  /** int(s) for a string of digits. */
  function Value(s: string): nat
    requires forall k :: 0 <= k < |s| ==> IsDigit(s[k])
  {
    if |s| == 0 then 0 else 10 * Value(s[..|s| - 1]) + DigitValue(s[|s| - 1])
  }

  lemma {:induction false} ValueOfDecimal(n: nat)
    ensures Value(Decimal(n)) == n
  {
    if n >= 10 {
      ValueOfDecimal(n / 10);
      var s := Decimal(n);
      assert s[..|s| - 1] == Decimal(n / 10);
    }
  }

  lemma DecimalIsInjective(i: nat, j: nat)
    requires Decimal(i) == Decimal(j)
    ensures i == j
  {
    ValueOfDecimal(i);
    ValueOfDecimal(j);
  }

  // ---------------------------------------------------------------- the {i} placeholder

  predicate StartsWithMark(s: string) { |s| >= 3 && s[0] == '{' && s[1] == 'i' && s[2] == '}' }

  predicate HasMark(s: string) { |s| >= 3 && (StartsWithMark(s) || HasMark(s[1..])) }

  /** s.replace("{i}", d): non-overlapping occurrences, left to right. */
  function Fill(s: string, d: string): string {
    if |s| == 0 then ""
    else if StartsWithMark(s) then d + Fill(s[3..], d)
    else [s[0]] + Fill(s[1..], d)
  }

  function Marks(s: string): nat {
    if |s| == 0 then 0 else if StartsWithMark(s) then 1 + Marks(s[3..]) else Marks(s[1..])
  }

  lemma {:induction false} FillLength(s: string, d: string)
    ensures |Fill(s, d)| == |s| - 3 * Marks(s) + |d| * Marks(s)
    ensures |s| >= 3 * Marks(s)
    ensures Marks(s) > 0 <==> HasMark(s)
  {
    if |s| > 0 {
      if StartsWithMark(s) {
        FillLength(s[3..], d);
        assert |d| * (1 + Marks(s[3..])) == |d| + |d| * Marks(s[3..]);
      } else {
        FillLength(s[1..], d);
      }
    }
  }

  lemma {:induction false} NothingToFill(s: string, d: string)
    requires !HasMark(s)
    ensures Fill(s, d) == s
  {
    if |s| > 0 {
      assert |s| < 3 ==> !HasMark(s[1..]);
      NothingToFill(s[1..], d);
    }
  }

  /** A numeral contains no brace, so filling cannot build a new placeholder. */
  lemma {:induction false} NoMarkAcross(d: string, rest: string)
    requires forall k :: 0 <= k < |d| ==> IsDigit(d[k])
    requires !HasMark(rest)
    ensures !HasMark(d + rest)
  {
    if |d| == 0 {
      assert d + rest == rest;
    } else {
      NoMarkAcross(d[1..], rest);
      assert (d + rest)[1..] == d[1..] + rest;
    }
  }

  /** The first three characters of a filled string are a placeholder only if they were one before. */
  lemma {:induction false} FillLeavesNone(s: string, d: string)
    requires |d| > 0 && forall k :: 0 <= k < |d| ==> IsDigit(d[k])
    ensures !HasMark(Fill(s, d))
    ensures |Fill(s, d)| > 0 && !IsDigit(Fill(s, d)[0]) ==> |s| > 0 && s[0] == Fill(s, d)[0]
    ensures |Fill(s, d)| > 1 && !IsDigit(Fill(s, d)[0]) && !IsDigit(Fill(s, d)[1]) ==>
            |s| > 1 && s[..2] == Fill(s, d)[..2]
    ensures !StartsWithMark(s) ==> !StartsWithMark(Fill(s, d))
  {
    if |s| > 0 {
      if StartsWithMark(s) {
        FillLeavesNone(s[3..], d);
        NoMarkAcross(d, Fill(s[3..], d));
      } else {
        var f := Fill(s[1..], d);
        FillLeavesNone(s[1..], d);
        assert ([s[0]] + f)[1..] == f;
      }
    }
  }
}
