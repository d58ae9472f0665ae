/**
 * Text helpers shared by the model: the decimal rendering of an integral JS number,
 * `padStart(2, '0')`, the month labels built from them, JavaScript's default string
 * ordering, and the case-insensitive substring test behind `/time|date/i`.
 */
module Strings {
  import opened Options

  predicate IsDigit(c: char) {
    '0' <= c <= '9'
  }

  predicate AllDigits(s: string) {
    forall i :: 0 <= i < |s| ==> IsDigit(s[i])
  }

  function DigitChar(d: int): (c: char)
    requires 0 <= d < 10
    ensures IsDigit(c)
  {
    (d + '0' as int) as char
  }

  function DigitValue(c: char): (d: int)
    requires IsDigit(c)
    ensures 0 <= d < 10
  {
    c as int - '0' as int
  }

  /** `String(n)` for a non-negative integral number: no leading zeros, at least one digit. */
  function NatText(n: nat): (s: string)
    ensures |s| >= 1 && AllDigits(s)
    ensures |s| > 1 ==> s[0] != '0'
    ensures n < 10 ==> |s| == 1
    ensures 10 <= n < 100 ==> |s| == 2
    decreases n
  {
    if n < 10 then [DigitChar(n)] else NatText(n / 10) + [DigitChar(n % 10)]
  }

  /** `String(n)` / `${n}` for any integral number. */
  function IntText(n: int): string {
    if n < 0 then "-" + NatText(-n) else NatText(n)
  }

  /** `String(n).padStart(2, '0')`. */
  function Pad2(n: nat): (s: string)
    ensures n < 100 ==> |s| == 2 && AllDigits(s)
  {
    if n < 10 then "0" + NatText(n) else NatText(n)
  }

  /** The value of a non-empty run of decimal digits. */
  function ParseNat(s: string): nat
    requires |s| >= 1 && AllDigits(s)
  {
    if |s| == 1 then DigitValue(s[0])
    else ParseNat(s[..|s| - 1]) * 10 + DigitValue(s[|s| - 1])
  }

  /** Digits as `String` writes a non-negative integer: at least one, and no leading zero. */
  predicate CanonicalDigits(s: string) {
    |s| >= 1 && AllDigits(s) && (|s| > 1 ==> s[0] != '0')
  }

  /**
   * Reads back exactly what `IntText` writes: canonical digits with an optional '-', but never
   * "-0". Anything else is `None`, so no integer is read from two different texts.
   */
  function ParseInt(s: string): Option<int> {
    if |s| >= 2 && s[0] == '-' && CanonicalDigits(s[1..]) && s[1..] != "0" then Some(-(ParseNat(s[1..]) as int))
    else if CanonicalDigits(s) then Some(ParseNat(s))
    else None
  }

  lemma {:induction false} ParseNatText(n: nat)
    ensures ParseNat(NatText(n)) == n
    decreases n
  {
    if n >= 10 {
      var s := NatText(n);
      assert s[..|s| - 1] == NatText(n / 10);
      ParseNatText(n / 10);
    }
  }

  lemma IntTextRoundTrip(n: int)
    ensures ParseInt(IntText(n)) == Some(n)
  {
    var s := IntText(n);
    if n < 0 {
      var t := NatText(-n);
      assert s == "-" + t;
      assert s[1..] == t;
      ParseNatText(-n);
      assert ParseNat("0") == 0;
    } else {
      assert IsDigit(s[0]);
      ParseNatText(n);
    }
  }

  /** Digits that do not start with '0' stand for a positive number. */
  lemma {:induction false} ParseNatPositive(s: string)
    requires |s| >= 1 && AllDigits(s) && s[0] != '0'
    ensures ParseNat(s) >= 1
    decreases |s|
  {
    if |s| > 1 {
      ParseNatPositive(s[..|s| - 1]);
    }
  }

  /** Canonical digits are the text of their own value. */
  lemma {:induction false} NatTextOfParseNat(s: string)
    requires CanonicalDigits(s)
    ensures NatText(ParseNat(s)) == s
    decreases |s|
  {
    if |s| > 1 {
      var init, last := s[..|s| - 1], s[|s| - 1];
      ParseNatPositive(init);
      NatTextOfParseNat(init);
      var high, low := ParseNat(init), DigitValue(last);
      var n := ParseNat(s);
      assert n == high * 10 + low;
      AppendDigit(high, low);
      assert NatText(n) == NatText(high) + [DigitChar(low)];
      assert DigitChar(low) == last;
      assert s == init + [last];
    }
  }

  /** Appending digit `low` to a positive number `high` is multiplying by ten and adding. */
  lemma AppendDigit(high: nat, low: nat)
    requires high >= 1 && low < 10
    ensures high * 10 + low >= 10
    ensures (high * 10 + low) / 10 == high && (high * 10 + low) % 10 == low
  {
  }

  /** Every text `ParseInt` accepts is `IntText` of the value it reads. */
  lemma IntTextOfParseInt(s: string)
    requires ParseInt(s).Some?
    ensures IntText(ParseInt(s).value) == s
  {
    if |s| >= 2 && s[0] == '-' && CanonicalDigits(s[1..]) && s[1..] != "0" {
      var digits := s[1..];
      NatTextOfParseNat(digits);
      ParseNatPositive(digits);
      assert s == "-" + digits;
    } else {
      NatTextOfParseNat(s);
    }
  }

  /**
   * A month rendered as `<year><sep><two-digit month><suffix>`: `YYYY-MM` for chart labels and
   * `YYYY年MM月` for display. For a real month it reads back as the year and month, and it is
   * the only text that does.
   */
  function MonthText(year: int, month: nat, sep: string, suffix: string): (text: string)
    ensures month < 100 ==> ParseMonthText(text, sep, suffix) == Some((year, month as int))
    ensures month < 100 ==> forall t :: ParseMonthText(t, sep, suffix) == Some((year, month as int)) ==> t == text
  {
    if month < 100 then
      MonthTextRoundTrip(year, month, sep, suffix);
      MonthTextOnly(year, month, sep, suffix);
      IntText(year) + sep + Pad2(month) + suffix
    else
      IntText(year) + sep + Pad2(month) + suffix
  }

  /** Splits a month text back into its year and month; the inverse of `MonthText` for real months. */
  function ParseMonthText(s: string, sep: string, suffix: string): Option<(int, int)> {
    var tail := |sep| + 2 + |suffix|;
    if |s| < tail then None
    else
      var yearText := s[..|s| - tail];
      var monthText := s[|s| - tail + |sep|..|s| - |suffix|];
      if s[|s| - tail..|s| - tail + |sep|] == sep && s[|s| - |suffix|..] == suffix
         && AllDigits(monthText) && ParseInt(yearText).Some?
      then Some((ParseInt(yearText).value, ParseNat(monthText)))
      else None
  }

  /** A padded month reads back as itself. */
  lemma Pad2RoundTrip(month: nat)
    requires month < 100
    ensures AllDigits(Pad2(month)) && ParseNat(Pad2(month)) == month
  {
    ParseNatText(month);
    if month < 10 {
      var p := Pad2(month);
      assert p[..1] == "0" && p[1..] == NatText(month);
      assert ParseNat(p) == DigitValue('0') * 10 + DigitValue(p[1]);
    }
  }

  /** Two digits are the padded text of the month they stand for. */
  lemma Pad2OfParseNat(p: string)
    requires |p| == 2 && AllDigits(p)
    ensures ParseNat(p) < 100 && Pad2(ParseNat(p)) == p
  {
    var m := ParseNat(p);
    assert p[..1] == [p[0]];
    assert m == DigitValue(p[0]) * 10 + DigitValue(p[1]);
    if p[0] == '0' {
      assert Pad2(m) == "0" + [DigitChar(DigitValue(p[1]))];
      assert p == [p[0]] + [p[1]];
    } else {
      NatTextOfParseNat(p);
    }
  }

  /** The pieces of `y + sep + p + suffix` sit where `ParseMonthText` looks for them. */
  lemma MonthTextPieces(y: string, sep: string, p: string, suffix: string)
    requires |p| == 2
    ensures (y + sep + p + suffix)[..|y|] == y
    ensures (y + sep + p + suffix)[|y|..|y| + |sep|] == sep
    ensures (y + sep + p + suffix)[|y| + |sep|..|y| + |sep| + 2] == p
    ensures (y + sep + p + suffix)[|y| + |sep| + 2..] == suffix
  {
    var s := y + sep + p + suffix;
    assert s == y + (sep + (p + suffix));
    assert s[|y|..] == sep + (p + suffix);
    assert s[|y| + |sep|..] == p + suffix;
  }

  /** The joined pieces of a month text read back as the year and month. */
  lemma MonthTextRoundTrip(year: int, month: nat, sep: string, suffix: string)
    requires month < 100
    ensures ParseMonthText(IntText(year) + sep + Pad2(month) + suffix, sep, suffix) == Some((year, month as int))
  {
    var y := IntText(year);
    var p := Pad2(month);
    var s := y + sep + p + suffix;
    assert |s| - (|sep| + 2 + |suffix|) == |y|;
    MonthTextPieces(y, sep, p, suffix);
    IntTextRoundTrip(year);
    Pad2RoundTrip(month);
  }

  /**
   * The other direction of the round trip: a text that reads back as `(year, month)` is exactly
   * the year's text, the separator, the padded month and the suffix, so the parse is canonical.
   */
  lemma MonthTextOfParse(s: string, sep: string, suffix: string, year: int, month: int)
    requires ParseMonthText(s, sep, suffix) == Some((year, month))
    ensures 0 <= month < 100
    ensures s == IntText(year) + sep + Pad2(month) + suffix
  {
    var tail := |sep| + 2 + |suffix|;
    var i, j, k := |s| - tail, |s| - tail + |sep|, |s| - |suffix|;
    var yearText, monthText := s[..i], s[j..k];
    assert s[i..j] == sep && s[k..] == suffix;
    assert ParseInt(yearText) == Some(year) && ParseNat(monthText) == month;
    IntTextOfParseInt(yearText);
    Pad2OfParseNat(monthText);
    SplitFour(s, i, j, k);
  }

  /** A string is the join of its pieces between three cut points. */
  lemma SplitFour(s: string, i: nat, j: nat, k: nat)
    requires i <= j <= k <= |s|
    ensures s == s[..i] + s[i..j] + s[j..k] + s[k..]
  {
  }

  /** A real month has exactly one text that reads back as it. */
  lemma MonthTextOnly(year: int, month: nat, sep: string, suffix: string)
    requires month < 100
    ensures forall t :: ParseMonthText(t, sep, suffix) == Some((year, month as int)) ==> t == IntText(year) + sep + Pad2(month) + suffix
  {
    forall t | ParseMonthText(t, sep, suffix) == Some((year, month as int))
      ensures t == IntText(year) + sep + Pad2(month) + suffix
    {
      MonthTextOfParse(t, sep, suffix, year, month);
    }
  }

  /** JavaScript's `<=` on strings: lexicographic by character, a proper prefix first. */
  predicate LexLe(a: string, b: string) {
    |a| == 0 || (|b| > 0 && (a[0] < b[0] || (a[0] == b[0] && LexLe(a[1..], b[1..]))))
  }

  lemma {:induction false} LexLeReflexive(a: string)
    ensures LexLe(a, a)
  {
    if |a| > 0 {
      LexLeReflexive(a[1..]);
    }
  }

  lemma {:induction false} LexLeTotal(a: string, b: string)
    ensures LexLe(a, b) || LexLe(b, a)
  {
    if |a| > 0 && |b| > 0 && a[0] == b[0] {
      LexLeTotal(a[1..], b[1..]);
    }
  }

  lemma {:induction false} LexLeAntisymmetric(a: string, b: string)
    requires LexLe(a, b) && LexLe(b, a)
    ensures a == b
  {
    if |a| > 0 && |b| > 0 {
      LexLeAntisymmetric(a[1..], b[1..]);
      assert a == [a[0]] + a[1..];
      assert b == [b[0]] + b[1..];
    }
  }

  lemma {:induction false} LexLeTransitive(a: string, b: string, c: string)
    requires LexLe(a, b) && LexLe(b, c)
    ensures LexLe(a, c)
  {
    if |a| > 0 && a[0] == b[0] && b[0] == c[0] {
      LexLeTransitive(a[1..], b[1..], c[1..]);
    }
  }

  /** The first string of `xs.sort()`: the lexicographic minimum. */
  function LexMin(xs: seq<string>): (m: string)
    requires |xs| > 0
    ensures m in xs
    ensures forall i :: 0 <= i < |xs| ==> LexLe(m, xs[i])
  {
    if |xs| == 1 then
      LexLeReflexive(xs[0]);
      xs[0]
    else
      var rest := LexMin(xs[1..]);
      LexLeTotal(xs[0], rest);
      LexLeReflexive(xs[0]);
      forall i | 1 <= i < |xs| ensures LexLe(if LexLe(xs[0], rest) then xs[0] else rest, xs[i]) {
        assert xs[i] == xs[1..][i - 1];
        if LexLe(xs[0], rest) { LexLeTransitive(xs[0], rest, xs[i]); }
      }
      if LexLe(xs[0], rest) then xs[0] else rest
  }

  /** The last string of `xs.sort()`: the lexicographic maximum. */
  function LexMax(xs: seq<string>): (m: string)
    requires |xs| > 0
    ensures m in xs
    ensures forall i :: 0 <= i < |xs| ==> LexLe(xs[i], m)
  {
    if |xs| == 1 then
      LexLeReflexive(xs[0]);
      xs[0]
    else
      var rest := LexMax(xs[1..]);
      LexLeTotal(xs[0], rest);
      LexLeReflexive(xs[0]);
      forall i | 1 <= i < |xs| ensures LexLe(xs[i], if LexLe(rest, xs[0]) then xs[0] else rest) {
        assert xs[i] == xs[1..][i - 1];
        if LexLe(rest, xs[0]) { LexLeTransitive(xs[i], rest, xs[0]); }
      }
      if LexLe(rest, xs[0]) then xs[0] else rest
  }

  /** The least element is unique, so any sort puts exactly `LexMin(xs)` first. */
  lemma LexMinUnique(xs: seq<string>, m: string)
    requires m in xs && forall i :: 0 <= i < |xs| ==> LexLe(m, xs[i])
    ensures m == LexMin(xs)
  {
    var k :| 0 <= k < |xs| && xs[k] == LexMin(xs);
    LexLeAntisymmetric(m, LexMin(xs));
  }

  /** The greatest element is unique, so any sort puts exactly `LexMax(xs)` last. */
  lemma LexMaxUnique(xs: seq<string>, m: string)
    requires m in xs && forall i :: 0 <= i < |xs| ==> LexLe(xs[i], m)
    ensures m == LexMax(xs)
  {
    var k :| 0 <= k < |xs| && xs[k] == LexMax(xs);
    LexLeAntisymmetric(m, LexMax(xs));
  }

  /** ASCII case folding, which is all a non-unicode `/…/i` pattern of ASCII letters folds. */
  function Lower(c: char): char {
    if 'A' <= c <= 'Z' then (c as int + 32) as char else c
  }

  /** `pat` (lower-case) occurs in `s` at position `i`, ignoring case. */
  predicate MatchesAt(s: string, i: int, pat: string) {
    0 <= i && i + |pat| <= |s| && forall j :: 0 <= j < |pat| ==> Lower(s[i + j]) == pat[j]
  }

  /** Left-to-right search for `pat` from position `from`, as a regular-expression engine scans. */
  function FindIgnoringCase(s: string, pat: string, from: nat): (found: bool)
    ensures found <==> exists i :: from <= i && MatchesAt(s, i, pat)
    decreases |s| - from
  {
    if from + |pat| > |s| then
      assert forall i :: from <= i ==> !MatchesAt(s, i, pat);
      false
    else if MatchesAt(s, from, pat) then true
    else
      var rest := FindIgnoringCase(s, pat, from + 1);
      assert forall i :: from <= i ==> (MatchesAt(s, i, pat) <==> (i == from && MatchesAt(s, from, pat)) || (from + 1 <= i && MatchesAt(s, i, pat)));
      rest
  }

  /** `/time|date/i.test(name)`: the name contains "time" or "date" in any letter case. */
  function IsDateFieldName(name: string): (r: bool)
    ensures r <==> exists i :: MatchesAt(name, i, "time") || MatchesAt(name, i, "date")
  {
    FindIgnoringCase(name, "time", 0) || FindIgnoringCase(name, "date", 0)
  }
}
