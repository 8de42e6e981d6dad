/**
 The few string operations the tracker relies on: `String.prototype.trim`,
 `toLowerCase`, `includes`, and the `"Day <n>"` chart labels together with
 the `parseInt(name.split(" ")[1])` that reads them back.
 */
module Text {
  import opened Seqs

  /** ECMAScript WhiteSpace and LineTerminator code points, the set `trim` strips. */
  predicate IsJsSpace(c: char) {
    || c == '\t' || c == '\n' || c == '\U{000B}' || c == '\U{000C}' || c == '\r' || c == ' '
    || c == '\U{00A0}' || c == '\U{1680}' || ('\U{2000}' <= c <= '\U{200A}')
    || c == '\U{2028}' || c == '\U{2029}' || c == '\U{202F}' || c == '\U{205F}'
    || c == '\U{3000}' || c == '\U{FEFF}'
  }

  /** Number of leading white-space characters. */
  function LeadingSpace(s: string): (n: nat)
    ensures n <= |s|
    ensures forall k :: 0 <= k < n ==> IsJsSpace(s[k])
    ensures n < |s| ==> !IsJsSpace(s[n])
  {
    if |s| == 0 || !IsJsSpace(s[0]) then 0 else 1 + LeadingSpace(s[1..])
  }

  /** Number of trailing white-space characters. */
  function TrailingSpace(s: string): (n: nat)
    ensures n <= |s|
    ensures forall k :: |s| - n <= k < |s| ==> IsJsSpace(s[k])
    ensures n < |s| ==> !IsJsSpace(s[|s| - n - 1])
  {
    if |s| == 0 || !IsJsSpace(s[|s| - 1]) then 0 else 1 + TrailingSpace(s[..|s| - 1])
  }

  /**
   `s.trim()`: the slice between the leading and the trailing white space.
   The result neither starts nor ends with white space, and only white space
   was cut off.
   */
  function Trim(s: string): (r: string)
    ensures exists i, j :: (0 <= i <= j <= |s| && r == s[i..j]
      && (forall k :: 0 <= k < i ==> IsJsSpace(s[k]))
      && (forall k :: j <= k < |s| ==> IsJsSpace(s[k])))
    ensures |r| > 0 ==> !IsJsSpace(r[0]) && !IsJsSpace(r[|r| - 1])
  {
    var i := LeadingSpace(s);
    var j := |s| - TrailingSpace(s[i..]);
    TrimBounds(s);
    s[i..j]
  }

  /** The two cut points of `Trim`: white space outside them, none just inside. */
  lemma TrimBounds(s: string)
    ensures var i := LeadingSpace(s);
      var j := |s| - TrailingSpace(s[i..]);
      && i <= j
      && (forall k :: 0 <= k < i ==> IsJsSpace(s[k]))
      && (forall k :: j <= k < |s| ==> IsJsSpace(s[k]))
      && (i < j ==> !IsJsSpace(s[i]) && !IsJsSpace(s[j - 1]))
  {
    var i := LeadingSpace(s);
    var t := TrailingSpace(s[i..]);
    var j := |s| - t;
    forall k | j <= k < |s| ensures IsJsSpace(s[k]) {
      assert s[k] == s[i..][k - i];
    }
    if i < j {
      assert s[j - 1] == s[i..][|s[i..]| - t - 1];
    }
  }

  /** A trimmed string is empty exactly when the input was all white space. */
  lemma TrimEmptyIffBlank(s: string)
    ensures Trim(s) == "" <==> forall k :: 0 <= k < |s| ==> IsJsSpace(s[k])
  {
    if Trim(s) == "" {
      var i, j :| (0 <= i <= j <= |s| && "" == s[i..j]
        && (forall k :: 0 <= k < i ==> IsJsSpace(s[k]))
        && (forall k :: j <= k < |s| ==> IsJsSpace(s[k])));
      assert i == j;
    }
    if forall k :: 0 <= k < |s| ==> IsJsSpace(s[k]) {
      assert LeadingSpace(s) == |s|;
    }
  }

  /** Trimming twice is trimming once. */
  lemma TrimIdempotent(s: string)
    ensures Trim(Trim(s)) == Trim(s)
  {
    var r := Trim(s);
    if |r| > 0 {
      assert LeadingSpace(r) == 0;
      assert TrailingSpace(r) == 0;
      assert r[0..][..|r| - 0] == r;
    }
  }

  /** `toLowerCase` on a single character, restricted to the ASCII letters. */
  function LowerChar(c: char): char {
    if 'A' <= c <= 'Z' then (c as int + 32) as char else c
  }

  /** `s.toLowerCase()`, character by character. */
  function Lower(s: string): (r: string)
    ensures |r| == |s|
    ensures forall k :: 0 <= k < |s| ==> r[k] == LowerChar(s[k])
  {
    seq(|s|, k requires 0 <= k < |s| => LowerChar(s[k]))
  }

  /** Lower-casing is idempotent: no upper-case letter survives it. */
  lemma LowerIdempotent(s: string)
    ensures Lower(Lower(s)) == Lower(s)
  {
  }

  lemma LowerAppend(a: string, b: string)
    ensures Lower(a + b) == Lower(a) + Lower(b)
  {
  }

  /** `needle` occurs in `hay` at position `i`. */
  predicate OccursAt(hay: string, needle: string, i: int) {
    0 <= i && i + |needle| <= |hay| && hay[i..i + |needle|] == needle
  }

  /** `hay.includes(needle)`, searching position by position from the left. */
  function Includes(hay: string, needle: string): (b: bool)
    ensures b <==> exists i :: OccursAt(hay, needle, i)
    decreases |hay|
  {
    if |needle| <= |hay| && hay[..|needle|] == needle then
      assert OccursAt(hay, needle, 0);
      true
    else if |hay| == 0 then
      false
    else
      var b := Includes(hay[1..], needle);
      assert !OccursAt(hay, needle, 0) by {
        assert |needle| <= |hay| ==> hay[0..|needle|] == hay[..|needle|];
      }
      forall i | OccursAt(hay[1..], needle, i) ensures OccursAt(hay, needle, i + 1) {
        assert hay[1..][i..i + |needle|] == hay[i + 1..i + 1 + |needle|];
      }
      forall i | OccursAt(hay, needle, i) ensures OccursAt(hay[1..], needle, i - 1) {
        assert hay[1..][i - 1..i - 1 + |needle|] == hay[i..i + |needle|];
      }
      b
  }

  /** Whatever contains a longer needle contains each of its prefixes. */
  lemma IncludesPrefix(hay: string, needle: string, more: string)
    requires Includes(hay, needle + more)
    ensures Includes(hay, needle)
  {
    var i :| OccursAt(hay, needle + more, i);
    assert hay[i..i + |needle|] == (needle + more)[..|needle|];
    assert OccursAt(hay, needle, i);
  }

  /** The empty search term is found in every string. */
  lemma IncludesEmpty(hay: string)
    ensures Includes(hay, "")
  {
    assert OccursAt(hay, "", 0);
  }

  // Decimal numerals for the day-of-month labels of the bar chart.

  function DigitChar(d: nat): char
    requires d < 10
  {
    "0123456789"[d]
  }

  predicate IsDigit(c: char) {
    '0' <= c <= '9'
  }

  function DigitValue(c: char): nat
    requires IsDigit(c)
  {
    (c as int - '0' as int) as nat
  }

  /** `String(n)` for a natural number. */
  function NatToString(n: nat): (s: string)
    ensures |s| > 0
    ensures forall k :: 0 <= k < |s| ==> IsDigit(s[k])
    decreases n
  {
    if n < 10 then [DigitChar(n)] else NatToString(n / 10) + [DigitChar(n % 10)]
  }

  /** The value of a non-empty string of decimal digits. */
  function DigitsValue(s: string): nat
    requires forall k :: 0 <= k < |s| ==> IsDigit(s[k])
    decreases |s|
  {
    if |s| == 0 then 0 else 10 * DigitsValue(s[..|s| - 1]) + DigitValue(s[|s| - 1])
  }

  /** Length of the run of decimal digits at the start of `s`. */
  function DigitRun(s: string): (n: nat)
    ensures n <= |s|
    ensures forall k :: 0 <= k < n ==> IsDigit(s[k])
    ensures n < |s| ==> !IsDigit(s[n])
  {
    if |s| == 0 || !IsDigit(s[0]) then 0 else 1 + DigitRun(s[1..])
  }

  /**
   `parseInt(s)` for unsigned decimal input: the value of the leading digits
   after leading white space, `None` (JavaScript's `NaN`) when there are none.
   */
  function ParseLeadingInt(s: string): Option<nat> {
    var t := s[LeadingSpace(s)..];
    var n := DigitRun(t);
    if n == 0 then None else Some(DigitsValue(t[..n]))
  }

  lemma {:induction false} DigitsValueOfNatToString(n: nat)
    ensures DigitsValue(NatToString(n)) == n
    decreases n
  {
    if n >= 10 {
      DigitsValueOfNatToString(n / 10);
      var s := NatToString(n);
      assert s[..|s| - 1] == NatToString(n / 10);
    }
  }

  /**
   `s.split(" ")[1]`: the text between the first and the second space, `None`
   (JavaScript's `undefined`) when there is no space at all.
   */
  function SecondWord(s: string): Option<string> {
    if ' ' !in s then None
    else
      var rest := s[IndexOf(s, ' ') + 1..];
      if ' ' in rest then Some(rest[..IndexOf(rest, ' ')]) else Some(rest)
  }

  /** The x-axis label of a daily bar. */
  function DayLabel(day: nat): string {
    "Day " + NatToString(day)
  }

  /** What the daily sort reads back from a label. */
  function LabelDay(name: string): Option<nat> {
    match SecondWord(name)
    case None => None
    case Some(w) => ParseLeadingInt(w)
  }

  /** Reading a label back yields the day it was made from, so sorting by labels sorts by days. */
  lemma LabelDayRoundTrip(day: nat)
    ensures LabelDay(DayLabel(day)) == Some(day)
  {
    var digits := NatToString(day);
    var text := DayLabel(day);
    assert text[3] == ' ';
    assert IndexOf(text, ' ') == 3;
    assert text[4..] == digits;
    assert ' ' !in digits by {
      assert forall k :: 0 <= k < |digits| ==> IsDigit(digits[k]);
    }
    assert SecondWord(text) == Some(digits);
    assert LeadingSpace(digits) == 0;
    assert digits[0..] == digits;
    assert DigitRun(digits) == |digits| by {
      DigitRunAll(digits);
    }
    assert digits[..|digits|] == digits;
    DigitsValueOfNatToString(day);
  }

  lemma {:induction false} DigitRunAll(s: string)
    requires forall k :: 0 <= k < |s| ==> IsDigit(s[k])
    ensures DigitRun(s) == |s|
    decreases |s|
  {
    if |s| > 0 {
      DigitRunAll(s[1..]);
    }
  }
}
