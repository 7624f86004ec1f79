/**
 * The few Ruby string primitives the client relies on: Integer#to_s, substring
 * search, and the matching done by the status regexps of the client, whose `$`
 * anchors at the end of a line and whose `/i` flag ignores letter case.
 */
module Text {

  // ---------------------------------------------------------------------------
  // Decimal rendering of integers (Integer#to_s)
  // ---------------------------------------------------------------------------

  predicate IsDigit(c: char) {
    '0' <= c <= '9'
  }

  function DigitValue(c: char): (d: nat)
    requires IsDigit(c)
    ensures d < 10
  {
    c as int - '0' as int
  }

  function DigitChar(d: nat): (c: char)
    requires d < 10
    ensures IsDigit(c) && DigitValue(c) == d
  {
    "0123456789"[d]
  }

  /** The decimal digits of `n`, most significant first, without leading zeros. */
  function NatText(n: nat): (s: string)
    ensures |s| > 0
    ensures forall k :: 0 <= k < |s| ==> IsDigit(s[k])
    ensures |s| > 1 ==> s[0] != '0'
    decreases n
  {
    if n < 10 then [DigitChar(n)] else NatText(n / 10) + [DigitChar(n % 10)]
  }

  /** The number a string of digits denotes (the reading direction of NatText). */
  function DigitsValue(s: string): nat
    requires forall k :: 0 <= k < |s| ==> IsDigit(s[k])
    decreases |s|
  {
    if |s| == 0 then 0
    else DigitsValue(s[..|s| - 1]) * 10 + DigitValue(s[|s| - 1])
  }

  /** Reading back the decimal text of `n` gives `n`: the rendering loses nothing. */
  lemma {:induction false} NatTextRoundTrip(n: nat)
    ensures DigitsValue(NatText(n)) == n
    decreases n
  {
    if n >= 10 {
      var front := NatText(n / 10);
      var s := front + [DigitChar(n % 10)];
      assert s[..|s| - 1] == front;
      NatTextRoundTrip(n / 10);
    }
  }

  /** Integer#to_s: a minus sign before the digits of the magnitude of a negative number. */
  function IntText(i: int): (s: string)
    ensures |s| > 0 && (s[0] == '-' <==> i < 0)
  {
    if i < 0 then "-" + NatText(-i) else NatText(i)
  }

  lemma NatTextInjective(m: nat, n: nat)
    requires NatText(m) == NatText(n)
    ensures m == n
  {
    NatTextRoundTrip(m);
    NatTextRoundTrip(n);
  }

  /** Two integers with the same decimal text are the same integer. */
  lemma IntTextInjective(a: int, b: int)
    requires IntText(a) == IntText(b)
    ensures a == b
  {
    if a < 0 && b < 0 {
      var da, db := NatText(-a), NatText(-b);
      assert da == IntText(a)[1..];
      assert db == IntText(b)[1..];
      NatTextInjective(-a, -b);
    } else if a >= 0 && b >= 0 {
      NatTextInjective(a, b);
    }
  }

  /** The decimal text of an integer never holds a colon (a minus sign or digits only). */
  lemma IntTextHasNoColon(i: int)
    ensures |IntText(i)| > 0
    ensures forall k :: 0 <= k < |IntText(i)| ==> IntText(i)[k] != ':'
  {
    if i < 0 {
      var d := NatText(-i);
      assert forall k :: 1 <= k < |IntText(i)| ==> IntText(i)[k] == d[k - 1];
    }
  }

  // ---------------------------------------------------------------------------
  // Case folding for the `/i` regexps (ASCII letters only)
  // ---------------------------------------------------------------------------

  function LowerChar(c: char): char {
    if 'A' <= c <= 'Z' then (c as int + 32) as char else c
  }

  /** The string with every ASCII capital replaced by its small letter. */
  function Fold(s: string): (r: string)
    ensures |r| == |s|
    ensures forall k :: 0 <= k < |s| ==> r[k] == LowerChar(s[k])
  {
    seq(|s|, k requires 0 <= k < |s| => LowerChar(s[k]))
  }

  // ---------------------------------------------------------------------------
  // Occurrences of a pattern
  // ---------------------------------------------------------------------------

  /** `pat` occurs in `s` starting at position `i`. */
  ghost predicate OccursAt(s: string, pat: string, i: int) {
    0 <= i && i + |pat| <= |s| && s[i..i + |pat|] == pat
  }

  /** `pat` occurs at `i` and is followed by the end of the string or a newline:
      what an unanchored regexp `pat$` matches in Ruby. */
  ghost predicate OccursAtLineEndAt(s: string, pat: string, i: int) {
    OccursAt(s, pat, i) && (i + |pat| == |s| || s[i + |pat|] == '\n')
  }

  /** The unanchored regexp `pat` matches `s`. */
  function Contains(s: string, pat: string): bool
    decreases |s|
  {
    if |s| < |pat| then false
    else s[..|pat|] == pat || Contains(s[1..], pat)
  }

  /** The unanchored regexp `pat$` matches `s`. */
  function EndsLine(s: string, pat: string): bool
    decreases |s|
  {
    if |s| < |pat| then false
    else (s[..|pat|] == pat && (|s| == |pat| || s[|pat|] == '\n')) || EndsLine(s[1..], pat)
  }

  lemma OccursAtShift(s: string, pat: string, i: int)
    requires |s| > 0 && i >= 1
    ensures OccursAt(s, pat, i) <==> OccursAt(s[1..], pat, i - 1)
    ensures OccursAtLineEndAt(s, pat, i) <==> OccursAtLineEndAt(s[1..], pat, i - 1)
  {
    if 0 <= i && i + |pat| <= |s| {
      var u, v := s[i..i + |pat|], s[1..][i - 1..i - 1 + |pat|];
      assert forall k :: 0 <= k < |pat| ==> u[k] == v[k];
      assert u == v;
    }
  }

  /** Contains finds exactly the occurrences OccursAt describes. */
  lemma {:induction false} ContainsMeans(s: string, pat: string)
    ensures Contains(s, pat) <==> exists i :: OccursAt(s, pat, i)
    decreases |s|
  {
    if |s| < |pat| {
    } else if s[..|pat|] == pat {
      assert OccursAt(s, pat, 0);
    } else {
      ContainsMeans(s[1..], pat);
      if Contains(s[1..], pat) {
        var j :| OccursAt(s[1..], pat, j);
        OccursAtShift(s, pat, j + 1);
      }
      if i :| OccursAt(s, pat, i) {
        assert i > 0;
        OccursAtShift(s, pat, i);
      }
    }
  }

  /** EndsLine finds exactly the occurrences OccursAtLineEndAt describes. */
  lemma {:induction false} EndsLineMeans(s: string, pat: string)
    ensures EndsLine(s, pat) <==> exists i :: OccursAtLineEndAt(s, pat, i)
    decreases |s|
  {
    if |s| < |pat| {
    } else if s[..|pat|] == pat && (|s| == |pat| || s[|pat|] == '\n') {
      assert OccursAtLineEndAt(s, pat, 0);
    } else {
      EndsLineMeans(s[1..], pat);
      if EndsLine(s[1..], pat) {
        var j :| OccursAtLineEndAt(s[1..], pat, j);
        OccursAtShift(s, pat, j + 1);
      }
      if i :| OccursAtLineEndAt(s, pat, i) {
        assert i > 0;
        OccursAtShift(s, pat, i);
      }
    }
  }

  /** `s` ends with `pat`; for a script of exchanges, `pat` is what is left of `s` once its first elements are used up. */
  predicate EndsWith<T(==)>(s: seq<T>, pat: seq<T>) {
    |pat| <= |s| && s[|s| - |pat|..] == pat
  }

  /** On a string without newlines, `pat$` matches exactly when `s` ends with `pat`. */
  lemma EndsLineOnOneLine(s: string, pat: string)
    requires forall k :: 0 <= k < |s| ==> s[k] != '\n'
    ensures EndsLine(s, pat) <==> EndsWith(s, pat)
  {
    EndsLineMeans(s, pat);
    if EndsWith(s, pat) {
      assert OccursAtLineEndAt(s, pat, |s| - |pat|);
    }
    if EndsLine(s, pat) {
      var i :| OccursAtLineEndAt(s, pat, i);
      assert i + |pat| == |s|;
    }
  }
}
