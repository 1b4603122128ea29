/**
 * The Python `str` operations the reporting hooks rely on: `sub in s`,
 * `s.find(sub, start)`, `s.strip()`, `s.lower()`, `s.split()`,
 * `sep.join(xs)` and `s.splitlines()`.
 */
module Strings {

  /** Python's `str.isspace()` for one character. */
  predicate IsSpace(c: char) {
    var n := c as int;
    n == 32 || 9 <= n <= 13 || 28 <= n <= 31 || n == 0x85 || n == 0xa0 || n == 0x1680
    || 0x2000 <= n <= 0x200a || n == 0x2028 || n == 0x2029 || n == 0x202f || n == 0x205f
    || n == 0x3000
  }

  /** The characters at which Python's `str.splitlines()` breaks a line. */
  predicate IsLineBreak(c: char) {
    var n := c as int;
    10 <= n <= 13 || 28 <= n <= 30 || n == 0x85 || n == 0x2028 || n == 0x2029
  }

  predicate NoSpace(w: string) {
    forall k :: 0 <= k < |w| ==> !IsSpace(w[k])
  }

  predicate StartsWith(s: string, prefix: string) {
    |prefix| <= |s| && s[..|prefix|] == prefix
  }

  /** `pat` occurs in `s` beginning at index `i`. */
  predicate OccursAt(s: string, pat: string, i: int) {
    0 <= i && i + |pat| <= |s| && s[i..i + |pat|] == pat
  }

  /** Python's `s.find(pat, start)`: the least index `>= start` where `pat` occurs, or -1. */
  function Find(s: string, pat: string, start: nat): (r: int)
    ensures r == -1 || (start <= r && OccursAt(s, pat, r))
    ensures r == -1 ==> forall i :: start <= i ==> !OccursAt(s, pat, i)
    ensures r != -1 ==> forall i :: start <= i < r ==> !OccursAt(s, pat, i)
    decreases |s| - start
  {
    if start + |pat| > |s| then -1
    else if s[start..start + |pat|] == pat then start
    else Find(s, pat, start + 1)
  }

  /** Python's `pat in s`. */
  predicate Contains(s: string, pat: string) {
    Find(s, pat, 0) != -1
  }

  lemma ContainsIff(s: string, pat: string)
    ensures Contains(s, pat) <==> exists i :: OccursAt(s, pat, i)
  {
    if !Contains(s, pat) {
      forall i ensures !OccursAt(s, pat, i) {
        if 0 <= i { assert !OccursAt(s, pat, i); }
      }
    }
  }

  /** The number of leading whitespace characters of `s`. */
  function LeadingSpace(s: string): (n: nat)
    ensures n <= |s|
  {
    if s == [] || !IsSpace(s[0]) then 0 else LeadingSpace(s[1..]) + 1
  }

  /** The first `LeadingSpace(s)` characters are whitespace, and the next one is not. */
  lemma {:induction false} LeadingSpaceSpans(s: string)
    ensures var n := LeadingSpace(s);
      (forall k :: 0 <= k < n ==> IsSpace(s[k])) && (n < |s| ==> !IsSpace(s[n]))
  {
    if s != [] && IsSpace(s[0]) {
      LeadingSpaceSpans(s[1..]);
      forall k | 1 <= k < LeadingSpace(s) ensures IsSpace(s[k]) {
        assert s[k] == s[1..][k - 1];
      }
    }
  }

  /** The number of trailing whitespace characters of `s`. */
  function TrailingSpace(s: string): (n: nat)
    ensures n <= |s|
  {
    if s == [] || !IsSpace(s[|s| - 1]) then 0 else TrailingSpace(s[..|s| - 1]) + 1
  }

  /** The last `TrailingSpace(s)` characters are whitespace, and the one before them is not. */
  lemma {:induction false} TrailingSpaceSpans(s: string)
    ensures var n := TrailingSpace(s);
      (forall k :: |s| - n <= k < |s| ==> IsSpace(s[k])) && (n < |s| ==> !IsSpace(s[|s| - n - 1]))
  {
    if s != [] && IsSpace(s[|s| - 1]) {
      var t := s[..|s| - 1];
      TrailingSpaceSpans(t);
      forall k | |s| - TrailingSpace(s) <= k < |s| - 1 ensures IsSpace(s[k]) {
        assert s[k] == t[k];
      }
    }
  }

  /** Python's `s.strip()`: `s` without its leading and trailing whitespace. */
  function Strip(s: string): string {
    var t := s[LeadingSpace(s)..];
    t[..|t| - TrailingSpace(t)]
  }

  /**
   * What `Strip` keeps: the infix of `s` that starts at its first
   * non-whitespace character and ends at its last one; everything outside
   * it is whitespace.
   */
  lemma StripTrims(s: string)
    ensures var a, r := LeadingSpace(s), Strip(s);
      && a + |r| <= |s| && s[a..a + |r|] == r
      && (forall k :: 0 <= k < |s| && !(a <= k < a + |r|) ==> IsSpace(s[k]))
      && (r == [] || (!IsSpace(r[0]) && !IsSpace(r[|r| - 1])))
  {
    StripInfix(s);
    StripOutside(s);
    StripEnds(s);
  }

  lemma StripInfix(s: string)
    ensures var a, r := LeadingSpace(s), Strip(s); a + |r| <= |s| && s[a..a + |r|] == r
  {
    var a := LeadingSpace(s);
    var t := s[a..];
    var r := t[..|t| - TrailingSpace(t)];
    assert s[a..a + |r|] == r;
  }

  lemma StripOutside(s: string)
    ensures var a, r := LeadingSpace(s), Strip(s);
      forall k :: 0 <= k < |s| && !(a <= k < a + |r|) ==> IsSpace(s[k])
  {
    var a := LeadingSpace(s);
    var t := s[a..];
    var b := TrailingSpace(t);
    var r := t[..|t| - b];
    LeadingSpaceSpans(s);
    TrailingSpaceSpans(t);
    forall k | a + |r| <= k < |s| ensures IsSpace(s[k]) {
      assert s[k] == t[k - a];
    }
  }

  lemma StripEnds(s: string)
    ensures var r := Strip(s); r == [] || (!IsSpace(r[0]) && !IsSpace(r[|r| - 1]))
  {
    var a := LeadingSpace(s);
    var t := s[a..];
    var b := TrailingSpace(t);
    var r := t[..|t| - b];
    LeadingSpaceSpans(s);
    TrailingSpaceSpans(t);
    if r != [] {
      assert r[0] == s[a];
      assert r[|r| - 1] == t[|t| - b - 1];
    }
  }

  /** Python's `str.lower()` on one character, for the ASCII letters. */
  function LowerChar(c: char): char {
    if 'A' <= c <= 'Z' then (c as int + 32) as char else c
  }

  /** Python's `s.lower()`, for the ASCII letters. */
  function Lower(s: string): (r: string)
    ensures |r| == |s| && forall i :: 0 <= i < |s| ==> r[i] == LowerChar(s[i])
  {
    seq(|s|, i requires 0 <= i < |s| => LowerChar(s[i]))
  }

  /** Every string of `ts` in lower case. */
  function LowerAll(ts: seq<string>): (r: seq<string>)
    ensures |r| == |ts| && forall i :: 0 <= i < |ts| ==> r[i] == Lower(ts[i])
  {
    seq(|ts|, i requires 0 <= i < |ts| => Lower(ts[i]))
  }

  /** Python's `sep.join(xs)`. */
  function Join(sep: string, xs: seq<string>): string {
    if |xs| == 0 then ""
    else if |xs| == 1 then xs[0]
    else xs[0] + sep + Join(sep, xs[1..])
  }

  /** The number of leading non-whitespace characters of `t`. */
  function WordLength(t: string): (n: nat)
    ensures n <= |t| && NoSpace(t[..n])
    ensures n < |t| ==> IsSpace(t[n])
  {
    if t == [] || IsSpace(t[0]) then 0
    else
      var m := WordLength(t[1..]);
      assert t[..m + 1] == [t[0]] + t[1..][..m];
      m + 1
  }

  predicate IsWord(w: string) {
    w != [] && NoSpace(w)
  }

  /** Python's `s.split()` with no separator: the maximal runs of non-whitespace characters. */
  function Words(s: string): (ws: seq<string>)
    ensures forall i :: 0 <= i < |ws| ==> IsWord(ws[i])
    decreases |s|
  {
    var a := LeadingSpace(s);
    if a == |s| then []
    else
      LeadingSpaceSpans(s);
      var t := s[a..];
      var n := WordLength(t);
      [t[..n]] + Words(t[n..])
  }

  lemma {:induction false} WordsAfterSpace(c: char, t: string)
    requires IsSpace(c)
    ensures Words([c] + t) == Words(t)
  {
    var s := [c] + t;
    assert s[1..] == t;
    assert LeadingSpace(s) == 1 + LeadingSpace(t);
    assert s[LeadingSpace(s)..] == t[LeadingSpace(t)..];
  }

  lemma {:induction false} WordsOfWordThenRest(w: string, rest: string)
    requires IsWord(w)
    requires rest == [] || IsSpace(rest[0])
    ensures Words(w + rest) == [w] + Words(rest)
  {
    var s := w + rest;
    assert LeadingSpace(s) == 0;
    assert s[0..] == s;
    WordLengthOf(w, rest);
    assert s[..|w|] == w && s[|w|..] == rest;
  }

  lemma {:induction false} WordLengthOf(w: string, rest: string)
    requires NoSpace(w)
    requires rest == [] || IsSpace(rest[0])
    ensures WordLength(w + rest) == |w|
    decreases |w|
  {
    if w != [] {
      assert (w + rest)[1..] == w[1..] + rest;
      WordLengthOf(w[1..], rest);
    } else {
      assert w + rest == rest;
    }
  }

  /** Splitting on whitespace undoes joining words with single spaces. */
  lemma {:induction false} WordsOfJoin(ws: seq<string>)
    requires forall i :: 0 <= i < |ws| ==> IsWord(ws[i])
    ensures Words(Join(" ", ws)) == ws
  {
    if |ws| == 0 {
      assert LeadingSpace("") == 0;
    } else if |ws| == 1 {
      WordsOfWordThenRest(ws[0], "");
      assert ws[0] + "" == ws[0];
      assert Words("") == [];
    } else {
      var rest := Join(" ", ws[1..]);
      assert Join(" ", ws) == ws[0] + (" " + rest);
      WordsOfWordThenRest(ws[0], " " + rest);
      WordsAfterSpace(' ', rest);
      WordsOfJoin(ws[1..]);
    }
  }

  predicate AllSpace(s: string) {
    forall k :: 0 <= k < |s| ==> IsSpace(s[k])
  }

  /** `xs[0] + seps[0] + xs[1] + seps[1] + ...`: the pieces of a string with what follows each. */
  function Interleave(xs: seq<string>, seps: seq<string>): string
    requires |xs| == |seps|
  {
    if xs == [] then "" else xs[0] + seps[0] + Interleave(xs[1..], seps[1..])
  }

  /**
   * Whitespace runs that can follow the words of a split: all whitespace,
   * and all but the last one non-empty.
   */
  predicate WordGaps(gaps: seq<string>) {
    forall j :: 0 <= j < |gaps| ==> AllSpace(gaps[j]) && (j < |gaps| - 1 ==> gaps[j] != "")
  }

  /** Leading whitespace, however long, does not change the words. */
  lemma {:induction false} WordsAfterSpaces(sp: string, t: string)
    requires AllSpace(sp)
    ensures Words(sp + t) == Words(t)
    decreases |sp|
  {
    if sp != [] {
      assert sp + t == [sp[0]] + (sp[1..] + t);
      WordsAfterSpace(sp[0], sp[1..] + t);
      WordsAfterSpaces(sp[1..], t);
    } else {
      assert sp + t == t;
    }
  }

  /**
   * Splitting on whitespace recovers the words of any layout: leading
   * whitespace, then the words separated by non-empty runs of whitespace
   * and followed by a possibly empty one.
   */
  lemma WordsOfLayout(lead: string, ws: seq<string>, gaps: seq<string>)
    requires AllSpace(lead) && |ws| == |gaps| && WordGaps(gaps)
    requires forall i :: 0 <= i < |ws| ==> IsWord(ws[i])
    ensures Words(lead + Interleave(ws, gaps)) == ws
  {
    WordsAfterSpaces(lead, Interleave(ws, gaps));
    WordsOfInterleave(ws, gaps);
  }

  lemma {:induction false} WordsOfInterleave(ws: seq<string>, gaps: seq<string>)
    requires |ws| == |gaps| && WordGaps(gaps)
    requires forall i :: 0 <= i < |ws| ==> IsWord(ws[i])
    ensures Words(Interleave(ws, gaps)) == ws
    decreases |ws|
  {
    if ws == [] {
      assert LeadingSpace("") == 0;
    } else {
      var later := Interleave(ws[1..], gaps[1..]);
      var r := gaps[0] + later;
      assert Interleave(ws, gaps) == ws[0] + r;
      assert WordGaps(gaps[1..]) by {
        forall j | 0 <= j < |gaps[1..]| ensures AllSpace(gaps[1..][j]) && (j < |gaps[1..]| - 1 ==> gaps[1..][j] != "") {
          assert gaps[1..][j] == gaps[j + 1];
        }
      }
      WordsOfInterleave(ws[1..], gaps[1..]);
      if gaps[0] == "" {
        assert |ws| == 1 && later == "" && r == "";
      } else {
        assert r[0] == gaps[0][0];
      }
      WordsOfWordThenRest(ws[0], r);
      WordsAfterSpaces(gaps[0], later);
    }
  }

  /** The length of the line break that starts at index `i`, or 0 when none does. */
  function BreakLength(s: string, i: nat): (n: nat)
    requires i < |s|
    ensures n <= |s| - i
    ensures n > 0 <==> IsLineBreak(s[i])
  {
    if s[i] == '\r' && i + 1 < |s| && s[i + 1] == '\n' then 2
    else if IsLineBreak(s[i]) then 1
    else 0
  }

  /** The index of the first line break in `s` at or after `i`, or `|s|`. */
  function LineEnd(s: string, i: nat): (e: nat)
    requires i <= |s|
    ensures i <= e <= |s|
    ensures forall k :: i <= k < e ==> !IsLineBreak(s[k])
    ensures e < |s| ==> IsLineBreak(s[e])
    decreases |s| - i
  {
    if i == |s| || IsLineBreak(s[i]) then i else LineEnd(s, i + 1)
  }

  /**
   * Python's `s.splitlines()`: the lines of `s` without their line breaks;
   * a final line break does not start an empty line.
   */
  function SplitLines(s: string): (lines: seq<string>)
    ensures forall j :: 0 <= j < |lines| ==> forall k :: 0 <= k < |lines[j]| ==> !IsLineBreak(lines[j][k])
    decreases |s|
  {
    if s == [] then []
    else
      var e := LineEnd(s, 0);
      if e == |s| then [s]
      else
        var line := s[..e];
        assert forall k :: 0 <= k < |line| ==> line[k] == s[k];
        [line] + SplitLines(s[e + BreakLength(s, e)..])
  }

  /** One line break as `str.splitlines()` recognises it: `"\r\n"` or a single break character. */
  predicate IsBreak(b: string) {
    b == "\r\n" || (|b| == 1 && IsLineBreak(b[0]))
  }

  /**
   * The line breaks `SplitLines` drops, one per line: the break that ended
   * it, or `""` for a last line the string ends without a break.
   */
  function LineBreaks(s: string): (bs: seq<string>)
    ensures forall j :: 0 <= j < |bs| ==> IsBreak(bs[j]) || (bs[j] == "" && j == |bs| - 1)
    decreases |s|
  {
    if s == [] then []
    else
      var e := LineEnd(s, 0);
      if e == |s| then [""]
      else
        var n := BreakLength(s, e);
        assert IsBreak(s[e..e + n]);
        [s[e..e + n]] + LineBreaks(s[e + n..])
  }

  lemma SliceThree(s: string, i: nat, j: nat)
    requires i <= j <= |s|
    ensures s == s[..i] + s[i..j] + s[j..]
  {
    assert s[..j] == s[..i] + s[i..j];
    assert s == s[..j] + s[j..];
  }

  /** Putting the line breaks back after the lines gives the string again. */
  lemma {:induction false} SplitLinesRoundTrip(s: string)
    ensures |LineBreaks(s)| == |SplitLines(s)|
    ensures Interleave(SplitLines(s), LineBreaks(s)) == s
    decreases |s|
  {
    if s != [] {
      var e := LineEnd(s, 0);
      if e == |s| {
        assert Interleave([s], [""]) == s + "" + Interleave([], []);
      } else {
        var n := BreakLength(s, e);
        var rest := s[e + n..];
        SplitLinesRoundTrip(rest);
        var lines, bs := SplitLines(s), LineBreaks(s);
        assert lines == [s[..e]] + SplitLines(rest);
        assert bs == [s[e..e + n]] + LineBreaks(rest);
        assert lines[1..] == SplitLines(rest) && bs[1..] == LineBreaks(rest);
        calc {
          Interleave(lines, bs);
          s[..e] + s[e..e + n] + Interleave(SplitLines(rest), LineBreaks(rest));
          s[..e] + s[e..e + n] + rest;
          { SliceThree(s, e, e + n); }
          s;
        }
      }
    }
  }
}
