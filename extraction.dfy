/**
 * `extract_multiline_string` of `bddreporting/utils.py`: pulls the text
 * marked off by triple quotes out of a feature's or scenario's description
 * lines.
 */
module Extraction {
  import opened Wrappers
  import opened Strings

  const Delimiter: string := "\"\"\""

  predicate IsDelimiterLine(line: string) {
    Contains(line, Delimiter)
  }

  /** The text of `line` before its first delimiter (all of it when there is none). */
  function TextBefore(line: string): string {
    var i := Find(line, Delimiter, 0);
    if i < 0 then line else line[..i]
  }

  /** The text of `line` after its first delimiter (all of it when there is none). */
  function TextAfter(line: string): string {
    var i := Find(line, Delimiter, 0);
    if i < 0 then line else line[i + |Delimiter|..]
  }

  /** Splitting a delimiter line at its first delimiter loses nothing, and the part before holds no delimiter. */
  lemma SplitAtDelimiter(line: string)
    requires IsDelimiterLine(line)
    ensures TextBefore(line) + Delimiter + TextAfter(line) == line
    ensures !IsDelimiterLine(TextBefore(line))
  {
    var i := Find(line, Delimiter, 0);
    var b := TextBefore(line);
    assert line == line[..i] + line[i..i + 3] + line[i + 3..];
    if IsDelimiterLine(b) {
      var j := Find(b, Delimiter, 0);
      assert b[j..j + 3] == line[j..j + 3];
      assert OccursAt(line, Delimiter, j);
    }
  }

  /** The index of the first line at or after `from` that contains the delimiter. */
  function FirstDelimiter(lines: seq<string>, from: nat): (r: Option<nat>)
    requires from <= |lines|
    ensures r.Some? ==> from <= r.value < |lines|
    decreases |lines| - from
  {
    if from == |lines| then None
    else if IsDelimiterLine(lines[from]) then Some(from)
    else FirstDelimiter(lines, from + 1)
  }

  /** `FirstDelimiter` finds the first delimiter line at or after `from`, and `None` only when there is none. */
  lemma {:induction false} FirstDelimiterSpec(lines: seq<string>, from: nat)
    requires from <= |lines|
    ensures var r := FirstDelimiter(lines, from);
      && (r.None? ==> forall k :: from <= k < |lines| ==> !IsDelimiterLine(lines[k]))
      && (r.Some? ==> IsDelimiterLine(lines[r.value]) && forall k :: from <= k < r.value ==> !IsDelimiterLine(lines[k]))
    decreases |lines| - from
  {
    if from < |lines| && !IsDelimiterLine(lines[from]) {
      FirstDelimiterSpec(lines, from + 1);
    }
  }

  /**
   * What the scan collects: from the first delimiter line, the text after
   * its first delimiter; then every later line, up to but excluding the
   * next delimiter line, of which only the text before its first delimiter
   * is kept. Without a next delimiter line the pieces run to the end.
   */
  function Pieces(lines: seq<string>): seq<string> {
    match FirstDelimiter(lines, 0)
    case None => []
    case Some(i) =>
      [TextAfter(lines[i])] +
      match FirstDelimiter(lines, i + 1)
      case None => lines[i + 1..]
      case Some(j) => lines[i + 1..j] + [TextBefore(lines[j])]
  }

  /** The description lines, none when the description is absent. */
  function LinesOf(arr: Option<seq<string>>): seq<string> {
    if arr.Some? then arr.value else []
  }

  /** The value `extract_multiline_string(arr)` returns: the pieces joined by newlines and stripped. */
  function Extracted(arr: Option<seq<string>>): string {
    Strip(Join("\n", Pieces(LinesOf(arr))))
  }

  /** The first delimiter line at or after `from` is the delimiter line `i` when none comes before it. */
  lemma FirstDelimiterAt(lines: seq<string>, from: nat, i: nat)
    requires from <= i < |lines| && IsDelimiterLine(lines[i])
    requires forall k :: from <= k < i ==> !IsDelimiterLine(lines[k])
    ensures FirstDelimiter(lines, from) == Some(i)
  {
    FirstDelimiterSpec(lines, from);
  }

  /** Without delimiter lines at or after `from` there is no first one. */
  lemma NoFirstDelimiter(lines: seq<string>, from: nat)
    requires from <= |lines|
    requires forall k :: from <= k < |lines| ==> !IsDelimiterLine(lines[k])
    ensures FirstDelimiter(lines, from) == None
  {
    FirstDelimiterSpec(lines, from);
  }

  /** The pieces when the scan reaches the closing delimiter line `j` of a block opened on line `i`. */
  lemma PiecesClosed(lines: seq<string>, i: nat, j: nat)
    requires i < j < |lines| && FirstDelimiter(lines, 0) == Some(i)
    requires FirstDelimiter(lines, i + 1) == FirstDelimiter(lines, j) && IsDelimiterLine(lines[j])
    ensures Pieces(lines) == [TextAfter(lines[i])] + lines[i + 1..j] + [TextBefore(lines[j])]
  {
  }

  /** The pieces when the scan runs out of lines inside a block opened on line `i`. */
  lemma PiecesUnclosed(lines: seq<string>, i: nat)
    requires i < |lines| && FirstDelimiter(lines, 0) == Some(i)
    requires FirstDelimiter(lines, i + 1) == FirstDelimiter(lines, |lines|)
    ensures Pieces(lines) == [TextAfter(lines[i])] + lines[i + 1..]
  {
  }

  lemma SliceExtend(lines: seq<string>, a: nat, b: nat)
    requires a <= b < |lines|
    ensures lines[a..b + 1] == lines[a..b] + [lines[b]]
  {
  }

  /** `extract_multiline_string(arr)`: the scan with its `in_multiline` flag. */
  method ExtractMultilineString(arr: Option<seq<string>>) returns (r: string)
    ensures r == Extracted(arr)
  {
    var lines := if arr.Some? then arr.value else [];
    var inMultiline := false;
    var result: seq<string> := [];
    ghost var opening := 0;
    ghost var closed := false;
    var i := 0;
    while i < |lines|
      invariant 0 <= i <= |lines|
      invariant !inMultiline ==> result == [] && FirstDelimiter(lines, 0) == FirstDelimiter(lines, i)
      invariant inMultiline ==> opening < i && FirstDelimiter(lines, 0) == Some(opening)
      invariant inMultiline ==> FirstDelimiter(lines, opening + 1) == FirstDelimiter(lines, i)
      invariant inMultiline ==> result == [TextAfter(lines[opening])] + lines[opening + 1..i]
    {
      var line := lines[i];
      if Contains(line, Delimiter) && !inMultiline {
        inMultiline := true;
        opening := i;
        result := result + [TextAfter(line)];
      } else if Contains(line, Delimiter) && inMultiline {
        PiecesClosed(lines, opening, i);
        result := result + [TextBefore(line)];
        closed := true;
        break;
      } else if inMultiline {
        SliceExtend(lines, opening + 1, i);
        result := result + [line];
      }
      i := i + 1;
    }
    if !closed && inMultiline {
      PiecesUnclosed(lines, opening);
    }
    assert result == Pieces(lines);
    r := Strip(Join("\n", result));
  }

  /** Without a delimiter line (or without any lines at all) the result is empty. */
  lemma NoDelimiterGivesEmpty(arr: Option<seq<string>>)
    requires forall k :: 0 <= k < |LinesOf(arr)| ==> !IsDelimiterLine(LinesOf(arr)[k])
    ensures Extracted(arr) == ""
  {
    NoFirstDelimiter(LinesOf(arr), 0);
    assert Pieces(LinesOf(arr)) == [];
  }

  /**
   * With exactly one delimiter line, it contributes the text after its first
   * delimiter and every later line is collected: no closing delimiter is needed.
   */
  lemma OneDelimiterCollectsRest(lines: seq<string>, i: nat)
    requires i < |lines| && IsDelimiterLine(lines[i])
    requires forall k :: 0 <= k < |lines| && k != i ==> !IsDelimiterLine(lines[k])
    ensures Pieces(lines) == [TextAfter(lines[i])] + lines[i + 1..]
  {
    FirstDelimiterAt(lines, 0, i);
    NoFirstDelimiter(lines, i + 1);
  }

  /**
   * With a first delimiter line `i` and a next one `j`, the pieces are the text
   * after the delimiter on line `i`, the lines strictly between, and the text
   * before the delimiter on line `j`.
   */
  lemma TwoDelimitersBound(lines: seq<string>, i: nat, j: nat)
    requires i < j < |lines| && IsDelimiterLine(lines[i]) && IsDelimiterLine(lines[j])
    requires forall k :: 0 <= k < j && k != i ==> !IsDelimiterLine(lines[k])
    ensures Pieces(lines) == [TextAfter(lines[i])] + lines[i + 1..j] + [TextBefore(lines[j])]
  {
    FirstDelimiterAt(lines, 0, i);
    FirstDelimiterAt(lines, i + 1, j);
  }

  lemma {:induction false} FirstDelimiterOfExtension(lines: seq<string>, more: seq<string>, from: nat)
    requires from <= |lines| && FirstDelimiter(lines, from).Some?
    ensures FirstDelimiter(lines + more, from) == FirstDelimiter(lines, from)
    decreases |lines| - from
  {
    assert (lines + more)[from] == lines[from];
    if !IsDelimiterLine(lines[from]) {
      FirstDelimiterOfExtension(lines, more, from + 1);
    }
  }

  /** Once a closing delimiter line has been reached, whatever lines follow it are ignored. */
  lemma LinesAfterClosingIgnored(lines: seq<string>, more: seq<string>)
    requires FirstDelimiter(lines, 0).Some?
    requires FirstDelimiter(lines, FirstDelimiter(lines, 0).value + 1).Some?
    ensures Pieces(lines + more) == Pieces(lines)
  {
    var i := FirstDelimiter(lines, 0).value;
    var j := FirstDelimiter(lines, i + 1).value;
    var longer := lines + more;
    FirstDelimiterSpec(lines, i + 1);
    assert FirstDelimiter(lines, j) == Some(j);
    PiecesClosed(lines, i, j);
    FirstDelimiterOfExtension(lines, more, 0);
    FirstDelimiterOfExtension(lines, more, i + 1);
    assert longer[j] == lines[j];
    assert FirstDelimiter(longer, j) == Some(j);
    PiecesClosed(longer, i, j);
    assert longer[i] == lines[i] && longer[i + 1..j] == lines[i + 1..j];
  }

  /**
   * A second delimiter on the opening line does not close the block: the
   * opening line contributes everything after its first delimiter, the
   * second delimiter included, and the block goes on with the following
   * line.
   */
  lemma SameLineDelimiterDoesNotClose(lines: seq<string>, i: nat)
    requires i < |lines| && IsDelimiterLine(lines[i])
    requires forall k :: 0 <= k < i ==> !IsDelimiterLine(lines[k])
    requires IsDelimiterLine(TextAfter(lines[i]))
    ensures |Pieces(lines)| >= 1 && Pieces(lines)[0] == TextAfter(lines[i]) && IsDelimiterLine(Pieces(lines)[0])
    ensures i + 1 < |lines| && !IsDelimiterLine(lines[i + 1]) ==> |Pieces(lines)| >= 2 && Pieces(lines)[1] == lines[i + 1]
  {
    FirstDelimiterAt(lines, 0, i);
    if i + 1 < |lines| && !IsDelimiterLine(lines[i + 1]) {
      FirstDelimiterSpec(lines, i + 1);
    }
  }

}
