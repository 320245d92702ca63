/**
 * The textual conventions shared by every error report of the toolkit:
 * a report is a sequence of lines whose first line is a one-line summary
 * naming the task, and whose detail lines read "  <Label>: <value>".
 */
module ReportText {

  /** The indent that opens every detail line. */
  const Indent: string := "  "

  /** The line "  <key>: <value>". */
  function DetailLine(key: string, value: string): (line: string)
    ensures HasLabel(line, key)
    ensures LabelValue(line, key) == value
  {
    Indent + key + ": " + value
  }

  /** True when `line` is a detail line carrying `key`. */
  predicate HasLabel(line: string, key: string)
  {
    |key| + 4 <= |line| && line[..|key| + 4] == Indent + key + ": "
  }

  /** The value part of a detail line carrying `key`. */
  function LabelValue(line: string, key: string): (value: string)
    requires HasLabel(line, key)
    ensures line == Indent + key + ": " + value
  {
    line[|key| + 4..]
  }

  /** True when some line of `lines` is a detail line carrying `key`. */
  ghost predicate HasLabelledLine(lines: seq<string>, key: string)
  {
    exists i :: 0 <= i < |lines| && HasLabel(lines[i], key)
  }

  /** True when `part` occurs verbatim somewhere in `s`. */
  ghost predicate Contains(s: string, part: string)
  {
    exists i :: OccursAt(s, part, i)
  }

  /** True when `part` occurs in `s` starting at index `i`. */
  predicate OccursAt(s: string, part: string, i: int)
  {
    0 <= i <= |s| - |part| && s[i..i + |part|] == part
  }

  /**
   * The convention every `to_lines` implementation follows: the report is
   * non-empty and its first line names the task verbatim.
   */
  ghost predicate DescribesTask(lines: seq<string>, task: string)
  {
    |lines| > 0 && Contains(lines[0], task)
  }

  /** A summary line made of a fixed prefix and the task names the task. */
  lemma SummaryContainsTask(prefix: string, task: string)
    ensures Contains(prefix + task, task)
  {
    var s := prefix + task;
    assert s[|prefix|..|prefix| + |task|] == task;
    assert OccursAt(s, task, |prefix|);
  }

  /** Two keys that start with different letters never share a line. */
  lemma LabelsExclusive(line: string, key: string, other: string)
    requires HasLabel(line, key)
    requires |key| > 0 && |other| > 0 && key[0] != other[0]
    ensures !HasLabel(line, other)
  {
    assert line[2] == (Indent + key + ": ")[2] == key[0];
    assert (Indent + other + ": ")[2] == other[0];
  }

  /** A line that does not begin with a space carries no key. */
  lemma UnindentedHasNoLabel(line: string, key: string)
    requires line == [] || line[0] != ' '
    ensures !HasLabel(line, key)
  {
    assert (Indent + key + ": ")[0] == ' ';
  }
}
