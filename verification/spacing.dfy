/**
 * The last step before a file is written: the YAML text is cut into lines
 * and a blank line is put before every line that contains the file's
 * delimiter (`alias` for the rules, `name` for entity lists, ...), so that
 * each entry stands apart.
 */
module Spacing {
  import opened Strings

  /** The lines with a blank line inserted before each line containing `delim`. */
  function Spaced(lines: seq<string>, delim: string): (r: seq<string>)
    ensures |r| >= |lines|
  {
    if lines == [] then []
    else
      Spaced(lines[..|lines| - 1], delim) + SpacedLine(lines[|lines| - 1], delim)
  }

  /** How many of the lines contain `delim`. */
  function Marked(lines: seq<string>, delim: string): nat {
    if lines == [] then 0
    else Marked(lines[..|lines| - 1], delim) + (if Contains(lines[|lines| - 1], delim) then 1 else 0)
  }

  /**
   * The inverse of `Spaced`, read from the end: a line containing `delim`
   * takes the line before it (the inserted blank) away with it.
   */
  function Unspaced(out: seq<string>, delim: string): seq<string>
    decreases |out|
  {
    if out == [] then []
    else
      var last := out[|out| - 1];
      if Contains(last, delim) && |out| >= 2 then Unspaced(out[..|out| - 2], delim) + [last]
      else Unspaced(out[..|out| - 1], delim) + [last]
  }

  /** Spacing adds exactly one line per delimiter line. */
  lemma {:induction false} SpacedLength(lines: seq<string>, delim: string)
    ensures |Spaced(lines, delim)| == |lines| + Marked(lines, delim)
  {
    if lines != [] {
      SpacedLength(lines[..|lines| - 1], delim);
    }
  }

  /** What spacing puts in place of one line. */
  function SpacedLine(line: string, delim: string): seq<string> {
    if Contains(line, delim) then ["", line] else [line]
  }

  lemma SpacedSnoc(lines: seq<string>, delim: string)
    requires lines != []
    ensures Spaced(lines, delim) == Spaced(lines[..|lines| - 1], delim) + SpacedLine(lines[|lines| - 1], delim)
  {
  }

  /** Unspacing takes the lines one line contributed back to that line. */
  lemma UnspacedStep(s: seq<string>, line: string, delim: string)
    ensures Unspaced(s + SpacedLine(line, delim), delim) == Unspaced(s, delim) + [line]
  {
    var r := s + SpacedLine(line, delim);
    if Contains(line, delim) {
      assert r[..|r| - 2] == s;
    } else {
      assert r[..|r| - 1] == s;
    }
  }

  /** Removing the inserted blank lines gives back the original lines. */
  lemma {:induction false} UnspaceSpaced(lines: seq<string>, delim: string)
    ensures Unspaced(Spaced(lines, delim), delim) == lines
  {
    if lines != [] {
      var init, last := lines[..|lines| - 1], lines[|lines| - 1];
      UnspaceSpaced(init, delim);
      SpacedSnoc(lines, delim);
      UnspacedStep(Spaced(init, delim), last, delim);
      assert Unspaced(Spaced(lines, delim), delim) == init + [last];
      assert lines == init + [last];
    }
  }

  /** Spacing adds no line break inside a line. */
  lemma {:induction false} SpacedNoBreak(lines: seq<string>, delim: string, c: char)
    requires forall i :: 0 <= i < |lines| ==> c !in lines[i]
    ensures forall i :: 0 <= i < |Spaced(lines, delim)| ==> c !in Spaced(lines, delim)[i]
  {
    if lines != [] {
      SpacedNoBreak(lines[..|lines| - 1], delim, c);
    }
  }

  /**
   * `DumpAndSpaceYaml`, given the text `yaml.dump` produced: the loop that
   * rebuilds the line list with the blank lines, joined again with line
   * breaks. The file's lines are the spaced lines, and dropping the
   * inserted blanks gives back the dumped text.
   */
  method DumpAndSpaceYaml(dumped: string, delim: string) returns (r: string)
    ensures Split(r, '\n') == Spaced(Split(dumped, '\n'), delim)
    ensures Join(Unspaced(Split(r, '\n'), delim), '\n') == dumped
  {
    var output := Split(dumped, '\n');
    var retval: seq<string> := [];
    for i := 0 to |output|
      invariant retval == Spaced(output[..i], delim)
    {
      var l := output[i];
      assert output[..i + 1][..i] == output[..i];
      if Contains(l, delim) {
        retval := retval + [""];
      }
      retval := retval + [l];
    }
    assert output[..|output|] == output;
    r := Join(retval, '\n');
    SpacedNoBreak(output, delim, '\n');
    SplitJoin(retval, '\n');
    UnspaceSpaced(output, delim);
    JoinSplit(dumped, '\n');
  }
}
