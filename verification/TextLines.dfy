/** A text file as it is written line by line, and read line by line. */
module TextLines {
  import opened Sequences
  import opened Wrappers

  /** The position of the first newline, or the length of the text. */
  function NewlineAt(text: string): (i: nat)
    ensures i <= |text| && (i < |text| ==> text[i] == '\n') && forall k :: 0 <= k < i ==> text[k] != '\n'
  {
    if text == "" || text[0] == '\n' then 0 else 1 + NewlineAt(text[1..])
  }

  /** Removes the carriage return of a DOS line end. */
  function Chomp(line: string): string {
    if line != "" && line[|line| - 1] == '\r' then line[..|line| - 1] else line
  }

  /** The lines a reader sees. */
  function LinesOf(text: string): seq<string>
    decreases |text|
  {
    if text == "" then []
    else
      var i := NewlineAt(text);
      [Chomp(text[..i])] + LinesOf(if i < |text| then text[i + 1..] else "")
  }

  /** The text of lines each ended by a newline. */
  function TextOf(lines: seq<string>): string {
    if lines == [] then "" else lines[0] + "\n" + TextOf(lines[1..])
  }

  /** A line that is read back as it was printed. */
  predicate LineSafe(line: string) {
    (forall k :: 0 <= k < |line| ==> line[k] != '\n') && (line != "" ==> line[|line| - 1] != '\r')
  }

  ghost predicate AllLineSafe(lines: seq<string>) {
    forall line <- lines :: LineSafe(line)
  }

  lemma NewlineAfter(line: string, rest: string)
    requires forall k :: 0 <= k < |line| ==> line[k] != '\n'
    ensures NewlineAt(line + "\n" + rest) == |line|
  {
    var text := line + "\n" + rest;
    assert text[|line|] == '\n' && forall k :: 0 <= k < |line| ==> text[k] == line[k];
  }

  lemma OneLine(line: string, rest: string)
    requires LineSafe(line)
    ensures LinesOf(line + "\n" + rest) == [line] + LinesOf(rest)
  {
    NewlineAfter(line, rest);
    var text := line + "\n" + rest;
    assert text[..|line|] == line && text[|line| + 1..] == rest;
  }

  /** Lines that were printed are read back, whatever follows them. */
  lemma {:induction false} LinesOfText(lines: seq<string>, rest: string)
    requires AllLineSafe(lines)
    ensures LinesOf(TextOf(lines) + rest) == lines + LinesOf(rest)
  {
    hide LinesOf;
    if lines == [] {
      Nothing(rest);
      Nothing(LinesOf(rest));
    } else {
      var head, tail := lines[0], lines[1..];
      LinesOfText(tail, rest);
      Associative(head + "\n", TextOf(tail), rest);
      OneLine(head, TextOf(tail) + rest);
      Associative([head], tail, LinesOf(rest));
      assert [head] + tail == lines;
    }
  }

  lemma {:induction false} TextOfConcat(a: seq<string>, b: seq<string>)
    ensures TextOf(a + b) == TextOf(a) + TextOf(b)
  {
    if a == [] {
      assert a + b == b;
    } else {
      TextOfConcat(a[1..], b);
      assert (a + b)[1..] == a[1..] + b;
    }
  }

  /** A file being written. */
  class File {
    /** The lines printed so far. */
    var text: string
    ghost var lines: seq<string>

    ghost predicate Valid()
      reads this
    {
      text == TextOf(lines)
    }

    constructor ()
      ensures Valid() && lines == []
    {
      text, lines := "", [];
    }

    method Print(line: string)
      requires Valid()
      modifies this
      ensures Valid() && lines == old(lines) + [line]
    {
      TextOfConcat(lines, [line]);
      assert TextOf([line]) == line + "\n";
      text := text + line + "\n";
      lines := lines + [line];
    }
  }

  /** A file being read. */
  class TextFile {
    /** What has not been read yet. */
    var text: string

    constructor (text: string)
      ensures this.text == text
    {
      this.text := text;
    }

    ghost function Lines(): seq<string>
      reads this
    {
      LinesOf(text)
    }

    method ReadLine() returns (line: Option<string>)
      modifies this
      ensures old(Lines()) == [] ==> line == None && Lines() == []
      ensures old(Lines()) != [] ==> line == Some(old(Lines())[0]) && Lines() == old(Lines())[1..]
    {
      if text == "" {
        return None;
      }
      var length: nat := 0;
      while length < |text| && text[length] != '\n'
        invariant length <= |text| && forall k :: 0 <= k < length ==> text[k] != '\n'
      {
        length := length + 1;
      }
      assert length == NewlineAt(text);
      var rest := if length < |text| then text[length + 1..] else "";
      if length > 0 && text[length - 1] == '\r' {
        length := length - 1;
      }
      assert text[..length] == Chomp(text[..NewlineAt(text)]);
      line := Some(text[..length]);
      text := rest;
    }
  }
}
