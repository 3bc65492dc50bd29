/** The lines of a text file, as `getline` reads them one after the other. */
module FileLines {
  import opened Options

  /** The first position at or after `i` that holds a newline, or the end. */
  function LineEnd(content: string, i: nat): (e: nat)
    requires i <= |content|
    ensures i <= e <= |content|
    decreases |content| - i
  {
    if i < |content| && content[i] != '\n' then LineEnd(content, i + 1) else i
  }

  /** What one `getline` does: nothing at end of file, else the line and the position after its newline. */
  function GetLine(content: string, pos: nat): (r: Option<(string, nat)>)
    requires pos <= |content|
    ensures r.Some? ==> pos < r.value.1 <= |content|
  {
    if pos == |content| then None
    else
      var e := LineEnd(content, pos);
      Some((content[pos..e], if e < |content| then e + 1 else e))
  }

  function LinesFrom(content: string, pos: nat): seq<string>
    requires pos <= |content|
    decreases |content| - pos
  {
    match GetLine(content, pos)
    case None => []
    case Some(next) => [next.0] + LinesFrom(content, next.1)
  }

  // ---------- the lines of a file, whoever reads it ----------

  predicate NoNewline(line: string) {
    '\n' !in line
  }

  /** The text of lines that all end in a newline. */
  function Ended(lines: seq<string>): string {
    if lines == [] then "" else lines[0] + "\n" + Ended(lines[1..])
  }

  /** `content` consists of `lines`, each ended by a newline, except that the last one may lack it if it is not empty. */
  ghost predicate IsFileOf(content: string, lines: seq<string>) {
    && (forall i :: 0 <= i < |lines| ==> NoNewline(lines[i]))
    && (content == Ended(lines)
        || (lines != [] && lines[|lines| - 1] != "" && content == Ended(lines[..|lines| - 1]) + lines[|lines| - 1]))
  }

  lemma {:induction false} LineEndExact(content: string, i: nat, e: nat)
    requires i <= e <= |content| && NoNewline(content[i..e]) && (e < |content| ==> content[e] == '\n')
    ensures LineEnd(content, i) == e
    decreases e - i
  {
    if i < e {
      assert content[i] == content[i..e][0];
      assert content[i..e][1..] == content[i + 1..e];
      LineEndExact(content, i + 1, e);
    }
  }

  lemma {:induction false} LineEndStops(content: string, i: nat)
    requires i <= |content|
    ensures NoNewline(content[i..LineEnd(content, i)])
    ensures LineEnd(content, i) < |content| ==> content[LineEnd(content, i)] == '\n'
    decreases |content| - i
  {
    if i < |content| && content[i] != '\n' {
      LineEndStops(content, i + 1);
      assert content[i..LineEnd(content, i)] == [content[i]] + content[i + 1..LineEnd(content, i)];
    }
  }

  /** The line that is read from after `before` on. */
  lemma GetLineAfter(before: string, line: string, after: string)
    requires NoNewline(line) && (after == "" ==> line != "") && (after != "" ==> after[0] == '\n')
    ensures var content := before + line + after;
      GetLine(content, |before|) == Some((line, if after == "" then |content| else |before + line| + 1))
  {
    var content := before + line + after;
    assert content[|before|..|before + line|] == line;
    LineEndExact(content, |before|, |before + line|);
  }

  lemma Regrouped(before: string, line: string, tail: string, rest: string)
    ensures before + (line + "\n" + tail) + rest == before + line + ("\n" + tail + rest)
    ensures before + (line + "\n" + tail) + rest == (before + line + "\n") + tail + rest
  {
  }

  lemma OneLineRead(content: string, pos: nat, line: string, next: nat)
    requires pos <= |content| && GetLine(content, pos) == Some((line, next))
    ensures LinesFrom(content, pos) == [line] + LinesFrom(content, next)
  {
  }

  function Remainder(rest: string): seq<string> {
    if rest == "" then [] else [rest]
  }

  lemma ReadsRest(before: string, rest: string)
    requires NoNewline(rest)
    ensures LinesFrom(before + rest, |before|) == Remainder(rest)
  {
    if rest != "" {
      GetLineAfter(before, rest, "");
      assert before + rest + "" == before + rest;
      OneLineRead(before + rest, |before|, rest, |before + rest|);
    }
  }

  lemma ReadsFirst(before: string, line: string, tail: string, rest: string)
    requires NoNewline(line)
    ensures LinesFrom(before + (line + "\n" + tail) + rest, |before|)
      == [line] + LinesFrom((before + line + "\n") + tail + rest, |before + line + "\n"|)
  {
    Regrouped(before, line, tail, rest);
    GetLineAfter(before, line, "\n" + tail + rest);
    OneLineRead(before + line + ("\n" + tail + rest), |before|, line, |before + line| + 1);
  }

  lemma FirstAndRest(lines: seq<string>, rest: seq<string>)
    requires lines != []
    ensures [lines[0]] + (lines[1..] + rest) == lines + rest
  {
  }

  /** Reading a file of lines gives those lines. */
  lemma {:induction false} ReadsLines(before: string, lines: seq<string>, rest: string)
    requires (forall i :: 0 <= i < |lines| ==> NoNewline(lines[i])) && NoNewline(rest)
    ensures LinesFrom(before + Ended(lines) + rest, |before|) == lines + Remainder(rest)
    decreases |lines|
  {
    if lines == [] {
      assert before + Ended(lines) == before;
      ReadsRest(before, rest);
    } else {
      ReadsFirst(before, lines[0], Ended(lines[1..]), rest);
      ReadsLines(before + lines[0] + "\n", lines[1..], rest);
      FirstAndRest(lines, Remainder(rest));
    }
  }

  /** The lines read spell the rest of the file. */
  lemma {:induction false} LinesSpell(content: string, pos: nat)
    requires pos <= |content|
    ensures IsFileOf(content[pos..], LinesFrom(content, pos))
    decreases |content| - pos
  {
    if pos < |content| {
      var e := LineEnd(content, pos);
      LineEndStops(content, pos);
      var (line, next) := GetLine(content, pos).value;
      var tail := LinesFrom(content, next);
      LinesSpell(content, next);
      if e < |content| {
        assert content[pos..] == line + "\n" + content[next..];
        OneLineBefore(line, content[next..], tail);
      } else {
        assert content[pos..] == line && tail == [];
        assert LinesFrom(content, pos) == [line];
      }
    }
  }

  lemma OneLineBefore(line: string, content: string, lines: seq<string>)
    requires NoNewline(line) && IsFileOf(content, lines)
    ensures IsFileOf(line + "\n" + content, [line] + lines)
  {
    var all := [line] + lines;
    assert all[1..] == lines;
    if content != Ended(lines) {
      var n := |lines| - 1;
      assert all[..n + 1] == [line] + lines[..n];
      assert all[..n + 1][1..] == lines[..n];
      assert line + "\n" + (Ended(lines[..n]) + lines[n]) == (line + "\n" + Ended(lines[..n])) + lines[n];
    }
  }

  lemma ReadsFile(lines: seq<string>, rest: string)
    requires (forall i :: 0 <= i < |lines| ==> NoNewline(lines[i])) && NoNewline(rest)
    ensures LinesFrom(Ended(lines) + rest, 0) == lines + Remainder(rest)
  {
    ReadsLines("", lines, rest);
    assert "" + Ended(lines) == Ended(lines);
  }

  lemma FilesHaveOneReading(content: string)
    ensures forall lines :: IsFileOf(content, lines) ==> lines == LinesFrom(content, 0)
  {
    forall lines | IsFileOf(content, lines)
      ensures lines == LinesFrom(content, 0)
    {
      LinesExact(content, lines);
    }
  }

  /** Reading a file gives the lines it consists of, and a file consists of no other lines. */
  lemma LinesExact(content: string, lines: seq<string>)
    ensures IsFileOf(content, lines) <==> lines == LinesFrom(content, 0)
  {
    LinesSpell(content, 0);
    assert content[0..] == content;
    if IsFileOf(content, lines) {
      if content == Ended(lines) {
        ReadsFile(lines, "");
        assert Ended(lines) + "" == content;
        assert lines + [] == lines;
      } else {
        var n := |lines| - 1;
        ReadsFile(lines[..n], lines[n]);
        assert lines[..n] + [lines[n]] == lines;
      }
    }
  }
}
