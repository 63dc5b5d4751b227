/** The lines of a patch in one text (the first step of parseHunkLines in packages/contracts/src/git.ts). */
module PatchText {
  import opened Prelude
  import opened Framing
  import opened GitPatch

  /** No line holds a line break. */
  predicate Unbroken(lines: seq<string>) {
    forall k | 0 <= k < |lines| :: '\n' !in lines[k]
  }

  predicate EndsInReturn(line: string) {
    line != "" && line[|line| - 1] == '\r'
  }

  /** The line without a carriage return at its end. */
  function Stripped(line: string): (r: string)
    ensures '\n' !in line ==> '\n' !in r
  {
    if EndsInReturn(line) then line[..|line| - 1] else line
  }

  /** What a line break follows is stripped; the last line is not. */
  function StripEach(lines: seq<string>): (r: seq<string>)
    ensures |r| == |lines|
    ensures Unbroken(lines) ==> Unbroken(r)
  {
    if |lines| <= 1 then lines else [Stripped(lines[0])] + StripEach(lines[1..])
  }

  lemma BreakEndsLine(line: string, rest: string)
    requires '\n' !in line
    ensures IndexOf(line + "\n" + rest, "\n") == Some(|line|)
  {
    var text := line + "\n" + rest;
    assert OccursAt(text, "\n", |line|);
    forall k: nat | k < |line|
      ensures !OccursAt(text, "\n", k)
    {
      assert text[k..k + 1][0] == line[k];
    }
  }

  lemma NoBreakInside(line: string)
    requires '\n' !in line
    ensures IndexOf(line, "\n").None? && IndexOf(line, "\r\n").None?
  {
    forall k: nat | k + 1 <= |line|
      ensures !OccursAt(line, "\n", k) && !OccursAt(line, "\r\n", k)
    {
      assert line[k..k + 1][0] == line[k];
      if k + 2 <= |line| {
        assert line[k..k + 2][1] == line[k + 1];
      }
    }
  }

  /** Lines that are joined split into themselves. */
  lemma {:induction false} SplitJoined(lines: seq<string>)
    requires lines != [] && Unbroken(lines)
    ensures Split(Join(lines, "\n"), "\n") == lines
  {
    hide IndexOf;
    var line := lines[0];
    if |lines| == 1 {
      NoBreakInside(line);
    } else {
      var rest := Join(lines[1..], "\n");
      var text := line + "\n" + rest;
      SplitJoined(lines[1..]);
      BreakEndsLine(line, rest);
      assert text[..|line|] == line && text[|line| + 1..] == rest;
    }
  }

  /** `text.replace(/\r\n/g, "\n")` */
  function Replaced(text: string): string {
    Join(Split(text, "\r\n"), "\n")
  }

  lemma NoReturnInside(line: string, rest: string, k: nat)
    requires '\n' !in line && OccursAt(line + "\n" + rest, "\r\n", k)
    ensures k + 1 >= |line| && (k + 1 == |line| ==> EndsInReturn(line))
  {
    var text := line + "\n" + rest;
    assert text[k..k + 2][0] == text[k] && text[k..k + 2][1] == text[k + 1];
    assert forall j | 0 <= j < |line| :: text[j] == line[j] && line[j] != '\n';
  }

  /** With a carriage return in front of it, a break is found there. */
  lemma ReturnFound(line: string, rest: string)
    requires '\n' !in line && EndsInReturn(line)
    ensures IndexOf(line + "\n" + rest, "\r\n") == Some(|line| - 1)
  {
    var text, n := line + "\n" + rest, |line| - 1;
    assert text[n..n + 2] == "\r\n";
    assert OccursAt(text, "\r\n", n);
    forall k: nat | k < n
      ensures !OccursAt(text, "\r\n", k)
    {
      if OccursAt(text, "\r\n", k) {
        NoReturnInside(line, rest, k);
      }
    }
  }

  /** Without one, the next is found behind it. */
  lemma ReturnFoundBehind(line: string, rest: string)
    requires '\n' !in line && !EndsInReturn(line)
    ensures IndexOf(line + "\n" + rest, "\r\n") ==
      match IndexOf(rest, "\r\n") case None => None case Some(i) => Some(|line| + 1 + i)
  {
    var text, n := line + "\n" + rest, |line| + 1;
    forall k: nat | OccursAt(text, "\r\n", k)
      ensures k >= n && OccursAt(rest, "\r\n", k - n)
    {
      NoReturnInside(line, rest, k);
      assert text[k..k + 2][0] == text[k];
      assert text[|line|] == '\n';
      assert text[k..k + 2] == rest[k - n..k - n + 2];
    }
    forall i: nat | OccursAt(rest, "\r\n", i)
      ensures OccursAt(text, "\r\n", n + i)
    {
      assert text[n + i..n + i + 2] == rest[i..i + 2];
    }
    var found, behind := IndexOf(text, "\r\n"), IndexOf(rest, "\r\n");
    if behind.Some? {
      assert OccursAt(text, "\r\n", n + behind.value);
      assert found.Some?;
      assert OccursAt(rest, "\r\n", found.value - n);
    }
  }

  lemma JoinFirst(first: string, parts: seq<string>)
    requires parts != []
    ensures Join([first + parts[0]] + parts[1..], "\n") == first + Join(parts, "\n")
  {
    var all := [first + parts[0]] + parts[1..];
    if |parts| > 1 {
      assert all[1..] == parts[1..];
      assert first + parts[0] + "\n" + Join(parts[1..], "\n") == first + (parts[0] + "\n" + Join(parts[1..], "\n"));
    }
  }

  /** Replacing works line by line. */
  lemma ReplacedLine(line: string, rest: string)
    requires '\n' !in line
    ensures Replaced(line + "\n" + rest) == Stripped(line) + "\n" + Replaced(rest)
  {
    hide IndexOf;
    var text := line + "\n" + rest;
    if EndsInReturn(line) {
      var n := |line| - 1;
      ReturnFound(line, rest);
      assert text[..n] == line[..n] && text[n + 2..] == rest;
      var parts := [line[..n]] + Split(rest, "\r\n");
      assert parts[1..] == Split(rest, "\r\n");
    } else {
      ReturnFoundBehind(line, rest);
      SplitBehind(line, rest);
      JoinFirst(line + "\n", Split(rest, "\r\n"));
    }
  }

  lemma SplitOnce(text: string, separator: string)
    requires separator != ""
    ensures Split(text, separator) ==
      match IndexOf(text, separator)
      case None => [text]
      case Some(i) => [text[..i]] + Split(text[i + |separator|..], separator)
  {
  }

  lemma SplitBehind(line: string, rest: string)
    requires IndexOf(line + "\n" + rest, "\r\n") ==
      match IndexOf(rest, "\r\n") case None => None case Some(i) => Some(|line| + 1 + i)
    ensures var parts := Split(rest, "\r\n");
      Split(line + "\n" + rest, "\r\n") == [line + "\n" + parts[0]] + parts[1..]
  {
    hide IndexOf, Split;
    var text, n := line + "\n" + rest, |line| + 1;
    var found := IndexOf(rest, "\r\n");
    SplitOnce(rest, "\r\n");
    SplitOnce(text, "\r\n");
    if found.Some? {
      var i := found.value;
      assert text[..n + i] == line + "\n" + rest[..i];
      assert text[n + i + 2..] == rest[i + 2..];
    }
  }

  lemma {:induction false} ReplacedLines(lines: seq<string>)
    requires lines != [] && Unbroken(lines)
    ensures Replaced(Join(lines, "\n")) == Join(StripEach(lines), "\n")
  {
    hide Replaced, Stripped;
    if |lines| == 1 {
      ReplacedLast(lines[0]);
    } else {
      ReplacedLines(lines[1..]);
      ReplacedLine(lines[0], Join(lines[1..], "\n"));
      assert StripEach(lines)[1..] == StripEach(lines[1..]);
    }
  }

  lemma ReplacedLast(line: string)
    requires '\n' !in line
    ensures Replaced(line) == line
  {
    NoBreakInside(line);
  }

  /** What the parser reads of lines that are joined: each of them, less a carriage return in front of a break. */
  lemma JoinedLines(lines: seq<string>)
    requires lines != [] && Unbroken(lines)
    ensures PatchLines(Join(lines, "\n")) == StripEach(lines)
  {
    ReplacedLines(lines);
    SplitJoined(StripEach(lines));
  }

  /** It reads the very lines exactly if no break stands behind a carriage return. */
  lemma {:induction false} LinesReadBackIff(lines: seq<string>)
    requires lines != [] && Unbroken(lines)
    ensures PatchLines(Join(lines, "\n")) == lines <==> forall k | 0 <= k < |lines| - 1 :: !EndsInReturn(lines[k])
  {
    hide PatchLines;
    JoinedLines(lines);
    StripsNothingIff(lines);
  }

  lemma {:induction false} StripsNothingIff(lines: seq<string>)
    ensures StripEach(lines) == lines <==> forall k | 0 <= k < |lines| - 1 :: !EndsInReturn(lines[k])
  {
    if |lines| > 1 {
      StripsNothingIff(lines[1..]);
      assert lines == [lines[0]] + lines[1..];
      assert StripEach(lines)[0] == Stripped(lines[0]) && StripEach(lines)[1..] == StripEach(lines[1..]);
      assert Stripped(lines[0]) == lines[0] <==> !EndsInReturn(lines[0]);
      assert forall k | 1 <= k < |lines| - 1 :: lines[k] == lines[1..][k - 1];
      if forall k | 0 <= k < |lines[1..]| - 1 :: !EndsInReturn(lines[1..][k]) {
        assert forall k | 1 <= k < |lines| - 1 :: !EndsInReturn(lines[k]);
      }
    }
  }

  // ---- any text is its lines joined ----

  lemma {:induction false} JoinPush(lines: seq<string>, line: string)
    requires lines != []
    ensures Join(lines + [line], "\n") == Join(lines, "\n") + "\n" + line
  {
    var all := lines + [line];
    if |lines| == 1 {
      assert all[1..] == [line];
    } else {
      assert all[1..] == lines[1..] + [line];
      JoinPush(lines[1..], line);
    }
  }

  lemma UnbrokenSplit(text: string)
    ensures Unbroken(Split(text, "\n")) && Join(Split(text, "\n"), "\n") == text
  {
    hide Split, Join;
    SplitJoins(text, "\n");
    var lines := Split(text, "\n");
    forall k | 0 <= k < |lines|
      ensures '\n' !in lines[k]
    {
      forall at | 0 <= at < |lines[k]|
        ensures lines[k][at] != '\n'
      {
        assert !OccursAt(lines[k], "\n", at);
        assert lines[k][at..at + 1] == [lines[k][at]];
      }
    }
  }

  lemma {:induction false} LastKept(lines: seq<string>)
    requires lines != []
    ensures StripEach(lines)[|lines| - 1] == lines[|lines| - 1]
  {
    hide Stripped;
    if |lines| > 1 {
      LastKept(lines[1..]);
    }
  }

  /** The last line is blank exactly if nothing stands behind the last break. */
  lemma LastBlankIff(patch: string)
    ensures PatchLines(patch) != []
    ensures PatchLines(patch)[|PatchLines(patch)| - 1] == "" <==> patch == "" || patch[|patch| - 1] == '\n'
  {
    hide PatchLines, Split;
    var lines := Split(patch, "\n");
    UnbrokenSplit(patch);
    JoinedLines(lines);
    LastKept(lines);
    var n := |lines| - 1;
    if n > 0 {
      JoinPush(lines[..n], lines[n]);
      assert lines == lines[..n] + [lines[n]];
    }
  }
}
