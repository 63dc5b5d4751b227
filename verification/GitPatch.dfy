/**
 Unified diffs in the Git panel (packages/contracts/src/git.ts): numbering the lines of each hunk, folding long
 unchanged runs, and capping a patch at a number of UTF-8 bytes.
 */
module GitPatch {
  import opened Prelude
  import opened Framing

  // ---- the hunk header: /^@@ -(\d+)(?:,\d+)? \+(\d+)(?:,\d+)? @@/ ----

  predicate IsDigit(c: char) {
    '0' <= c <= '9'
  }

  function DigitValue(c: char): nat
    requires IsDigit(c)
  {
    (c - '0') as nat
  }

  predicate IsNumber(text: string) {
    text != "" && forall k | 0 <= k < |text| :: IsDigit(text[k])
  }

  function Value(digits: string): nat
    requires forall k | 0 <= k < |digits| :: IsDigit(digits[k])
  {
    if digits == "" then 0 else 10 * Value(digits[..|digits| - 1]) + DigitValue(digits[|digits| - 1])
  }

  /** Where the run of digits that starts at `at` ends. */
  function DigitsEnd(text: string, at: nat): (end: nat)
    requires at <= |text|
    ensures at <= end <= |text|
    ensures forall k | at <= k < end :: IsDigit(text[k])
    ensures end < |text| ==> !IsDigit(text[end])
    decreases |text| - at
  {
    if at < |text| && IsDigit(text[at]) then DigitsEnd(text, at + 1) else at
  }

  /** Behind an optional ",count". */
  function CountEnd(text: string, at: nat): (end: nat)
    requires at <= |text|
    ensures at <= end <= |text|
  {
    if at < |text| && text[at] == ',' && DigitsEnd(text, at + 1) > at + 1 then DigitsEnd(text, at + 1) else at
  }

  datatype Starts = Starts(oldLine: nat, newLine: nat)

  function HunkHeader(raw: string): Option<Starts> {
    if !StartsWith(raw, "@@ -") then None
    else
      var oldEnd := DigitsEnd(raw, 4);
      var oldCount := CountEnd(raw, oldEnd);
      if oldEnd == 4 || !OccursAt(raw, " +", oldCount) then None
      else
        var newEnd := DigitsEnd(raw, oldCount + 2);
        if newEnd == oldCount + 2 || !OccursAt(raw, " @@", CountEnd(raw, newEnd)) then None
        else Some(Starts(Value(raw[4..oldEnd]), Value(raw[oldCount + 2..newEnd])))
  }

  predicate IsCount(text: string) {
    text == "" || (text[0] == ',' && IsNumber(text[1..]))
  }

  /** A match of the pattern, by the places where its pieces end. */
  predicate Matches(raw: string, oldEnd: nat, plus: nat, newEnd: nat, close: nat) {
    && 4 <= oldEnd <= plus && plus + 2 <= newEnd <= close <= |raw|
    && OccursAt(raw, "@@ -", 0) && IsNumber(raw[4..oldEnd]) && IsCount(raw[oldEnd..plus])
    && OccursAt(raw, " +", plus) && IsNumber(raw[plus + 2..newEnd]) && IsCount(raw[newEnd..close])
    && OccursAt(raw, " @@", close)
  }

  lemma {:induction false} DigitsEndAt(text: string, at: nat, end: nat)
    requires at <= end <= |text|
    requires forall k | at <= k < end :: IsDigit(text[k])
    requires end == |text| || !IsDigit(text[end])
    ensures DigitsEnd(text, at) == end
    decreases end - at
  {
    if at < end {
      DigitsEndAt(text, at + 1, end);
    }
  }

  lemma NumberEnd(raw: string, at: nat, end: nat)
    requires at <= end < |raw| && IsNumber(raw[at..end]) && !IsDigit(raw[end])
    ensures DigitsEnd(raw, at) == end
  {
    assert forall k | at <= k < end :: raw[k] == raw[at..end][k - at];
    DigitsEndAt(raw, at, end);
  }

  lemma CountEndAt(raw: string, at: nat, end: nat)
    requires at <= end < |raw| && IsCount(raw[at..end]) && raw[end] == ' '
    ensures CountEnd(raw, at) == end && !IsDigit(raw[at])
  {
    if at < end {
      assert raw[at] == raw[at..end][0] && raw[at + 1..end] == raw[at..end][1..];
      NumberEnd(raw, at + 1, end);
    }
  }

  lemma BlankAt(raw: string, pattern: string, at: nat)
    requires pattern != "" && pattern[0] == ' ' && OccursAt(raw, pattern, at)
    ensures at < |raw| && raw[at] == ' '
  {
    assert raw[at] == raw[at..at + |pattern|][0];
  }

  /** The scanner reads the two groups of any match. */
  lemma HeaderReadsMatch(raw: string, oldEnd: nat, plus: nat, newEnd: nat, close: nat)
    requires Matches(raw, oldEnd, plus, newEnd, close)
    ensures HunkHeader(raw) == Some(Starts(Value(raw[4..oldEnd]), Value(raw[plus + 2..newEnd])))
  {
    hide Value;
    BlankAt(raw, " +", plus);
    BlankAt(raw, " @@", close);
    CountEndAt(raw, oldEnd, plus);
    NumberEnd(raw, 4, oldEnd);
    CountEndAt(raw, newEnd, close);
    NumberEnd(raw, plus + 2, newEnd);
  }

  /** A line is taken for a header exactly if the pattern matches it. */
  lemma HeaderIsMatch(raw: string)
    ensures HunkHeader(raw).Some? <==> exists oldEnd, plus, newEnd, close :: Matches(raw, oldEnd, plus, newEnd, close)
  {
    if HunkHeader(raw).Some? {
      HeaderHasMatch(raw);
    }
    if oldEnd, plus, newEnd, close :| Matches(raw, oldEnd, plus, newEnd, close) {
      HeaderReadsMatch(raw, oldEnd, plus, newEnd, close);
    }
  }

  lemma HeaderHasMatch(raw: string)
    requires HunkHeader(raw).Some?
    ensures exists oldEnd, plus, newEnd, close :: Matches(raw, oldEnd, plus, newEnd, close)
  {
    hide Value, DigitsEnd, CountEnd, IsCount, IsNumber;
    var oldEnd := DigitsEnd(raw, 4);
    var plus := CountEnd(raw, oldEnd);
    var newEnd := DigitsEnd(raw, plus + 2);
    var close := CountEnd(raw, newEnd);
    NumberText(raw, 4);
    CountText(raw, oldEnd);
    NumberText(raw, plus + 2);
    CountText(raw, newEnd);
    assert Matches(raw, oldEnd, plus, newEnd, close);
  }

  lemma NumberText(raw: string, at: nat)
    requires at <= |raw| && DigitsEnd(raw, at) > at
    ensures IsNumber(raw[at..DigitsEnd(raw, at)])
  {
  }

  lemma CountText(raw: string, at: nat)
    requires at <= |raw|
    ensures IsCount(raw[at..CountEnd(raw, at)])
  {
    var end := CountEnd(raw, at);
    if at < end {
      assert raw[at..end][1..] == raw[at + 1..end];
    }
  }

  // ---- parseHunkLines ----

  datatype LineType = Hunk | Add | Del | Ctx

  datatype HunkLine = HunkLine(kind: LineType, text: string, oldLine: Option<nat>, newLine: Option<nat>)

  predicate IsMeta(raw: string) {
    || StartsWith(raw, "\\") || StartsWith(raw, "diff --git ") || StartsWith(raw, "index ")
    || StartsWith(raw, "---") || StartsWith(raw, "+++")
  }

  /** The lines the panel shows: everything from the first header on, but for file headers and markers. */
  function Kept(lines: seq<string>, inHunk: bool): seq<string> {
    if lines == [] then []
    else if HunkHeader(lines[0]).Some? then [lines[0]] + Kept(lines[1..], true)
    else if inHunk && !IsMeta(lines[0]) then [lines[0]] + Kept(lines[1..], inHunk)
    else Kept(lines[1..], inHunk)
  }

  /** How a kept line shows: its marker gone, its kind told apart. */
  predicate Shows(line: HunkLine, raw: string) {
    match line.kind
    case Hunk => HunkHeader(raw).Some? && line.text == raw
    case Add => HunkHeader(raw).None? && raw == "+" + line.text
    case Del => HunkHeader(raw).None? && raw == "-" + line.text
    case Ctx =>
      && HunkHeader(raw).None? && !StartsWith(raw, "+") && !StartsWith(raw, "-")
      && (if StartsWith(raw, " ") then raw == " " + line.text else line.text == raw)
  }

  predicate OnOldSide(line: HunkLine) { line.kind == Del || line.kind == Ctx }

  predicate OnNewSide(line: HunkLine) { line.kind == Add || line.kind == Ctx }

  /** The header of the hunk that line `i` is in. */
  function HunkOf(lines: seq<HunkLine>, i: nat): (r: Option<nat>)
    requires i < |lines|
    ensures r.Some? ==> r.value <= i && lines[r.value].kind == Hunk
    ensures r.Some? ==> forall k | r.value < k <= i :: lines[k].kind != Hunk
    ensures r.None? ==> forall k | 0 <= k <= i :: lines[k].kind != Hunk
  {
    if lines[i].kind == Hunk then Some(i) else if i == 0 then None else HunkOf(lines, i - 1)
  }

  function OldLines(lines: seq<HunkLine>, from: nat, upTo: nat): nat
    requires from <= upTo <= |lines|
  {
    if from == upTo then 0 else OldLines(lines, from, upTo - 1) + if OnOldSide(lines[upTo - 1]) then 1 else 0
  }

  function NewLines(lines: seq<HunkLine>, from: nat, upTo: nat): nat
    requires from <= upTo <= |lines|
  {
    if from == upTo then 0 else NewLines(lines, from, upTo - 1) + if OnNewSide(lines[upTo - 1]) then 1 else 0
  }

  /** Line `i` is numbered from the starts of its hunk, counting the lines of each side before it. */
  predicate NumberedAt(lines: seq<HunkLine>, i: nat)
    requires i < |lines|
  {
    match HunkOf(lines, i)
    case None => false
    case Some(h) =>
      var starts := HunkHeader(lines[h].text);
      && starts.Some?
      && lines[i].oldLine == (if OnOldSide(lines[i]) then Some(starts.value.oldLine + OldLines(lines, h, i)) else None)
      && lines[i].newLine == (if OnNewSide(lines[i]) then Some(starts.value.newLine + NewLines(lines, h, i)) else None)
  }

  predicate Numbered(lines: seq<HunkLine>) {
    forall i | 0 <= i < |lines| :: NumberedAt(lines, i)
  }

  /** What parseHunkLines returns for the lines of a patch. */
  predicate Parsed(raws: seq<string>, lines: seq<HunkLine>) {
    && |lines| == |raws|
    && (forall i | 0 <= i < |lines| :: Shows(lines[i], raws[i]))
    && Numbered(lines)
  }

  /** The numbers the next line gets. */
  predicate Counters(lines: seq<HunkLine>, oldLine: nat, newLine: nat) {
    lines != [] ==>
      match HunkOf(lines, |lines| - 1)
      case None => false
      case Some(h) =>
        var starts := HunkHeader(lines[h].text);
        && starts.Some?
        && oldLine == starts.value.oldLine + OldLines(lines, h, |lines|)
        && newLine == starts.value.newLine + NewLines(lines, h, |lines|)
  }

  lemma {:induction false} PrefixCounts(lines: seq<HunkLine>, line: HunkLine, from: nat, upTo: nat)
    requires from <= upTo <= |lines|
    ensures OldLines(lines + [line], from, upTo) == OldLines(lines, from, upTo)
    ensures NewLines(lines + [line], from, upTo) == NewLines(lines, from, upTo)
    decreases upTo
  {
    if from < upTo {
      PrefixCounts(lines, line, from, upTo - 1);
    }
  }

  lemma {:induction false} PrefixHunk(lines: seq<HunkLine>, line: HunkLine, i: nat)
    requires i < |lines|
    ensures HunkOf(lines + [line], i) == HunkOf(lines, i)
  {
    if lines[i].kind != Hunk && i > 0 {
      PrefixHunk(lines, line, i - 1);
    }
  }

  lemma PrefixNumbered(lines: seq<HunkLine>, line: HunkLine)
    requires Numbered(lines)
    ensures forall i | 0 <= i < |lines| :: NumberedAt(lines + [line], i)
  {
    forall i | 0 <= i < |lines|
      ensures NumberedAt(lines + [line], i)
    {
      PrefixHunk(lines, line, i);
      assert NumberedAt(lines, i);
      var h := HunkOf(lines, i).value;
      PrefixCounts(lines, line, h, i);
    }
  }

  /** A line that is no header belongs to the hunk of the line before it. */
  lemma SameHunk(lines: seq<HunkLine>, line: HunkLine)
    requires lines != [] && line.kind != Hunk
    ensures HunkOf(lines + [line], |lines|) == HunkOf(lines, |lines| - 1)
  {
    PrefixHunk(lines, line, |lines| - 1);
  }

  lemma CountOneMore(lines: seq<HunkLine>, line: HunkLine, from: nat)
    requires from <= |lines|
    ensures OldLines(lines + [line], from, |lines|) == OldLines(lines, from, |lines|)
    ensures NewLines(lines + [line], from, |lines|) == NewLines(lines, from, |lines|)
    ensures OldLines(lines + [line], from, |lines| + 1) == OldLines(lines, from, |lines|) + if OnOldSide(line) then 1 else 0
    ensures NewLines(lines + [line], from, |lines| + 1) == NewLines(lines, from, |lines|) + if OnNewSide(line) then 1 else 0
  {
    PrefixCounts(lines, line, from, |lines|);
  }

  /** A line numbered with the counters fits behind the others, and the counters move on. */
  lemma PushLine(lines: seq<HunkLine>, line: HunkLine, oldLine: nat, newLine: nat)
    requires lines != [] && line.kind != Hunk && Numbered(lines) && Counters(lines, oldLine, newLine)
    requires line.oldLine == if OnOldSide(line) then Some(oldLine) else None
    requires line.newLine == if OnNewSide(line) then Some(newLine) else None
    ensures Numbered(lines + [line])
    ensures Counters(lines + [line], oldLine + (if OnOldSide(line) then 1 else 0),
                     newLine + (if OnNewSide(line) then 1 else 0))
  {
    hide HunkOf, OldLines, NewLines, HunkHeader, OnOldSide, OnNewSide;
    var n := |lines|;
    PrefixNumbered(lines, line);
    SameHunk(lines, line);
    var h := HunkOf(lines, n - 1).value;
    CountOneMore(lines, line, h);
    assert NumberedAt(lines + [line], n);
  }

  lemma PushHunk(lines: seq<HunkLine>, raw: string)
    requires Numbered(lines) && HunkHeader(raw).Some?
    ensures var more := lines + [HunkLine(Hunk, raw, None, None)];
      Numbered(more) && Counters(more, HunkHeader(raw).value.oldLine, HunkHeader(raw).value.newLine)
  {
    var line := HunkLine(Hunk, raw, None, None);
    PrefixNumbered(lines, line);
    assert NumberedAt(lines + [line], |lines|);
  }

  /** `patch.replace(/\r\n/g, "\n").split("\n")` */
  function PatchLines(patch: string): seq<string> {
    Split(Join(Split(patch, "\r\n"), "\n"), "\n")
  }

  predicate AnyHeader(lines: seq<string>) {
    exists k :: 0 <= k < |lines| && HunkHeader(lines[k]).Some?
  }

  lemma {:induction false} KeptPush(lines: seq<string>, line: string, inHunk: bool)
    ensures var now := inHunk || AnyHeader(lines);
      Kept(lines + [line], inHunk) ==
        if HunkHeader(line).Some? || (now && !IsMeta(line)) then Kept(lines, inHunk) + [line] else Kept(lines, inHunk)
  {
    hide HunkHeader, IsMeta;
    if lines == [] {
      assert [line][1..] == [];
    } else {
      assert (lines + [line])[1..] == lines[1..] + [line];
      KeptPush(lines[1..], line, inHunk || HunkHeader(lines[0]).Some?);
      assert forall k | 1 <= k < |lines| :: lines[k] == lines[1..][k - 1];
    }
  }

  /** A file header or a remark, by how it starts. */
  predicate StartsLikeMeta(raw: string) {
    "\\" <= raw || "diff --git " <= raw || "index " <= raw || "---" <= raw || "+++" <= raw
  }

  /** Line `i` is on show: a hunk header, or a line behind one that is no file header and no remark. */
  predicate OnShow(lines: seq<string>, i: nat)
    requires i < |lines|
  {
    HunkHeader(lines[i]).Some? || ((exists k :: 0 <= k < i && HunkHeader(lines[k]).Some?) && !StartsLikeMeta(lines[i]))
  }

  /** `from` says which lines are kept: those on show, in order. */
  ghost predicate KeptFrom(lines: seq<string>, kept: seq<string>, from: seq<nat>) {
    && |from| == |kept|
    && (forall k | 0 <= k < |from| :: from[k] < |lines| && kept[k] == lines[from[k]] && OnShow(lines, from[k]))
    && (forall j, k | 0 <= j < k < |from| :: from[j] < from[k])
    && (forall i: nat | i < |lines| && OnShow(lines, i) :: i in from)
  }

  lemma MetaIs(raw: string)
    ensures IsMeta(raw) <==> StartsLikeMeta(raw)
  {
  }

  lemma KeptFromPush(front: seq<string>, line: string, kept: seq<string>, from: seq<nat>)
    requires KeptFrom(front, kept, from)
    ensures OnShow(front + [line], |front|) ==> KeptFrom(front + [line], kept + [line], from + [|front|])
    ensures !OnShow(front + [line], |front|) ==> KeptFrom(front + [line], kept, from)
  {
    hide HunkHeader, StartsLikeMeta, OnShow;
    var lines, all := front + [line], from + [|front|];
    forall i: nat | i < |front|
      ensures OnShow(lines, i) <==> OnShow(front, i)
    {
      SameShow(front, line, i);
    }
    assert all[|from|] == |front|;
    assert forall i: nat | i < |front| && OnShow(lines, i) :: i in from;
    forall i: nat | i < |front| && i in from
      ensures i in all
    {
      var k :| 0 <= k < |from| && from[k] == i;
      assert all[k] == i;
    }
  }

  lemma SameShow(front: seq<string>, line: string, i: nat)
    requires i < |front|
    ensures OnShow(front + [line], i) <==> OnShow(front, i)
  {
    hide HunkHeader, StartsLikeMeta;
    var lines := front + [line];
    assert forall k | 0 <= k <= i :: lines[k] == front[k];
    if k :| 0 <= k < i && HunkHeader(front[k]).Some? {
      assert HunkHeader(lines[k]).Some?;
    }
  }

  lemma ShowLast(front: seq<string>, line: string)
    ensures OnShow(front + [line], |front|) <==> HunkHeader(line).Some? || (AnyHeader(front) && !StartsLikeMeta(line))
  {
    hide HunkHeader, StartsLikeMeta;
    var lines := front + [line];
    assert forall k | 0 <= k < |front| :: lines[k] == front[k];
    if AnyHeader(front) {
      var k :| 0 <= k < |front| && HunkHeader(front[k]).Some?;
      assert HunkHeader(lines[k]).Some?;
    }
  }

  /** The parser keeps exactly the lines on show. */
  lemma {:induction false} KeptAre(lines: seq<string>) returns (from: seq<nat>)
    ensures KeptFrom(lines, Kept(lines, false), from)
  {
    hide KeptFrom, HunkHeader, IsMeta, StartsLikeMeta, OnShow, Kept;
    if lines == [] {
      from := [];
      NothingKept();
    } else {
      var n := |lines| - 1;
      var front, line := lines[..n], lines[n];
      assert lines == front + [line];
      var before := KeptAre(front);
      KeptPush(front, line, false);
      MetaIs(line);
      ShowLast(front, line);
      KeptFromPush(front, line, Kept(front, false), before);
      from := if OnShow(lines, n) then before + [n] else before;
    }
  }

  lemma NothingKept()
    ensures KeptFrom([], Kept([], false), [])
  {
  }

  method ParseHunkLines(patch: string) returns (out: seq<HunkLine>)
    ensures Parsed(Kept(PatchLines(patch), false), out)
  {
    hide HunkHeader, IsMeta, Numbered, Counters, PatchLines, Kept;
    var lines := PatchLines(patch);
    var oldLine, newLine, inHunk := 0, 0, false;
    out := [];
    NoLines();
    for i := 0 to |lines|
      invariant oldLine >= 0 && newLine >= 0
      invariant inHunk == AnyHeader(lines[..i]) && (inHunk ==> out != [])
      invariant Parsed(Kept(lines[..i], false), out) && Counters(out, oldLine, newLine)
    {
      var raw := lines[i];
      assert lines[..i + 1] == lines[..i] + [raw];
      KeptPush(lines[..i], raw, false);
      var header := HunkHeader(raw);
      if header.Some? {
        PushHunk(out, raw);
        inHunk := true;
        oldLine, newLine := header.value.oldLine, header.value.newLine;
        out := out + [HunkLine(Hunk, raw, None, None)];
        assert HunkHeader(lines[..i + 1][i]).Some?;
        continue;
      }
      SameHeaders(lines[..i], raw);
      if !inHunk || IsMeta(raw) {
        continue;
      }
      if StartsWith(raw, "+") {
        var line := HunkLine(Add, raw[1..], None, Some(newLine));
        PushLine(out, line, oldLine, newLine);
        out := out + [line];
        newLine := newLine + 1;
        continue;
      }
      if StartsWith(raw, "-") {
        var line := HunkLine(Del, raw[1..], Some(oldLine), None);
        PushLine(out, line, oldLine, newLine);
        out := out + [line];
        oldLine := oldLine + 1;
        continue;
      }
      var line := HunkLine(Ctx, if StartsWith(raw, " ") then raw[1..] else raw, Some(oldLine), Some(newLine));
      PushLine(out, line, oldLine, newLine);
      out := out + [line];
      oldLine, newLine := oldLine + 1, newLine + 1;
    }
    assert lines[..|lines|] == lines;
  }

  lemma NoLines()
    ensures Kept([], false) == [] && Numbered([]) && Counters([], 0, 0)
  {
  }

  lemma SameHeaders(lines: seq<string>, raw: string)
    requires HunkHeader(raw).None?
    ensures AnyHeader(lines + [raw]) == AnyHeader(lines)
  {
    if k :| 0 <= k < |lines| && HunkHeader(lines[k]).Some? {
      assert (lines + [raw])[k] == lines[k];
    }
  }
}
