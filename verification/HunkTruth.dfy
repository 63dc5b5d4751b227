/**
 When the numbers parseHunkLines gives (packages/contracts/src/git.ts) are the lines' places in the two files.
 */
module HunkTruth {
  import opened Prelude
  import opened Framing
  import opened GitPatch
  import opened PatchText

  /** A line of a hunk's body. */
  datatype Op = Op(kind: LineType, text: string)

  datatype Part = Part(header: string, body: seq<Op>)

  predicate WellFormed(parts: seq<Part>) {
    forall k | 0 <= k < |parts| ::
      HunkHeader(parts[k].header).Some? && forall i | 0 <= i < |parts[k].body| :: parts[k].body[i].kind != Hunk
  }

  function RawOf(op: Op): string {
    (match op.kind case Add => "+" case Del => "-" case _ => " ") + op.text
  }

  function RawBody(body: seq<Op>): (r: seq<string>)
    ensures |r| == |body| && forall k | 0 <= k < |r| :: r[k] == RawOf(body[k])
  {
    seq(|body|, k requires 0 <= k < |body| => RawOf(body[k]))
  }

  /** The lines of a patch as git writes them. */
  function Raws(parts: seq<Part>): seq<string> {
    if parts == [] then [] else [parts[0].header] + RawBody(parts[0].body) + Raws(parts[1..])
  }

  /** A removed line that starts with "--" or an added one that starts with "++": behind its marker it reads like a
      file header. */
  predicate LooksLikeHeader(op: Op) {
    (op.kind == Add && StartsWith(op.text, "++")) || (op.kind == Del && StartsWith(op.text, "--"))
  }

  predicate NoLookalike(parts: seq<Part>) {
    forall k, i | 0 <= k < |parts| && 0 <= i < |parts[k].body| :: !LooksLikeHeader(parts[k].body[i])
  }

  // ---- the true numbers ----

  function OldStep(op: Op): nat { if op.kind == Add then 0 else 1 }

  function NewStep(op: Op): nat { if op.kind == Del then 0 else 1 }

  function TrueLine(op: Op, oldLine: nat, newLine: nat): HunkLine {
    HunkLine(op.kind, op.text, if op.kind == Add then None else Some(oldLine), if op.kind == Del then None else Some(newLine))
  }

  function TrueBody(body: seq<Op>, oldLine: nat, newLine: nat): (r: seq<HunkLine>)
    ensures |r| == |body|
    decreases |body|
  {
    if body == [] then []
    else [TrueLine(body[0], oldLine, newLine)] + TrueBody(body[1..], oldLine + OldStep(body[0]), newLine + NewStep(body[0]))
  }

  function Starting(part: Part): Starts {
    HunkHeader(part.header).GetOr(Starts(0, 0))
  }

  function Truth(parts: seq<Part>): (r: seq<HunkLine>)
    ensures |r| == |Raws(parts)|
  {
    if parts == [] then []
    else
      [HunkLine(Hunk, parts[0].header, None, None)]
      + TrueBody(parts[0].body, Starting(parts[0]).oldLine, Starting(parts[0]).newLine)
      + Truth(parts[1..])
  }

  // ---- what a file is made of ----

  /** The side of a body that a file shows. */
  function OldSide(body: seq<Op>): seq<string> {
    if body == [] then [] else if body[0].kind == Add then OldSide(body[1..]) else [body[0].text] + OldSide(body[1..])
  }

  function NewSide(body: seq<Op>): seq<string> {
    if body == [] then [] else if body[0].kind == Del then NewSide(body[1..]) else [body[0].text] + NewSide(body[1..])
  }

  /** Line `at` of a file, counting from 1, and those behind it read `texts`. */
  predicate ReadsAt(file: seq<string>, at: nat, texts: seq<string>) {
    texts == [] || (at >= 1 && at - 1 + |texts| <= |file| && file[at - 1..at - 1 + |texts|] == texts)
  }

  /** The patch is between these two files. */
  predicate Between(parts: seq<Part>, oldFile: seq<string>, newFile: seq<string>) {
    forall k | 0 <= k < |parts| ::
      && ReadsAt(oldFile, Starting(parts[k]).oldLine, OldSide(parts[k].body))
      && ReadsAt(newFile, Starting(parts[k]).newLine, NewSide(parts[k].body))
  }

  /** A numbered line stands in the file at its number. */
  predicate InPlace(line: HunkLine, oldFile: seq<string>, newFile: seq<string>) {
    && (line.oldLine.Some? ==> 1 <= line.oldLine.value <= |oldFile| && oldFile[line.oldLine.value - 1] == line.text)
    && (line.newLine.Some? ==> 1 <= line.newLine.value <= |newFile| && newFile[line.newLine.value - 1] == line.text)
  }

  lemma ReadsOn(file: seq<string>, at: nat, first: string, rest: seq<string>)
    requires ReadsAt(file, at, [first] + rest)
    ensures 1 <= at <= |file| && file[at - 1] == first && ReadsAt(file, at + 1, rest)
  {
    var texts := [first] + rest;
    assert file[at - 1] == file[at - 1..at - 1 + |texts|][0];
    assert rest == texts[1..];
    if rest != [] {
      assert file[at..at + |rest|] == file[at - 1..at - 1 + |texts|][1..];
    }
  }

  lemma {:induction false} BodyInPlace(body: seq<Op>, oldLine: nat, newLine: nat, oldFile: seq<string>, newFile: seq<string>)
    requires forall i | 0 <= i < |body| :: body[i].kind != Hunk
    requires ReadsAt(oldFile, oldLine, OldSide(body)) && ReadsAt(newFile, newLine, NewSide(body))
    ensures forall i | 0 <= i < |body| :: InPlace(TrueBody(body, oldLine, newLine)[i], oldFile, newFile)
    decreases |body|
  {
    hide ReadsAt;
    if body != [] {
      var op := body[0];
      if op.kind != Add {
        ReadsOn(oldFile, oldLine, op.text, OldSide(body[1..]));
      }
      if op.kind != Del {
        ReadsOn(newFile, newLine, op.text, NewSide(body[1..]));
      }
      BodyInPlace(body[1..], oldLine + OldStep(op), newLine + NewStep(op), oldFile, newFile);
    }
  }

  /** The true numbers are the places in the files. */
  lemma {:induction false} TruthInPlace(parts: seq<Part>, oldFile: seq<string>, newFile: seq<string>)
    requires WellFormed(parts) && Between(parts, oldFile, newFile)
    ensures forall i | 0 <= i < |Truth(parts)| :: InPlace(Truth(parts)[i], oldFile, newFile)
  {
    hide ReadsAt, InPlace, TrueBody;
    if parts != [] {
      TruthInPlace(parts[1..], oldFile, newFile);
      BodyInPlace(parts[0].body, Starting(parts[0]).oldLine, Starting(parts[0]).newLine, oldFile, newFile);
      HeaderInPlace(parts[0].header, oldFile, newFile);
    }
  }

  lemma HeaderInPlace(header: string, oldFile: seq<string>, newFile: seq<string>)
    ensures InPlace(HunkLine(Hunk, header, None, None), oldFile, newFile)
  {
  }

  // ---- the parser keeps every line that is not a lookalike ----

  lemma NotAHeader(op: Op)
    requires op.kind != Hunk
    ensures HunkHeader(RawOf(op)).None?
    ensures IsMeta(RawOf(op)) <==> LooksLikeHeader(op)
  {
    var raw := RawOf(op);
    assert raw[0] == '+' || raw[0] == '-' || raw[0] == ' ';
    FirstChar(raw, "@@ -");
    FirstChar(raw, "\\");
    FirstChar(raw, "diff --git ");
    FirstChar(raw, "index ");
    TwoMore(raw, op.text, '-');
    TwoMore(raw, op.text, '+');
  }

  lemma FirstChar(raw: string, prefix: string)
    requires prefix != ""
    ensures StartsWith(raw, prefix) ==> raw != "" && raw[0] == prefix[0]
  {
    if StartsWith(raw, prefix) {
      assert raw[0] == raw[..|prefix|][0];
    }
  }

  lemma TwoMore(raw: string, text: string, c: char)
    requires raw != "" && text == raw[1..]
    ensures StartsWith(raw, [c, c, c]) <==> raw[0] == c && StartsWith(text, [c, c])
  {
    if |raw| >= 3 {
      assert raw[..3] == [raw[0]] + text[..2];
    }
  }

  lemma {:induction false} KeptLength(lines: seq<string>, inHunk: bool)
    ensures |Kept(lines, inHunk)| <= |lines|
  {
    hide HunkHeader, IsMeta;
    if lines != [] {
      KeptLength(lines[1..], inHunk);
      KeptLength(lines[1..], true);
    }
  }

  lemma {:induction false} KeptBody(body: seq<Op>, rest: seq<string>)
    requires forall i | 0 <= i < |body| :: body[i].kind != Hunk
    ensures (forall i | 0 <= i < |body| :: !LooksLikeHeader(body[i]))
      ==> Kept(RawBody(body) + rest, true) == RawBody(body) + Kept(rest, true)
    ensures !(forall i | 0 <= i < |body| :: !LooksLikeHeader(body[i]))
      ==> |Kept(RawBody(body) + rest, true)| < |body| + |rest|
    decreases |body|
  {
    hide HunkHeader, IsMeta, LooksLikeHeader, RawOf;
    var raws := RawBody(body);
    KeptLength(rest, true);
    if body == [] {
      assert raws + rest == rest;
    } else {
      NotAHeader(body[0]);
      KeptBody(body[1..], rest);
      assert RawBody(body[1..]) == raws[1..];
      assert (raws + rest)[1..] == raws[1..] + rest;
      KeptLength(raws[1..] + rest, true);
    }
  }

  lemma {:induction false} KeptParts(parts: seq<Part>, inHunk: bool)
    requires WellFormed(parts)
    ensures NoLookalike(parts) ==> Kept(Raws(parts), inHunk) == Raws(parts)
    ensures !NoLookalike(parts) ==> |Kept(Raws(parts), inHunk)| < |Raws(parts)|
  {
    hide HunkHeader, IsMeta, LooksLikeHeader, RawBody, NoLookalike;
    NoPartsNoLookalike();
    if parts != [] {
      var part, rest := parts[0], Raws(parts[1..]);
      KeptParts(parts[1..], true);
      KeptBody(part.body, rest);
      KeptLength(rest, true);
      RawsBehind(parts);
      FirstPart(parts);
    }
  }

  lemma Regrouped<T>(x: T, b: seq<T>, c: seq<T>)
    ensures [x] + b + c == [x] + (b + c) && ([x] + b + c)[1..] == b + c
  {
  }

  lemma RawsFirst(parts: seq<Part>)
    requires parts != []
    ensures Raws(parts) == [parts[0].header] + RawBody(parts[0].body) + Raws(parts[1..])
  {
    hide RawBody;
  }

  lemma RawsBehind(parts: seq<Part>)
    requires parts != []
    ensures Raws(parts) == [parts[0].header] + (RawBody(parts[0].body) + Raws(parts[1..]))
    ensures Raws(parts)[1..] == RawBody(parts[0].body) + Raws(parts[1..])
  {
    hide RawBody, Raws;
    RawsFirst(parts);
    Regrouped(parts[0].header, RawBody(parts[0].body), Raws(parts[1..]));
  }

  lemma NoPartsNoLookalike()
    ensures NoLookalike([])
  {
  }

  lemma FirstPart(parts: seq<Part>)
    requires parts != []
    ensures NoLookalike(parts) <==>
      (forall i | 0 <= i < |parts[0].body| :: !LooksLikeHeader(parts[0].body[i])) && NoLookalike(parts[1..])
  {
    hide LooksLikeHeader;
    if NoLookalike(parts) {
      assert forall k | 0 <= k < |parts[1..]| :: parts[1..][k] == parts[k + 1];
    } else {
      var k, i :| 0 <= k < |parts| && 0 <= i < |parts[k].body| && LooksLikeHeader(parts[k].body[i]);
      if k > 0 {
        assert parts[1..][k - 1] == parts[k];
      }
    }
  }

  // ---- the true lines are what the parser promises for the lines as written ----

  lemma {:induction false} BodyNumbered(lines: seq<HunkLine>, body: seq<Op>, oldLine: nat, newLine: nat)
    requires lines != [] && Numbered(lines) && Counters(lines, oldLine, newLine)
    requires forall i | 0 <= i < |body| :: body[i].kind != Hunk
    ensures Numbered(lines + TrueBody(body, oldLine, newLine))
    decreases |body|
  {
    hide Numbered, Counters;
    if body == [] {
      assert lines + [] == lines;
    } else {
      var line := TrueLine(body[0], oldLine, newLine);
      PushLine(lines, line, oldLine, newLine);
      BodyNumbered(lines + [line], body[1..], oldLine + OldStep(body[0]), newLine + NewStep(body[0]));
      assert lines + [line] + TrueBody(body[1..], oldLine + OldStep(body[0]), newLine + NewStep(body[0]))
          == lines + TrueBody(body, oldLine, newLine);
    }
  }

  lemma {:induction false} TruthNumbered(lines: seq<HunkLine>, parts: seq<Part>)
    requires Numbered(lines) && WellFormed(parts)
    ensures Numbered(lines + Truth(parts))
    decreases |parts|
  {
    hide Numbered, Counters, HunkHeader, TrueBody;
    if parts == [] {
      assert lines + [] == lines;
    } else {
      var head, body := HunkLine(Hunk, parts[0].header, None, None),
        TrueBody(parts[0].body, Starting(parts[0]).oldLine, Starting(parts[0]).newLine);
      PushHunk(lines, parts[0].header);
      BodyNumbered(lines + [head], parts[0].body, Starting(parts[0]).oldLine, Starting(parts[0]).newLine);
      TruthNumbered(lines + [head] + body, parts[1..]);
      Regroup(lines, [head], body, Truth(parts[1..]));
    }
  }

  lemma Regroup<T>(a: seq<T>, b: seq<T>, c: seq<T>, d: seq<T>)
    ensures a + b + c + d == a + (b + c + d)
  {
  }

  predicate AllShow(lines: seq<HunkLine>, raws: seq<string>) {
    |lines| == |raws| && forall i | 0 <= i < |lines| :: Shows(lines[i], raws[i])
  }

  lemma ShowConcat(a: seq<HunkLine>, b: seq<HunkLine>, ra: seq<string>, rb: seq<string>)
    requires AllShow(a, ra) && AllShow(b, rb)
    ensures AllShow(a + b, ra + rb)
  {
    hide Shows;
  }

  lemma BodyFirst(body: seq<Op>, oldLine: nat, newLine: nat)
    requires body != []
    ensures var op := body[0];
      && TrueBody(body, oldLine, newLine)
         == [TrueLine(op, oldLine, newLine)] + TrueBody(body[1..], oldLine + OldStep(op), newLine + NewStep(op))
      && RawBody(body) == [RawOf(op)] + RawBody(body[1..])
  {
    hide TrueLine, OldStep, NewStep, RawOf;
  }

  lemma OneShows(line: HunkLine, raw: string)
    requires Shows(line, raw)
    ensures AllShow([line], [raw])
  {
    hide Shows;
  }

  lemma NothingShows(oldLine: nat, newLine: nat)
    ensures AllShow(TrueBody([], oldLine, newLine), RawBody([]))
  {
  }

  lemma {:induction false} BodyShows(body: seq<Op>, oldLine: nat, newLine: nat)
    requires forall i | 0 <= i < |body| :: body[i].kind != Hunk
    ensures AllShow(TrueBody(body, oldLine, newLine), RawBody(body))
    decreases |body|
  {
    hide Shows, TrueLine, RawOf, OldStep, NewStep, TrueBody, RawBody, AllShow;
    if body == [] {
      NothingShows(oldLine, newLine);
    } else {
      var op := body[0];
      TrueLineShows(op, oldLine, newLine);
      OneShows(TrueLine(op, oldLine, newLine), RawOf(op));
      BodyShows(body[1..], oldLine + OldStep(op), newLine + NewStep(op));
      BodyFirst(body, oldLine, newLine);
      ShowConcat([TrueLine(op, oldLine, newLine)], TrueBody(body[1..], oldLine + OldStep(op), newLine + NewStep(op)),
                 [RawOf(op)], RawBody(body[1..]));
    }
  }

  lemma TrueLineShows(op: Op, oldLine: nat, newLine: nat)
    requires op.kind != Hunk
    ensures Shows(TrueLine(op, oldLine, newLine), RawOf(op))
  {
    hide HunkHeader;
    NotAHeader(op);
    assert RawOf(op)[..1] == [RawOf(op)[0]];
  }

  lemma {:induction false} TruthShows(parts: seq<Part>)
    requires WellFormed(parts)
    ensures AllShow(Truth(parts), Raws(parts))
  {
    hide HunkHeader, TrueBody, RawBody;
    if parts != [] {
      var part := parts[0];
      var head, body := [HunkLine(Hunk, part.header, None, None)],
        TrueBody(part.body, Starting(part).oldLine, Starting(part).newLine);
      BodyShows(part.body, Starting(part).oldLine, Starting(part).newLine);
      TruthShows(parts[1..]);
      assert AllShow(head, [part.header]);
      ShowConcat(head, body, [part.header], RawBody(part.body));
      ShowConcat(head + body, Truth(parts[1..]), [part.header] + RawBody(part.body), Raws(parts[1..]));
    }
  }

  // ---- and the parser can promise nothing else ----

  lemma ShowsOne(a: HunkLine, b: HunkLine, raw: string)
    requires Shows(a, raw) && Shows(b, raw)
    ensures a.kind == b.kind && a.text == b.text
  {
    hide HunkHeader;
    assert a.kind == Add ==> raw[..1] == "+" && a.text == raw[1..];
    assert b.kind == Add ==> raw[..1] == "+" && b.text == raw[1..];
    assert a.kind == Del ==> raw[..1] == "-" && a.text == raw[1..];
    assert b.kind == Del ==> raw[..1] == "-" && b.text == raw[1..];
    assert a.kind == Ctx && StartsWith(raw, " ") ==> a.text == raw[1..];
    assert b.kind == Ctx && StartsWith(raw, " ") ==> b.text == raw[1..];
  }

  predicate SameShapes(a: seq<HunkLine>, b: seq<HunkLine>) {
    |a| == |b| && forall k | 0 <= k < |a| :: a[k].kind == b[k].kind && a[k].text == b[k].text
  }

  lemma {:induction false} SameHunks(a: seq<HunkLine>, b: seq<HunkLine>, i: nat)
    requires SameShapes(a, b) && i < |a|
    ensures HunkOf(a, i) == HunkOf(b, i)
  {
    if a[i].kind != Hunk && i > 0 {
      SameHunks(a, b, i - 1);
    }
  }

  lemma {:induction false} SameCounts(a: seq<HunkLine>, b: seq<HunkLine>, from: nat, upTo: nat)
    requires SameShapes(a, b) && from <= upTo <= |a|
    ensures OldLines(a, from, upTo) == OldLines(b, from, upTo) && NewLines(a, from, upTo) == NewLines(b, from, upTo)
    decreases upTo
  {
    if from < upTo {
      SameCounts(a, b, from, upTo - 1);
    }
  }

  /** The contract of the parser leaves one result. */
  lemma ParsedOnce(raws: seq<string>, a: seq<HunkLine>, b: seq<HunkLine>)
    requires Parsed(raws, a) && Parsed(raws, b)
    ensures a == b
  {
    hide Shows, HunkHeader, HunkOf, OldLines, NewLines;
    forall k | 0 <= k < |a|
      ensures a[k].kind == b[k].kind && a[k].text == b[k].text
    {
      ShowsOne(a[k], b[k], raws[k]);
    }
    forall i | 0 <= i < |a|
      ensures a[i] == b[i]
    {
      SameHunks(a, b, i);
      assert NumberedAt(a, i) && NumberedAt(b, i);
      SameCounts(a, b, HunkOf(a, i).value, i);
    }
  }

  lemma TruthParsed(parts: seq<Part>)
    requires WellFormed(parts)
    ensures Parsed(Raws(parts), Truth(parts))
  {
    hide HunkHeader, Shows, Truth, NumberedAt;
    TruthShows(parts);
    assert Numbered([]);
    TruthNumbered([], parts);
    assert [] + Truth(parts) == Truth(parts);
  }

  // ---- a patch as git writes it ----

  /** The lines less the remarks on a missing line break at the end of a file. */
  function Unmarked(lines: seq<string>): seq<string> {
    if lines == [] then []
    else if StartsWith(lines[0], "\\") then Unmarked(lines[1..])
    else [lines[0]] + Unmarked(lines[1..])
  }

  /** File headers up to the first hunk, and then the hunks, with remarks anywhere among their lines. */
  predicate Reads(read: seq<string>, front: seq<string>, lines: seq<string>, parts: seq<Part>) {
    && read == front + lines && !AnyHeader(front)
    && Unmarked(lines) == Raws(parts) && WellFormed(parts)
  }

  lemma MarkIsMeta(raw: string)
    requires StartsWith(raw, "\\")
    ensures HunkHeader(raw).None? && IsMeta(raw)
  {
    FirstChar(raw, "\\");
    FirstChar(raw, "@@ -");
  }

  lemma {:induction false} KeptUnmarked(lines: seq<string>, inHunk: bool)
    ensures Kept(lines, inHunk) == Kept(Unmarked(lines), inHunk)
  {
    hide HunkHeader, IsMeta, StartsWith;
    if lines != [] {
      KeptUnmarked(lines[1..], inHunk);
      KeptUnmarked(lines[1..], true);
      if StartsWith(lines[0], "\\") {
        MarkIsMeta(lines[0]);
      } else {
        assert Unmarked(lines)[1..] == Unmarked(lines[1..]);
      }
    }
  }

  lemma {:induction false} KeptBehind(front: seq<string>, lines: seq<string>)
    requires !AnyHeader(front)
    ensures Kept(front + lines, false) == Kept(lines, false)
  {
    hide HunkHeader, IsMeta;
    if front == [] {
      assert front + lines == lines;
    } else {
      assert (front + lines)[1..] == front[1..] + lines;
      assert forall k | 0 <= k < |front[1..]| :: front[1..][k] == front[k + 1];
      KeptBehind(front[1..], lines);
    }
  }

  lemma KeptOfPatch(read: seq<string>, front: seq<string>, lines: seq<string>, parts: seq<Part>)
    requires Reads(read, front, lines, parts)
    ensures Kept(read, false) == Kept(Raws(parts), false)
  {
    hide Kept, Raws, AnyHeader, WellFormed;
    KeptBehind(front, lines);
    KeptUnmarked(lines, false);
  }

  /** The parser's lines are the true ones exactly if no removed or added line reads like a file header. */
  lemma ParsedIsTruthIff(patch: string, front: seq<string>, lines: seq<string>, parts: seq<Part>, out: seq<HunkLine>)
    requires Reads(PatchLines(patch), front, lines, parts) && Parsed(Kept(PatchLines(patch), false), out)
    ensures out == Truth(parts) <==> NoLookalike(parts)
  {
    hide Truth, Numbered, Shows, NoLookalike, Kept, Raws, PatchLines, AnyHeader, Unmarked;
    KeptOfPatch(PatchLines(patch), front, lines, parts);
    KeptParts(parts, false);
    TruthParsed(parts);
    if NoLookalike(parts) {
      ParsedOnce(Raws(parts), out, Truth(parts));
    }
  }

  /** Then every number is a place in the file. */
  lemma NumbersArePlaces(patch: string, front: seq<string>, lines: seq<string>, parts: seq<Part>, out: seq<HunkLine>,
                         oldFile: seq<string>, newFile: seq<string>)
    requires Reads(PatchLines(patch), front, lines, parts) && NoLookalike(parts) && Between(parts, oldFile, newFile)
    requires Parsed(Kept(PatchLines(patch), false), out)
    ensures forall i | 0 <= i < |out| :: InPlace(out[i], oldFile, newFile)
  {
    hide Truth, Between, InPlace, PatchLines, Kept, Numbered, NoLookalike, AnyHeader, Unmarked;
    ParsedIsTruthIff(patch, front, lines, parts, out);
    TruthInPlace(parts, oldFile, newFile);
  }

  lemma ParsedPrefix(raws: seq<string>, raw: string, out: seq<HunkLine>)
    requires Parsed(raws + [raw], out)
    ensures out != [] && Parsed(raws, out[..|raws|]) && Shows(out[|raws|], raw)
  {
    hide Shows, HunkHeader, HunkOf, OldLines, NewLines;
    var n := |raws|;
    var front, last := out[..n], out[n];
    assert out == front + [last];
    forall i | 0 <= i < n
      ensures NumberedAt(front, i) && Shows(front[i], raws[i])
    {
      assert NumberedAt(out, i) && Shows(out[i], (raws + [raw])[i]);
      PrefixHunk(front, last, i);
      PrefixCounts(front, last, HunkOf(front, i).value, i);
    }
    assert Shows(out[n], (raws + [raw])[n]);
  }

  /** A patch that ends in a line break is followed by one blank context line that is in no file. */
  lemma TrailingBreakAddsLine(patch: string, front: seq<string>, lines: seq<string>, parts: seq<Part>,
                              out: seq<HunkLine>)
    requires patch != "" && patch[|patch| - 1] == '\n' && parts != []
    requires Reads(PatchLines(patch)[..|PatchLines(patch)| - 1], front, lines, parts) && NoLookalike(parts)
    requires Parsed(Kept(PatchLines(patch), false), out)
    ensures |out| == |Truth(parts)| + 1 && out[..|Truth(parts)|] == Truth(parts)
    ensures out[|Truth(parts)|].kind == Ctx && out[|Truth(parts)|].text == ""
  {
    hide Truth, Parsed, Kept, NoLookalike, PatchLines, Reads;
    var all := PatchLines(patch);
    LastBlankIff(patch);
    var read := all[..|all| - 1];
    assert all == read + [""];
    ReadIsWellFormed(read, front, lines, parts);
    KeptOfPatch(read, front, lines, parts);
    KeptParts(parts, false);
    HeaderRead(read, front, lines, parts);
    BlankIsKept();
    KeptPush(read, "", false);
    BlankShown(parts, out);
  }

  lemma BlankIsKept()
    ensures HunkHeader("").None? && !IsMeta("")
  {
  }

  lemma ReadIsWellFormed(read: seq<string>, front: seq<string>, lines: seq<string>, parts: seq<Part>)
    requires Reads(read, front, lines, parts)
    ensures WellFormed(parts)
  {
  }

  lemma BlankShown(parts: seq<Part>, out: seq<HunkLine>)
    requires WellFormed(parts) && Parsed(Raws(parts) + [""], out)
    ensures |out| == |Truth(parts)| + 1 && out[..|Truth(parts)|] == Truth(parts)
    ensures out[|Truth(parts)|].kind == Ctx && out[|Truth(parts)|].text == ""
  {
    hide Truth, Numbered, Raws, WellFormed;
    ParsedPrefix(Raws(parts), "", out);
    TruthParsed(parts);
    ParsedOnce(Raws(parts), out[..|Raws(parts)|], Truth(parts));
  }

  lemma HeaderRead(read: seq<string>, front: seq<string>, lines: seq<string>, parts: seq<Part>)
    requires Reads(read, front, lines, parts) && parts != []
    ensures AnyHeader(read)
  {
    hide HunkHeader, StartsWith;
    assert Raws(parts)[0] == parts[0].header;
    var k := FirstUnmarked(lines);
    assert read[|front| + k] == lines[k];
  }

  lemma {:induction false} FirstUnmarked(lines: seq<string>) returns (k: nat)
    requires Unmarked(lines) != []
    ensures k < |lines| && lines[k] == Unmarked(lines)[0]
  {
    hide StartsWith;
    if StartsWith(lines[0], "\\") {
      k := FirstUnmarked(lines[1..]);
      k := k + 1;
    } else {
      k := 0;
    }
  }

  /** Removing "-- x" hides the line and numbers the next one a line too early. */
  lemma SkippedRemovalShiftsNumbers(patch: string, header: string, out: seq<HunkLine>)
    requires HunkHeader(header).Some? && PatchLines(patch) == [header, "--- x", " y"]
    requires Parsed(Kept(PatchLines(patch), false), out)
    ensures var parts := [Part(header, [Op(Del, "-- x"), Op(Ctx, "y")])];
      && Raws(parts) == [header, "--- x", " y"]
      && |out| == 2 && out[1].text == "y" && out[1].oldLine == Some(Starting(parts[0]).oldLine)
      && Truth(parts)[2].text == "y" && Truth(parts)[2].oldLine == Some(Starting(parts[0]).oldLine + 1)
  {
    hide HunkHeader, Shows, Numbered, PatchLines;
    var removed, shown := Op(Del, "-- x"), Op(Ctx, "y");
    var parts := [Part(header, [removed, shown])];
    assert parts[1..] == [];
    assert RawOf(removed) == "--- x" && RawOf(shown) == " y";
    NotAHeader(removed);
    NotAHeader(shown);
    assert removed.text[..2] == "--";
    var lines := [header, "--- x", " y"];
    assert lines[1..] == ["--- x", " y"] && lines[1..][1..] == [" y"] && lines[1..][1..][1..] == [];
    assert Kept([" y"], true) == [" y"] + Kept([], true);
    assert Kept(lines, false) == [header, " y"];
    var short := [Part(header, [shown])];
    assert short[1..] == [] && Raws(short) == [header, " y"];
    TruthParsed(short);
    ParsedOnce([header, " y"], out, Truth(short));
    assert [removed, shown][1..] == [shown] && [shown][1..] == [];
  }
}
