/**
 Server-sent events: the split-based reader of the command line client
 (packages/cli/src/sse.ts) and the indexOf-based reader of the desk inbox
 (packages/desk/src/inbox.ts). Both end a frame at a blank line, LF only
 (section 9.2.6 of the WHATWG HTML Standard).
 */
module Sse {
  import opened Prelude
  import opened Framing
  import Paging

  const SEPARATOR := "\n\n"

  function CutFrame(buffer: string): Cut<string> {
    match IndexOf(buffer, SEPARATOR)
    case Some(i) => Take(i + 2, buffer[..i])
    case None => Wait
  }

  lemma CutFrameIsFramer()
    ensures Framer(CutFrame)
  {
    forall buffer: string, more: string | CutFrame(buffer).Take?
      ensures CutFrame(buffer + more) == CutFrame(buffer)
    {
      IndexIsStable(buffer, SEPARATOR, more);
      assert (buffer + more)[..IndexOf(buffer, SEPARATOR).value] == buffer[..IndexOf(buffer, SEPARATOR).value];
    }
  }

  /** The raw frames in a buffer and the unfinished rest. */
  function RawFrames(buffer: string): (seq<string>, string) {
    CutFrameIsFramer();
    Frames(CutFrame, buffer)
  }

  /** Splitting at blank lines and popping the last part is what the cursor loop does. */
  lemma {:induction false} SplitIsFrames(buffer: string)
    ensures Split(buffer, SEPARATOR) == RawFrames(buffer).0 + [RawFrames(buffer).1]
    decreases |buffer|
  {
    CutFrameIsFramer();
    match IndexOf(buffer, SEPARATOR) {
      case None =>
      case Some(i) =>
        SplitIsFrames(buffer[i + 2..]);
        var (frames, rest) := RawFrames(buffer[i + 2..]);
        assert [buffer[..i]] + (frames + [rest]) == [buffer[..i]] + frames + [rest];
    }
  }

  // ---- the fields of one frame ----

  datatype SseFrame = SseFrame(id: Option<string>, data: Option<string>)

  /** The last line with this prefix, without it. */
  function LastField(lines: seq<string>, prefix: string): Option<string> {
    if lines == [] then None
    else
      var n := |lines| - 1;
      if StartsWith(lines[n], prefix) then Some(lines[n][|prefix|..]) else LastField(lines[..n], prefix)
  }

  /** The event a raw frame carries: comments and frames without data carry none. */
  function ParseFrame(part: string): Option<SseFrame> {
    var trimmed := Paging.Trim(part);
    if trimmed == "" || StartsWith(trimmed, ":") then None
    else
      var lines := Split(part, "\n");
      var id := LastField(lines, "id:");
      var data := LastField(lines, "data:");
      var frame := SseFrame(if id.Some? then Some(Paging.Trim(id.value)) else None,
                            if data.Some? then Some(Paging.TrimStart(data.value)) else None);
      if frame.data.Some? && frame.data.value != "" then Some(frame) else None
  }

  function ParseFrames(parts: seq<string>): seq<SseFrame> {
    if parts == [] then []
    else
      var n := |parts| - 1;
      var frame := ParseFrame(parts[n]);
      ParseFrames(parts[..n]) + if frame.Some? then [frame.value] else []
  }

  method ReadFields(part: string) returns (frame: SseFrame)
    ensures var id, data := LastField(Split(part, "\n"), "id:"), LastField(Split(part, "\n"), "data:");
      frame == SseFrame(if id.Some? then Some(Paging.Trim(id.value)) else None,
                        if data.Some? then Some(Paging.TrimStart(data.value)) else None)
  {
    var lines := Split(part, "\n");
    frame := SseFrame(None, None);
    for k := 0 to |lines|
      invariant var id, data := LastField(lines[..k], "id:"), LastField(lines[..k], "data:");
        frame == SseFrame(if id.Some? then Some(Paging.Trim(id.value)) else None,
                          if data.Some? then Some(Paging.TrimStart(data.value)) else None)
    {
      assert lines[..k + 1][..k] == lines[..k];
      var line := lines[k];
      if StartsWith(line, "id:") {
        assert line[0] == 'i' && !StartsWith(line, "data:");
        frame := frame.(id := Some(Paging.Trim(line[3..])));
      } else if StartsWith(line, "data:") {
        frame := frame.(data := Some(Paging.TrimStart(line[5..])));
      }
    }
    assert lines[..|lines|] == lines;
  }

  method ParseSseChunk(buffer: string) returns (frames: seq<SseFrame>, rest: string)
    ensures frames == ParseFrames(RawFrames(buffer).0)
    ensures rest == RawFrames(buffer).1
  {
    var parts := Split(buffer, SEPARATOR);
    SplitIsFrames(buffer);
    rest := parts[|parts| - 1];
    parts := parts[..|parts| - 1];
    frames := [];
    for k := 0 to |parts|
      invariant frames == ParseFrames(parts[..k])
    {
      assert parts[..k + 1][..k] == parts[..k];
      var trimmed := Paging.Trim(parts[k]);
      if trimmed == "" || StartsWith(trimmed, ":") {
        continue;
      }
      var frame := ReadFields(parts[k]);
      if frame.data.Some? && frame.data.value != "" {
        frames := frames + [frame];
      }
    }
    assert parts[..|parts|] == parts;
  }

  // ---- what a frame carries ----

  /** The last of the lines that starts so, and what stands behind it; `at` is its place. */
  predicate LastLine(lines: seq<string>, prefix: string, at: nat, value: string) {
    && at < |lines| && lines[at] == prefix + value
    && forall k | at < k < |lines| :: !(prefix <= lines[k])
  }

  predicate NoLine(lines: seq<string>, prefix: string) {
    forall k | 0 <= k < |lines| :: !(prefix <= lines[k])
  }

  lemma StartsIff(line: string, prefix: string)
    ensures StartsWith(line, prefix) <==> prefix <= line
    ensures StartsWith(line, prefix) ==> line == prefix + line[|prefix|..]
  {
  }

  lemma {:induction false} LastFieldIs(lines: seq<string>, prefix: string)
    ensures LastField(lines, prefix).None? ==> NoLine(lines, prefix)
    ensures LastField(lines, prefix).Some? ==> exists at: nat :: LastLine(lines, prefix, at, LastField(lines, prefix).value)
  {
    hide StartsWith;
    if lines != [] {
      var n := |lines| - 1;
      StartsIff(lines[n], prefix);
      if prefix <= lines[n] {
        assert LastField(lines, prefix) == Some(lines[n][|prefix|..]);
        assert LastLine(lines, prefix, n, lines[n][|prefix|..]);
      } else {
        var front := lines[..n];
        assert LastField(lines, prefix) == LastField(front, prefix);
        LastFieldIs(front, prefix);
        assert forall k | 0 <= k < n :: front[k] == lines[k];
        if LastField(front, prefix).Some? {
          var at: nat :| LastLine(front, prefix, at, LastField(front, prefix).value);
          assert LastLine(lines, prefix, at, LastField(lines, prefix).value);
        } else {
          assert forall k | 0 <= k < n :: !(prefix <= front[k]);
        }
      }
    }
  }

  /** `t` is the text without the white space in front. */
  predicate StartTrimmedTo(text: string, t: string) {
    && |t| <= |text| && t == text[|text| - |t|..] && (t != "" ==> !IsSpace(t[0]))
    && forall k | 0 <= k < |text| - |t| :: IsSpace(text[k])
  }

  /** The trimmed value of a field that a line of the frame gives; absent if none does. */
  ghost predicate FieldIs(lines: seq<string>, prefix: string, value: Option<string>, trimmed: (string, string) -> bool) {
    match value
    case None => NoLine(lines, prefix)
    case Some(v) => exists at: nat, raw :: LastLine(lines, prefix, at, raw) && trimmed(raw, v)
  }

  ghost predicate Around(text: string, t: string) {
    exists front: nat :: Paging.TrimmedTo(text, t, front)
  }

  /** A frame that carries no event: blank, a comment, or without data. */
  ghost predicate CarriesNone(part: string, lines: seq<string>) {
    || (forall k | 0 <= k < |part| :: IsSpace(part[k]))
    || (exists k :: 0 <= k < |part| && part[k] == ':' && forall j | 0 <= j < k :: IsSpace(part[j]))
    || NoLine(lines, "data:")
    || (exists at: nat, raw :: LastLine(lines, "data:", at, raw) && forall k | 0 <= k < |raw| :: IsSpace(raw[k]))
  }

  lemma TrimIsAround(text: string)
    ensures Around(text, Paging.Trim(text))
  {
    var front := Paging.TrimsSomewhere(text);
  }

  lemma TrimStartIsBehind(text: string)
    ensures StartTrimmedTo(text, Paging.TrimStart(text))
  {
    var front := Paging.TrimStartLeaves(text);
  }

  /** What a frame carries: the last id and the last data among its lines, if there is data. */
  lemma FrameCarries(part: string)
    ensures var lines := Split(part, "\n");
      match ParseFrame(part)
      case None => CarriesNone(part, lines)
      case Some(frame) =>
        && !CarriesNone(part, lines) && frame.data.Some?
        && FieldIs(lines, "id:", frame.id, Around) && FieldIs(lines, "data:", frame.data, StartTrimmedTo)
  {
    hide LastField, Paging.Trim, Paging.TrimStart, Split;
    var lines := Split(part, "\n");
    LastFieldIs(lines, "id:");
    LastFieldIs(lines, "data:");
    TrimIsAround(part);
    var id, data := LastField(lines, "id:"), LastField(lines, "data:");
    if id.Some? {
      TrimIsAround(id.value);
    }
    if data.Some? {
      TrimStartIsBehind(data.value);
    }
    CommentIff(part);
    OneLastLine(lines, "data:");
  }

  lemma OneLastLine(lines: seq<string>, prefix: string)
    ensures forall a: nat, b: nat, v, w | LastLine(lines, prefix, a, v) && LastLine(lines, prefix, b, w) :: v == w
    ensures forall a: nat, v | LastLine(lines, prefix, a, v) :: !NoLine(lines, prefix)
  {
    forall a: nat, v | LastLine(lines, prefix, a, v)
      ensures prefix <= lines[a] && v == lines[a][|prefix|..]
    {
      assert (prefix + v)[|prefix|..] == v;
    }
    forall a: nat, b: nat, v, w | LastLine(lines, prefix, a, v) && LastLine(lines, prefix, b, w)
      ensures a == b
    {
    }
  }

  lemma CommentIff(part: string)
    ensures var trimmed := Paging.Trim(part);
      && (trimmed == "" <==> forall k | 0 <= k < |part| :: IsSpace(part[k]))
      && (StartsWith(trimmed, ":") <==> exists k :: 0 <= k < |part| && part[k] == ':' && forall j | 0 <= j < k :: IsSpace(part[j]))
  {
    hide Paging.Trim;
    TrimIsAround(part);
    var trimmed := Paging.Trim(part);
    var front: nat :| Paging.TrimmedTo(part, trimmed, front);
    if trimmed != "" {
      assert part[front] == trimmed[0];
      assert trimmed[..1] == [trimmed[0]];
    }
  }

  /** The payloads are those of the lines that start with `data:`, one each, in order. */
  lemma {:induction false} DataLinesAre(lines: seq<string>) returns (from: seq<nat>)
    ensures |from| == |DataLines(lines)|
    ensures forall k | 0 <= k < |from| ::
      from[k] < |lines| && "data:" <= lines[from[k]] && Around(lines[from[k]][5..], DataLines(lines)[k])
    ensures forall j, k | 0 <= j < k < |from| :: from[j] < from[k]
    ensures forall i: nat | i < |lines| && "data:" <= lines[i] :: i in from
  {
    hide DataFrom, DataLines;
    from := DataLinesFrom(lines);
    DataFromMeans(lines, DataLines(lines), from);
  }

  ghost predicate DataFrom(lines: seq<string>, payloads: seq<string>, from: seq<nat>) {
    && |from| == |payloads|
    && (forall k | 0 <= k < |from| ::
          from[k] < |lines| && "data:" <= lines[from[k]] && Around(lines[from[k]][5..], payloads[k]))
    && (forall j, k | 0 <= j < k < |from| :: from[j] < from[k])
    && (forall i: nat | i < |lines| && "data:" <= lines[i] :: i in from)
  }

  lemma DataFromMeans(lines: seq<string>, payloads: seq<string>, from: seq<nat>)
    requires DataFrom(lines, payloads, from)
    ensures |from| == |payloads|
    ensures forall k | 0 <= k < |from| ::
      from[k] < |lines| && "data:" <= lines[from[k]] && Around(lines[from[k]][5..], payloads[k])
    ensures forall j, k | 0 <= j < k < |from| :: from[j] < from[k]
    ensures forall i: nat | i < |lines| && "data:" <= lines[i] :: i in from
  {
    hide Around;
  }

  lemma DataPush(front: seq<string>, line: string, payloads: seq<string>, from: seq<nat>)
    requires DataFrom(front, payloads, from)
    ensures !("data:" <= line) ==> DataFrom(front + [line], payloads, from)
    ensures "data:" <= line ==> DataFrom(front + [line], payloads + [Paging.Trim(line[5..])], from + [|front|])
  {
    hide Paging.Trim, Around;
    var lines, all := front + [line], from + [|front|];
    assert forall i | 0 <= i < |front| :: lines[i] == front[i];
    assert all[|from|] == |front|;
    if "data:" <= line {
      TrimIsAround(line[5..]);
    }
    forall i: nat | i < |front| && "data:" <= lines[i]
      ensures i in from && i in all
    {
      assert "data:" <= front[i];
    }
  }

  lemma {:induction false} DataLinesFrom(lines: seq<string>) returns (from: seq<nat>)
    ensures DataFrom(lines, DataLines(lines), from)
  {
    hide Paging.Trim, StartsWith;
    if lines == [] {
      from := [];
    } else {
      hide DataFrom;
      var n := |lines| - 1;
      var front := DataLinesFrom(lines[..n]);
      StartsIff(lines[n], "data:");
      DataPush(lines[..n], lines[n], DataLines(lines[..n]), front);
      assert lines[..n] + [lines[n]] == lines;
      assert DataLines(lines[..n]) + [] == DataLines(lines[..n]);
      from := if "data:" <= lines[n] then front + [n] else front;
    }
  }

  // ---- the two readers ----

  /** The command line client's reader. */
  class SplitReader {
    var buffer: string

    constructor ()
      ensures buffer == ""
    {
      buffer := "";
    }

    method OnData(chunk: string) returns (frames: seq<SseFrame>)
      modifies this
      ensures buffer == RawFrames(old(buffer) + chunk).1
      ensures frames == ParseFrames(RawFrames(old(buffer) + chunk).0)
    {
      buffer := buffer + chunk;
      frames, buffer := ParseSseChunk(buffer);
    }

    /** The read loop over a whole stream: as if it had come in one piece. */
    method ReadAll(chunks: seq<string>) returns (frames: seq<SseFrame>)
      requires IndexOf(buffer, SEPARATOR).None?
      modifies this
      ensures buffer == RawFrames(old(buffer) + Joined(chunks)).1
      ensures frames == ParseFrames(RawFrames(old(buffer) + Joined(chunks)).0)
    {
      hide RawFrames, Joined, ParseFrames, IndexOf;
      ghost var start := buffer;
      frames := [];
      NoChunks(start);
      for k := 0 to |chunks|
        invariant buffer == RawFrames(start + Joined(chunks[..k])).1
        invariant frames == ParseFrames(RawFrames(start + Joined(chunks[..k])).0)
      {
        ghost var before := RawFrames(start + Joined(chunks[..k])).0;
        OneMoreChunk(start, chunks, k);
        ParseFramesConcat(before, RawFrames(buffer + chunks[k]).0);
        var more := OnData(chunks[k]);
        frames := frames + more;
      }
      assert chunks[..|chunks|] == chunks;
    }
  }

  lemma NoChunks(start: string)
    requires IndexOf(start, SEPARATOR).None?
    ensures RawFrames(start + Joined([])) == ([], start) && ParseFrames([]) == [] && Payloads([]) == []
  {
    assert start + Joined([]) == start;
    NothingLeft(start);
  }

  lemma OneMoreChunk(start: string, chunks: seq<string>, k: nat)
    requires k < |chunks|
    ensures var (first, kept) := RawFrames(start + Joined(chunks[..k]));
      var (later, rest) := RawFrames(kept + chunks[k]);
      RawFrames(start + Joined(chunks[..k + 1])) == (first + later, rest)
  {
    hide Joined, CutFrame, Frames;
    JoinedPush(chunks[..k], chunks[k]);
    assert chunks[..k + 1] == chunks[..k] + [chunks[k]];
    var sofar, chunk := start + Joined(chunks[..k]), chunks[k];
    assert start + Joined(chunks[..k + 1]) == sofar + chunk;
    CutFrameIsFramer();
    CutAsYouGo(CutFrame, sofar, chunk);
  }

  lemma {:induction false} ParseFramesConcat(a: seq<string>, b: seq<string>)
    ensures ParseFrames(a + b) == ParseFrames(a) + ParseFrames(b)
  {
    hide ParseFrame;
    if b == [] {
      assert a + b == a;
    } else {
      var n := |b| - 1;
      ParseFramesConcat(a, b[..n]);
      assert (a + b)[..|a| + n] == a + b[..n];
    }
  }

  lemma {:induction false} PayloadsConcat(a: seq<string>, b: seq<string>)
    ensures Payloads(a + b) == Payloads(a) + Payloads(b)
  {
    hide DataLines, Split;
    if b == [] {
      assert a + b == a;
    } else {
      var n := |b| - 1;
      PayloadsConcat(a, b[..n]);
      assert (a + b)[..|a| + n] == a + b[..n];
    }
  }

  /** The payloads of one frame's `data:` lines. */
  function DataLines(lines: seq<string>): seq<string> {
    if lines == [] then []
    else
      var n := |lines| - 1;
      DataLines(lines[..n]) + if StartsWith(lines[n], "data:") then [Paging.Trim(lines[n][5..])] else []
  }

  function Payloads(frames: seq<string>): seq<string> {
    if frames == [] then []
    else Payloads(frames[..|frames| - 1]) + DataLines(Split(frames[|frames| - 1], "\n"))
  }

  lemma PayloadsPush(frames: seq<string>, frame: string)
    ensures Payloads(frames + [frame]) == Payloads(frames) + DataLines(Split(frame, "\n"))
  {
    assert (frames + [frame])[..|frames|] == frames;
  }

  lemma NothingLeft(buffer: string)
    requires IndexOf(buffer, SEPARATOR).None?
    ensures RawFrames(buffer) == ([], buffer)
  {
    CutFrameIsFramer();
  }

  /** One turn of the cursor loop. */
  lemma NextFrame(done: seq<string>, buffer: string)
    requires IndexOf(buffer, SEPARATOR).Some?
    ensures var i := IndexOf(buffer, SEPARATOR).value;
      var (frames, rest) := RawFrames(buffer[i + 2..]);
      RawFrames(buffer).1 == rest && done + RawFrames(buffer).0 == done + [buffer[..i]] + frames
  {
    CutFrameIsFramer();
  }

  /** The desk inbox's reader; `events` are the payloads handed to `onEvent`. */
  class InboxReader {
    var buffer: string
    var events: seq<string>

    constructor ()
      ensures buffer == "" && events == []
    {
      buffer, events := "", [];
    }

    method Deliver(frame: string)
      modifies this`events
      ensures events == old(events) + DataLines(Split(frame, "\n"))
    {
      var lines := Split(frame, "\n");
      for k := 0 to |lines|
        invariant events == old(events) + DataLines(lines[..k])
      {
        assert lines[..k + 1][..k] == lines[..k];
        if !StartsWith(lines[k], "data:") {
          continue;
        }
        events := events + [Paging.Trim(lines[k][5..])];
      }
      assert lines[..|lines|] == lines;
    }

    method OnData(chunk: string)
      modifies this
      ensures buffer == RawFrames(old(buffer) + chunk).1
      ensures events == old(events) + Payloads(RawFrames(old(buffer) + chunk).0)
    {
      hide DataLines, Split, Payloads, IndexFrom;
      buffer := buffer + chunk;
      ghost var (all, last) := RawFrames(buffer);
      ghost var done: seq<string> := [];
      PayloadsOfNone();
      var split := IndexOf(buffer, SEPARATOR);
      while split.Some?
        invariant split == IndexOf(buffer, SEPARATOR)
        invariant all == done + RawFrames(buffer).0 && last == RawFrames(buffer).1
        invariant events == old(events) + Payloads(done)
        decreases |buffer|
      {
        var frame := buffer[..split.value];
        NextFrame(done, buffer);
        PayloadsPush(done, frame);
        buffer := buffer[split.value + 2..];
        Deliver(frame);
        done := done + [frame];
        split := IndexOf(buffer, SEPARATOR);
      }
      NothingLeft(buffer);
      assert done + [] == done;
    }

    /** The read loop over a whole stream: as if it had come in one piece. */
    method ReadAll(chunks: seq<string>)
      requires IndexOf(buffer, SEPARATOR).None?
      modifies this
      ensures buffer == RawFrames(old(buffer) + Joined(chunks)).1
      ensures events == old(events) + Payloads(RawFrames(old(buffer) + Joined(chunks)).0)
    {
      hide RawFrames, Joined, Payloads, IndexOf;
      ghost var start := buffer;
      NoChunks(start);
      for k := 0 to |chunks|
        invariant buffer == RawFrames(start + Joined(chunks[..k])).1
        invariant events == old(events) + Payloads(RawFrames(start + Joined(chunks[..k])).0)
      {
        ghost var before := RawFrames(start + Joined(chunks[..k])).0;
        OneMoreChunk(start, chunks, k);
        PayloadsConcat(before, RawFrames(buffer + chunks[k]).0);
        OnData(chunks[k]);
      }
      assert chunks[..|chunks|] == chunks;
    }
  }

  lemma PayloadsOfNone()
    ensures Payloads([]) == []
  {
  }

  /** Either reader, fed any way, cuts the frames of the whole stream and keeps the same rest. */
  lemma SseChunkingIrrelevant(chunks: seq<string>)
    ensures (CutFrameIsFramer(); Feed(CutFrame, "", chunks)) == RawFrames(Joined(chunks))
  {
    CutFrameIsFramer();
    assert CutFrame("").Wait?;
    ChunkingIrrelevant(CutFrame, "", chunks);
    assert "" + Joined(chunks) == Joined(chunks);
  }
}
