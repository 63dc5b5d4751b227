/**
 Cutting frames off a growing buffer. A reader keeps what it could not cut yet
 and tries again when more arrives. One law covers every framer of the program:
 how the stream was split into chunks never shows in the frames.
 */
module Framing {
  import opened Prelude

  /** What a reader can take off the front of its buffer. */
  datatype Cut<+F> = Wait | Take(size: nat, frame: F)

  /** A cut makes progress, stays inside the buffer, and is not changed by bytes that arrive later. */
  ghost predicate Framer<T(!new), F(!new)>(cut: seq<T> -> Cut<F>) {
    && (forall buffer :: cut(buffer).Take? ==> 0 < cut(buffer).size <= |buffer|)
    && (forall buffer, more :: cut(buffer).Take? ==> cut(buffer + more) == cut(buffer))
  }

  /** The frames a reader takes off its buffer, and what it keeps. */
  function Frames<T(!new), F(!new)>(cut: seq<T> -> Cut<F>, buffer: seq<T>): (r: (seq<F>, seq<T>))
    requires Framer(cut)
    ensures cut(r.1).Wait?
    decreases |buffer|
  {
    match cut(buffer)
    case Wait => ([], buffer)
    case Take(size, frame) =>
      var (frames, rest) := Frames(cut, buffer[size..]);
      ([frame] + frames, rest)
  }

  /** A reader fed chunk by chunk. */
  function Feed<T(!new), F(!new)>(cut: seq<T> -> Cut<F>, buffer: seq<T>, chunks: seq<seq<T>>): (seq<F>, seq<T>)
    requires Framer(cut)
    decreases |chunks|
  {
    if chunks == [] then ([], buffer)
    else
      var (first, kept) := Frames(cut, buffer + chunks[0]);
      var (later, rest) := Feed(cut, kept, chunks[1..]);
      (first + later, rest)
  }

  function Joined<T>(chunks: seq<seq<T>>): seq<T> {
    if chunks == [] then [] else chunks[0] + Joined(chunks[1..])
  }

  lemma {:induction false} JoinedPush<T>(chunks: seq<seq<T>>, chunk: seq<T>)
    ensures Joined(chunks + [chunk]) == Joined(chunks) + chunk
  {
    if chunks == [] {
      assert [chunk][1..] == [];
    } else {
      JoinedPush(chunks[1..], chunk);
      assert (chunks + [chunk])[1..] == chunks[1..] + [chunk];
    }
  }

  /** Cutting what has arrived so far does not change what is cut later. */
  lemma {:induction false} CutAsYouGo<T(!new), F(!new)>(cut: seq<T> -> Cut<F>, buffer: seq<T>, more: seq<T>)
    requires Framer(cut)
    ensures var (first, kept) := Frames(cut, buffer);
      var (later, rest) := Frames(cut, kept + more);
      Frames(cut, buffer + more) == (first + later, rest)
    decreases |buffer|
  {
    match cut(buffer) {
      case Wait =>
        assert [] + Frames(cut, buffer + more).0 == Frames(cut, buffer + more).0;
      case Take(size, frame) =>
        assert (buffer + more)[size..] == buffer[size..] + more;
        CutAsYouGo(cut, buffer[size..], more);
        var (first, kept) := Frames(cut, buffer[size..]);
        var (later, rest) := Frames(cut, kept + more);
        assert [frame] + first + later == [frame] + (first + later);
    }
  }

  lemma NothingToCut<T(!new), F(!new)>(cut: seq<T> -> Cut<F>, buffer: seq<T>)
    requires Framer(cut) && cut(buffer).Wait?
    ensures Frames(cut, buffer) == ([], buffer)
  {
  }

  /** Any chunking of a stream delivers the frames of the whole stream and keeps the same remainder. */
  lemma {:induction false} ChunkingIrrelevant<T(!new), F(!new)>(cut: seq<T> -> Cut<F>, buffer: seq<T>, chunks: seq<seq<T>>)
    requires Framer(cut) && cut(buffer).Wait?
    ensures Feed(cut, buffer, chunks) == Frames(cut, buffer + Joined(chunks))
    decreases |chunks|
  {
    hide Framer, Frames;
    if chunks == [] {
      assert buffer + Joined(chunks) == buffer;
      NothingToCut(cut, buffer);
    } else {
      var (first, kept) := Frames(cut, buffer + chunks[0]);
      ChunkingIrrelevant(cut, kept, chunks[1..]);
      CutAsYouGo(cut, buffer + chunks[0], Joined(chunks[1..]));
      assert buffer + Joined(chunks) == buffer + chunks[0] + Joined(chunks[1..]);
    }
  }

  // ---- searching for a separator ----

  predicate OccursAt<T(==)>(text: seq<T>, pattern: seq<T>, at: nat) {
    at + |pattern| <= |text| && text[at..at + |pattern|] == pattern
  }

  /** `text.indexOf(pattern)` from position `from` on. */
  function IndexFrom<T(==)>(text: seq<T>, pattern: seq<T>, from: nat): (r: Option<nat>)
    ensures r.Some? ==> from <= r.value && OccursAt(text, pattern, r.value)
    ensures r.Some? ==> forall k: nat | from <= k < r.value :: !OccursAt(text, pattern, k)
    ensures r.None? ==> forall k: nat | from <= k :: !OccursAt(text, pattern, k)
    decreases |text| - from
  {
    if from + |pattern| > |text| then None
    else if OccursAt(text, pattern, from) then Some(from)
    else IndexFrom(text, pattern, from + 1)
  }

  function IndexOf<T(==)>(text: seq<T>, pattern: seq<T>): (r: Option<nat>)
    ensures r.Some? ==> OccursAt(text, pattern, r.value)
    ensures r.Some? ==> forall k: nat | k < r.value :: !OccursAt(text, pattern, k)
    ensures r.None? ==> forall k: nat :: !OccursAt(text, pattern, k)
  {
    IndexFrom(text, pattern, 0)
  }

  /** The first separator stays where it is when more text arrives. */
  lemma IndexIsStable<T>(text: seq<T>, pattern: seq<T>, more: seq<T>)
    requires IndexOf(text, pattern).Some?
    ensures IndexOf(text + more, pattern) == IndexOf(text, pattern)
  {
    var i := IndexOf(text, pattern).value;
    forall k: nat | k <= i
      ensures OccursAt(text + more, pattern, k) == OccursAt(text, pattern, k)
    {
      assert (text + more)[k..k + |pattern|] == text[k..k + |pattern|];
    }
    assert OccursAt(text + more, pattern, i);
    var j := IndexOf(text + more, pattern);
    assert j.Some?;
    assert j.value <= i;
  }

  predicate StartsWith(text: string, prefix: string) {
    |prefix| <= |text| && text[..|prefix|] == prefix
  }

  /** `text.split(separator)` */
  function Split(text: string, separator: string): (parts: seq<string>)
    requires separator != ""
    ensures parts != []
    decreases |text|
  {
    match IndexOf(text, separator)
    case None => [text]
    case Some(i) => [text[..i]] + Split(text[i + |separator|..], separator)
  }

  function Join(parts: seq<string>, separator: string): string
    requires parts != []
  {
    if |parts| == 1 then parts[0] else parts[0] + separator + Join(parts[1..], separator)
  }

  /** What stands in front of the first separator holds none. */
  lemma CleanFront<T>(text: seq<T>, pattern: seq<T>)
    requires IndexOf(text, pattern).Some?
    ensures var i := IndexOf(text, pattern).value;
      && text == text[..i] + pattern + text[i + |pattern|..]
      && forall at: nat :: pattern != [] ==> !OccursAt(text[..i], pattern, at)
  {
    var i := IndexOf(text, pattern).value;
    assert text[i..i + |pattern|] == pattern;
    forall at: nat
      ensures pattern != [] ==> !OccursAt(text[..i], pattern, at)
    {
      if at + |pattern| <= i && pattern != [] {
        assert text[..i][at..at + |pattern|] == text[at..at + |pattern|];
        assert !OccursAt(text, pattern, at);
      }
    }
  }

  /** Splitting loses nothing, and no part holds the separator. */
  lemma {:induction false} SplitJoins(text: string, separator: string)
    requires separator != ""
    ensures Join(Split(text, separator), separator) == text
    ensures forall k, at: nat | 0 <= k < |Split(text, separator)| :: !OccursAt(Split(text, separator)[k], separator, at)
    decreases |text|
  {
    hide IndexOf;
    match IndexOf(text, separator) {
      case None =>
      case Some(i) =>
        var rest := text[i + |separator|..];
        CleanFront(text, separator);
        SplitJoins(rest, separator);
        assert ([text[..i]] + Split(rest, separator))[1..] == Split(rest, separator);
    }
  }
}
