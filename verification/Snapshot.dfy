/** From an event log to a transcript, and the guarantees of the whole pipeline. */
module Snapshot {
  import opened Prelude
  import opened Events
  import opened Reducer
  import opened TranscriptInvariants
  import opened TranscriptSafety
  import opened TranscriptIds
  import opened Paging
  import opened Rewind
  import opened EventOrder

  function Processed(es: seq<RunEvent>): seq<RunEvent> {
    SortRunEvents(FoldRewoundEvents(es))
  }

  /** The state `buildTranscriptSnapshot` ends in. */
  function Compile(es: seq<RunEvent>): (r: TranscriptView)
    ensures OpenOk(r)
  {
    Run(EMPTY, Processed(es))
  }

  // ---- conservation ----

  lemma {:induction false} AllDeltaInkConcat(a: seq<RunEvent>, b: seq<RunEvent>)
    ensures AllDeltaInk(a + b) == AllDeltaInk(a) + AllDeltaInk(b)
  {
    if a == [] {
      assert a + b == b;
    } else {
      assert (a + b)[1..] == a[1..] + b;
      AllDeltaInkConcat(a[1..], b);
    }
  }

  lemma {:induction false} AllDeltaInkShuffled(a: seq<RunEvent>, b: seq<RunEvent>)
    requires multiset(a) == multiset(b)
    ensures AllDeltaInk(a) == AllDeltaInk(b)
  {
    assert |a| == |multiset(a)| == |multiset(b)| == |b|;
    if a != [] {
      assert a[0] in multiset(b);
      var k :| 0 <= k < |b| && b[k] == a[0];
      var front, rest := b[..k], b[k + 1..];
      assert b == front + ([b[k]] + rest);
      AllDeltaInkConcat(front, [b[k]] + rest);
      AllDeltaInkConcat([b[k]], rest);
      AllDeltaInkConcat(front, rest);
      SameRest(a, [b[k]] + (front + rest));
      assert ([b[k]] + (front + rest))[1..] == front + rest;
      AllDeltaInkShuffled(a[1..], front + rest);
    }
  }

  /** Every compiled transcript is well shaped, and its replies hold exactly the characters of the
      deltas that survive the rewinds, whitespace aside. */
  lemma CompileConserves(es: seq<RunEvent>)
    ensures Inv(Compile(es))
    ensures TallyAll(Compile(es).messages).ink == AllDeltaInk(FoldRewoundEvents(es))
    ensures TallyAll(Compile(es).messages).tools == ToolsOpened(EMPTY, Processed(es))
  {
    EmptyInv();
    RunGains(EMPTY, Processed(es));
    SortRearranges(FoldRewoundEvents(es));
    AllDeltaInkShuffled(Processed(es), FoldRewoundEvents(es));
  }

  /** Between two reply bubbles the user always spoke, and no follow-up is shown twice. */
  lemma OneBubblePerTurn(es: seq<RunEvent>)
    ensures UserBetweenBubbles(Roles(Compile(es).messages))
    ensures forall f | f in TallyAll(Compile(es).messages).followUps :: TallyAll(Compile(es).messages).followUps[f] == 1
  {
    CompileConserves(es);
    OneBubbleMeaning(Roles(Compile(es).messages));
  }

  // ---- arrival order ----

  lemma ArrivalOrderIndependence(es: seq<RunEvent>, shuffled: seq<RunEvent>)
    requires NoRewind(es) && OneProcess(es) && multiset(shuffled) == multiset(es)
    ensures Compile(shuffled) == Compile(es)
  {
    OneProcessIsFullyOrdered(es);
    ArrivalOrderIrrelevant(es, shuffled);
    forall k | 0 <= k < |shuffled|
      ensures !shuffled[k].kind.TurnRewind?
    {
      assert shuffled[k] in multiset(es);
    }
    FoldIsRemembered(es);
    NothingForgotten(es);
    FoldIsRemembered(shuffled);
    NothingForgotten(shuffled);
  }

  // ---- paging ----

  lemma {:induction false} RememberedIds(es: seq<RunEvent>)
    requires DistinctEventIds(es)
    ensures DistinctEventIds(Remembered(es))
    ensures forall e | e in Remembered(es) :: e in es
  {
    if es != [] {
      assert DistinctEventIds(es[1..]);
      RememberedIds(es[1..]);
      var rest := Remembered(es[1..]);
      forall k | 0 <= k < |rest|
        ensures rest[k].id != es[0].id
      {
        assert rest[k] in es[1..];
      }
    }
  }

  lemma ShuffledIds(a: seq<RunEvent>, b: seq<RunEvent>)
    requires DistinctEventIds(a) && multiset(a) == multiset(b)
    ensures DistinctEventIds(b)
  {
    OnceEach(a);
    NoneTwice(b);
    forall i, j | 0 <= i < j < |b|
      ensures b[i].id != b[j].id
    {
      assert b[i] in multiset(a) && b[j] in multiset(a) && b[i] != b[j];
    }
  }

  lemma ProcessedIds(es: seq<RunEvent>)
    requires DistinctEventIds(es)
    ensures DistinctEventIds(Processed(es))
    ensures forall e | e in Processed(es) :: e in es
  {
    FoldIsRemembered(es);
    RememberedIds(es);
    SortRearranges(FoldRewoundEvents(es));
    ShuffledIds(FoldRewoundEvents(es), Processed(es));
    ProcessedSubset(es);
  }

  /** Distinct event ids give distinct message ids, so scrolling up shows the whole transcript once. */
  lemma ScrollShowsEverythingOnce(es: seq<RunEvent>, limit: Option<Num>)
    requires DistinctEventIds(es)
    requires forall e | e in es :: e.id != "" && Trim(e.id) == e.id
    ensures var ms := Compile(es).messages;
      CursorIds(ms) && DistinctIds(ms) && Joined(ScrollUp(ms, None, limit)) == ms
  {
    hide Trim, ScrollUp, Run, Processed;
    var ms := Compile(es).messages;
    ProcessedIds(es);
    ProcessedSubset(es);
    RunIds(EMPTY, Processed(es), {});
    forall k | 0 <= k < |ms|
      ensures ms[k].id != "" && Trim(ms[k].id) == ms[k].id
    {
      assert ms[k].id in EventIds(Processed(es));
      var i :| 0 <= i < |Processed(es)| && Processed(es)[i].id == ms[k].id;
      assert Processed(es)[i] in es;
    }
    PagesCoverTranscript(ms, limit);
  }

  // ---- tool records keep an id of their own ----

  lemma {:induction false} RememberedSubset(es: seq<RunEvent>)
    ensures forall e | e in Remembered(es) :: e in es
  {
    if es != [] {
      RememberedSubset(es[1..]);
    }
  }

  lemma ProcessedSubset(es: seq<RunEvent>)
    ensures forall e | e in Processed(es) :: e in es
  {
    FoldIsRemembered(es);
    RememberedSubset(es);
    SortRearranges(FoldRewoundEvents(es));
    forall e | e in Processed(es)
      ensures e in es
    {
      assert e in multiset(Processed(es));
      assert e in FoldRewoundEvents(es);
    }
  }

  lemma ToolIdsAreDistinct(es: seq<RunEvent>)
    requires forall e | e in es :: e.id != ""
    ensures forall m | m in Compile(es).messages :: ToolsNamed(m) && DistinctToolIds(m.tools)
  {
    CompileConserves(es);
    ProcessedSubset(es);
    RunNamed(EMPTY, Processed(es));
    var ms := Compile(es).messages;
    forall m | m in ms
      ensures ToolsNamed(m) && DistinctToolIds(m.tools)
    {
      var k :| 0 <= k < |ms| && ms[k] == m;
      assert Shape(ms[k]) && ToolsNamed(ms[k]);
    }
  }
}
