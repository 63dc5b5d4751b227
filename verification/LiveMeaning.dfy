/**
 What a client shows of a batch of live events: it coalesces the batch, then folds and sorts the coalesced list onto
 its page (applyLiveEvents and applyRunEventsToMessages in packages/contracts/src).
 */
module LiveMeaning {
  import opened Prelude
  import opened Events
  import opened Framing
  import opened Reducer
  import opened TranscriptIds
  import opened ClientStream
  import opened CoalesceMeaning
  import opened Rewind
  import opened EventOrder
  import opened Snapshot
  import opened LiveRows
  import opened LiveOrder
  import Resume

  // ---- running rows ----

  lemma AlikeTransitive(s: TranscriptView, t: TranscriptView, u: TranscriptView)
    requires AlikeStates(s, t) && AlikeStates(t, u)
    ensures AlikeStates(s, u)
  {
    forall k | 0 <= k < |s.messages|
      ensures Alike(s.messages[k], u.messages[k])
    {
      assert Alike(s.messages[k], t.messages[k]) && Alike(t.messages[k], u.messages[k]);
    }
  }

  lemma {:induction false} RowIsItsList(row: Row)
    requires GoodRow(row)
    ensures CoalesceAll([], row) == [Merged(row)]
  {
    hide Merged;
    if |row| == 1 {
      MergedOne(row[0]);
      assert row == [row[0]] && row[1..] == [];
      assert Coalesce([], row[0]) == [row[0]];
    } else {
      var n := |row| - 1;
      RowIsItsList(row[..n]);
      assert row == row[..n] + [row[n]];
      MergedPush(row[..n], row[n]);
      CoalesceAllConcat([], row[..n], [row[n]]);
      OneMoreDelta(Merged(row[..n]), row[n]);
    }
  }

  lemma OneMoreDelta(first: RunEvent, second: RunEvent)
    requires first.kind.MessageDelta? && second.kind.MessageDelta?
    ensures CoalesceAll([first], [second]) == [MergeDelta(first, second)]
  {
    assert Coalesce([first], second) == [MergeDelta(first, second)];
    assert CoalesceAll([MergeDelta(first, second)], [second][1..]) == [MergeDelta(first, second)];
  }

  /** One row runs like the events it stands for. */
  lemma RowAlike(s: TranscriptView, row: Row)
    requires OpenOk(s) && GoodRow(row)
    ensures AlikeStates(Apply(s, Merged(row)), Run(s, row))
    ensures DeltasHaveBubble(s, row) ==> Apply(s, Merged(row)) == Run(s, row)
  {
    hide Merged, Apply, Run, AlikeStates, DeltasHaveBubble;
    RowIsItsList(row);
    CoalescingPreserves(s, [], row);
    RunOne(s, Merged(row));
    assert [] + row == row;
    if DeltasHaveBubble(s, row) {
      CoalescingIsExact(s, [], row);
    }
  }

  lemma {:induction false} RowsAlike(s: TranscriptView, rows: seq<Row>)
    requires OpenOk(s) && GoodRows(rows)
    ensures AlikeStates(Run(s, MergeEach(rows)), Run(s, Joined(rows)))
    ensures DeltasHaveBubble(s, Joined(rows)) ==> Run(s, MergeEach(rows)) == Run(s, Joined(rows))
    decreases |rows|
  {
    hide Merged, Apply, AlikeStates, DeltasHaveBubble, Run;
    if rows == [] {
      NothingRun(s);
      assert MergeEach(rows) == [];
    } else {
      var first, rest := rows[0], rows[1..];
      var t := Apply(s, Merged(first));
      assert MergeEach(rows) == [Merged(first)] + MergeEach(rest);
      RowAlike(s, first);
      RowsAlike(t, rest);
      RunConcat(s, [Merged(first)], MergeEach(rest));
      RunOne(s, Merged(first));
      RunConcat(s, first, Joined(rest));
      RunAlike(t, Run(s, first), Joined(rest));
      AlikeTransitive(Run(t, MergeEach(rest)), Run(t, Joined(rest)), Run(Run(s, first), Joined(rest)));
      DeltasConcat(s, first, Joined(rest));
    }
  }

  lemma NothingRun(s: TranscriptView)
    requires OpenOk(s)
    ensures Run(s, []) == s && AlikeStates(s, s)
  {
  }

  // ---- the list a client works in ----

  function Kept(es: seq<RunEvent>): (r: seq<Row>)
    ensures GoodRows(r)
  {
    KeptRows(Rows(es))
  }

  /** The events behind the list a client works in, in the order it works them in. */
  function Behind(es: seq<RunEvent>): seq<RunEvent> {
    Joined(SortedRows(Kept(es)))
  }

  lemma WorkedIn(es: seq<RunEvent>)
    ensures MergeEach(SortedRows(Kept(es))) == Processed(CoalesceAll([], es))
    ensures MergeEach(Kept(es)) == FoldRewoundEvents(CoalesceAll([], es))
  {
    hide SortedRows, KeptRows, Rows, Merged, SortRunEvents, FoldRewoundEvents, Remembered;
    RowsOfStream(es);
    KeptRowsAreRemembered(Rows(es));
    FoldIsRemembered(CoalesceAll([], es));
    SortedRowsMerge(Kept(es));
  }

  lemma UntagMembers(items: seq<Item>, e: RunEvent)
    ensures e in Untag(items) <==> exists k :: 0 <= k < |items| && items[k].event == e
  {
  }

  lemma SortedRowsMembers(rows: seq<Row>, e: RunEvent)
    requires GoodRows(rows)
    ensures e in Joined(SortedRows(rows)) <==> e in Joined(rows)
  {
    hide Expand, SortItems, Merged, Joined;
    var sorted, raw := SortedItems(rows), Tag(Joined(rows), 0);
    SortedPoints(rows);
    var expanded := Expand(rows, sorted);
    UntagExpand(rows, sorted);
    assert seq(|sorted|, k requires 0 <= k < |sorted| => rows[sorted[k].index]) == SortedRows(rows);
    InMultiset(expanded, raw);
    InMultiset(raw, expanded);
    assert Untag(raw) == Joined(rows);
    UntagMembers(expanded, e);
    UntagMembers(raw, e);
  }

  /** The worked-in list stands for other events than the stream leaves unless every row is whole. */
  lemma SameEventsBehind(es: seq<RunEvent>)
    requires EachOnce(es) && Behind(es) == Processed(es)
    ensures WholeRows(Rows(es))
  {
    hide Rows, KeptRows, SortedRows, Remembered, EachOnce, SortRunEvents, Joined, FoldRewoundEvents;
    RowsOfStream(es);
    FoldIsRemembered(es);
    SortRearranges(Remembered(es));
    forall e
      ensures Agree(Rows(es), e)
    {
      SortedRowsMembers(Kept(es), e);
      assert e in multiset(SortRunEvents(Remembered(es))) <==> e in multiset(Remembered(es));
    }
    SameEventsWhole(Rows(es));
  }

  /** A comparator that is consistent on what the fold leaves, both of the events and of their rows. */
  ghost predicate Consistent(es: seq<RunEvent>) {
    && Transitive(Tag(FoldRewoundEvents(es), 0))
    && Transitive(Tag(FoldRewoundEvents(CoalesceAll([], es)), 0))
  }

  /** No rewind takes back part of a row, and the comparator parts none. */
  predicate RowsHold(es: seq<RunEvent>) {
    WholeRows(Rows(es)) && RowsInOrder(Kept(es))
  }

  /** The coalesced list is worked in as the stream would be, event for event, exactly if its rows hold. */
  lemma ListStandsForStream(es: seq<RunEvent>)
    requires EachOnce(es) && Consistent(es)
    ensures Behind(es) == Processed(es) <==> RowsHold(es)
  {
    hide Rows, KeptRows, SortedRows, Remembered, SortRunEvents, Joined, FoldRewoundEvents, WholeRows, RowsInOrder, Transitive;
    RowsOfStream(es);
    WorkedIn(es);
    FoldIsRemembered(es);
    if Behind(es) == Processed(es) {
      SameEventsBehind(es);
    }
    if WholeRows(Rows(es)) {
      WholeRowsFold(Rows(es));
      RememberedOnce(es);
      OrderOfRowsIff(Kept(es));
    }
  }

  lemma {:induction false} RememberedOnce(es: seq<RunEvent>)
    requires EachOnce(es)
    ensures EachOnce(Remembered(es))
  {
    hide ForgottenBy;
    if es != [] {
      EachOnceSplit([es[0]], es[1..]);
      assert [es[0]] + es[1..] == es;
      RememberedOnce(es[1..]);
      if es[0] in Remembered(es[1..]) {
        RememberedArrived(es[1..], es[0]);
      }
      assert es[0] !in es[1..];
      PushOnce(es[0], Remembered(es[1..]));
    }
  }

  lemma PushOnce(e: RunEvent, es: seq<RunEvent>)
    requires EachOnce(es) && e !in es
    ensures EachOnce([e] + es)
  {
  }

  lemma FreshOnce(es: seq<RunEvent>)
    requires FreshIds({}, es)
    ensures EachOnce(es) && LiveEvents([], es) == CoalesceAll([], es)
  {
    assert EventIds([]) == {};
    AllUnseen({}, es);
  }

  /** Then it shows what the stream shows: on any page the same roles, texts, blocks and tools, and the same ids and
      creation times too when no bubble is first created by a delta. */
  lemma LiveListShowsStream(s: TranscriptView, es: seq<RunEvent>)
    requires OpenOk(s) && FreshIds({}, es) && Consistent(es) && RowsHold(es)
    ensures AlikeStates(Run(s, Processed(LiveEvents([], es))), Run(s, Processed(es)))
    ensures DeltasHaveBubble(s, Processed(es)) ==> Run(s, Processed(LiveEvents([], es))) == Run(s, Processed(es))
  {
    hide Rows, KeptRows, SortedRows, Processed, Joined, RowsHold, Consistent, AlikeStates, DeltasHaveBubble, Run, EachOnce;
    FreshOnce(es);
    WorkedIn(es);
    ListStandsForStream(es);
    RowsAlike(s, SortedRows(Kept(es)));
  }

  /** So a client may coalesce a batch before it works it into its page. */
  lemma LiveBatchOnPage(ms: seq<MessageView>, es: seq<RunEvent>)
    requires FreshIds({}, es) && Consistent(es) && RowsHold(es)
    ensures AlikeLists(Resume.ApplyRunEventsToMessages(ms, LiveEvents([], es)), Resume.ApplyRunEventsToMessages(ms, es))
  {
    hide Processed, RowsHold, Consistent, Run;
    FreshOnce(es);
    LiveListShowsStream(Resume.StateFromMessages(ms), es);
    if es != [] {
      NotEmptied(es);
    } else {
      assert LiveEvents([], es) == [];
    }
  }

  lemma {:induction false} NotEmptied(es: seq<RunEvent>)
    requires es != []
    ensures CoalesceAll([], es) != []
  {
    hide Merged;
    RowsOfStream(es);
    assert Rows(es) == [] ==> Joined(Rows(es)) == [];
  }

  // ---- a stream that arrives as it was emitted ----

  /** A row that carries the number and the epoch of its last event. */
  predicate Stamped(row: Row)
    requires row != []
  {
    var last := row[|row| - 1];
    Merged(row).data.workerSeq == last.data.workerSeq && Merged(row).Epoch() == last.Epoch()
  }

  lemma StampsDecide(a: Item, b: Item, c: Item, d: Item)
    requires a.event.data.workerSeq == c.event.data.workerSeq && a.event.Epoch() == c.event.Epoch()
    requires b.event.data.workerSeq == d.event.data.workerSeq && b.event.Epoch() == d.event.Epoch()
    requires a.event.createdAt == c.event.createdAt && b.event.createdAt == d.event.createdAt
    requires a.index < b.index && c.index < d.index
    ensures Before(a, b) <==> Before(c, d)
    ensures Before(b, a) <==> Before(d, c)
  {
  }

  lemma ArrangedIsTransitive(es: seq<RunEvent>)
    requires Arranged(Tag(es, 0))
    ensures Transitive(Tag(es, 0))
  {
    var items := Tag(es, 0);
    forall a, b, c | a in items && b in items && c in items && Before(a, b) && Before(b, c)
      ensures Before(a, c)
    {
      assert items[a.index] == a && items[b.index] == b && items[c.index] == c;
      NotBoth(a, b);
      NotBoth(b, c);
      assert a.index < b.index && b.index < c.index;
    }
  }

  lemma {:induction false} OffsetsGrow(rows: seq<Row>, j: nat, k: nat)
    requires j < k <= |rows|
    ensures Offset(rows, j) + |rows[j]| <= Offset(rows, k)
    decreases k
  {
    OffsetStep(rows, k - 1);
    if j < k - 1 {
      OffsetsGrow(rows, j, k - 1);
    }
  }

  predicate StretchOf(row: seq<Item>, items: seq<Item>, at: nat) {
    at + |row| <= |items| && forall i | 0 <= i < |row| :: row[i] == items[at + i]
  }

  lemma TaggedStretch(front: seq<RunEvent>, row: seq<RunEvent>, rest: seq<RunEvent>)
    ensures StretchOf(Tag(row, |front|), Tag(front + (row + rest), 0), |front|)
  {
  }

  /** The items of a row are a stretch of the stream's. */
  lemma RowStretch(rows: seq<Row>, k: nat)
    requires k < |rows|
    ensures StretchOf(RowItems(rows, k), Tag(Joined(rows), 0), Offset(rows, k))
  {
    hide Joined, StretchOf, Tag;
    SplitAt(rows, k);
    JoinedAround(rows[..k], rows[k], rows[k + 1..]);
    TaggedStretch(Joined(rows[..k]), rows[k], Joined(rows[k + 1..]));
  }

  lemma SplitAt<T>(xs: seq<T>, k: nat)
    requires k < |xs|
    ensures xs == xs[..k] + [xs[k]] + xs[k + 1..]
  {
  }

  lemma JoinedAround(front: seq<Row>, row: Row, rest: seq<Row>)
    ensures Joined(front + [row] + rest) == Joined(front) + (row + Joined(rest))
  {
    hide Joined;
    JoinedConcat(front + [row], rest);
    JoinedPush(front, row);
  }

  lemma StretchArranged(row: seq<Item>, items: seq<Item>, at: nat)
    requires Arranged(items) && StretchOf(row, items, at)
    ensures Arranged(row)
  {
    hide Before;
    forall i, j | 0 <= i < j < |row|
      ensures Before(row[i], row[j])
    {
      assert Before(items[at + i], items[at + j]);
    }
  }

  lemma StretchesApart(xs: seq<Item>, ys: seq<Item>, items: seq<Item>, i: nat, j: nat)
    requires Arranged(items) && StretchOf(xs, items, i) && StretchOf(ys, items, j) && i + |xs| <= j
    ensures AllBefore(xs, ys)
  {
    hide Before;
    forall a, b | 0 <= a < |xs| && 0 <= b < |ys|
      ensures Before(xs[a], ys[b])
    {
      assert Before(items[i + a], items[j + b]);
    }
  }

  lemma RowsApart(rows: seq<Row>, items: seq<Item>, j: nat, k: nat)
    requires items == Tag(Joined(rows), 0) && Arranged(items) && j < k < |rows|
    ensures AllBefore(RowItems(rows, j), RowItems(rows, k))
  {
    hide AllBefore, Arranged, Joined, StretchOf, Tag;
    RowStretch(rows, j);
    RowStretch(rows, k);
    OffsetsGrow(rows, j, k);
    StretchesApart(RowItems(rows, j), RowItems(rows, k), items, Offset(rows, j), Offset(rows, k));
  }

  lemma RowArranged(rows: seq<Row>, items: seq<Item>, k: nat)
    requires items == Tag(Joined(rows), 0) && Arranged(items) && k < |rows|
    ensures Arranged(RowItems(rows, k))
  {
    hide Arranged, Joined, StretchOf, Tag;
    RowStretch(rows, k);
    StretchArranged(RowItems(rows, k), items, Offset(rows, k));
  }

  lemma RowsBefore(rows: seq<Row>, j: nat, k: nat)
    requires GoodRows(rows) && j < k < |rows| && Stamped(rows[j]) && Stamped(rows[k])
    requires AllBefore(RowItems(rows, j), RowItems(rows, k))
    ensures Before(Item(Merged(rows[j]), j), Item(Merged(rows[k]), k))
    ensures !Before(Item(Merged(rows[k]), k), Item(Merged(rows[j]), j))
  {
    hide Merged, Joined, Before;
    var a, b := RowItems(rows, j)[|rows[j]| - 1], RowItems(rows, k)[|rows[k]| - 1];
    OffsetsGrow(rows, j, k);
    assert Before(a, b);
    StampsDecide(Item(Merged(rows[j]), j), Item(Merged(rows[k]), k), a, b);
    NotBoth(a, b);
  }

  lemma RowsNotBefore(rows: seq<Row>, j: nat, k: nat)
    requires GoodRows(rows) && Arranged(Tag(Joined(rows), 0)) && j <= k < |rows|
    requires Stamped(rows[j]) && Stamped(rows[k])
    ensures !Before(Item(Merged(rows[k]), k), Item(Merged(rows[j]), j))
    ensures j < k ==> Before(Item(Merged(rows[j]), j), Item(Merged(rows[k]), k))
    ensures j < k ==> AllBefore(RowItems(rows, j), RowItems(rows, k))
  {
    hide Merged, Joined, Before, AllBefore, RowItems, Stamped, Arranged;
    if j < k {
      RowsApart(rows, Tag(Joined(rows), 0), j, k);
      RowsBefore(rows, j, k);
    } else {
      NotBoth(Item(Merged(rows[k]), k), Item(Merged(rows[k]), k));
    }
  }

  /** The list of a stream in emission order is in emission order itself, and its rows hold together. */
  lemma EmittedRows(rows: seq<Row>)
    requires GoodRows(rows) && Arranged(Tag(Joined(rows), 0))
    requires forall k | 0 <= k < |rows| :: Stamped(rows[k])
    ensures Arranged(Tag(MergeEach(rows), 0)) && RowsInOrder(rows)
  {
    EmittedRowsHold(rows);
    EmittedListArranged(rows);
  }

  lemma EmittedListArranged(rows: seq<Row>)
    requires GoodRows(rows) && Arranged(Tag(Joined(rows), 0))
    requires forall k | 0 <= k < |rows| :: Stamped(rows[k])
    ensures Arranged(Tag(MergeEach(rows), 0))
  {
    hide Merged, Joined, Before, AllBefore, RowItems, Stamped, RowsInOrder;
    var list := Tag(MergeEach(rows), 0);
    forall j, k | 0 <= j < k < |list|
      ensures Before(list[j], list[k])
    {
      RowsNotBefore(rows, j, k);
    }
  }

  lemma EmittedRowsHold(rows: seq<Row>)
    requires GoodRows(rows) && Arranged(Tag(Joined(rows), 0))
    requires forall k | 0 <= k < |rows| :: Stamped(rows[k])
    ensures RowsInOrder(rows)
  {
    hide Merged, Joined, Before, AllBefore, RowItems, Stamped, Arranged;
    forall k | 0 <= k < |rows|
      ensures Arranged(RowItems(rows, k))
    {
      RowArranged(rows, Tag(Joined(rows), 0), k);
    }
    forall j, k | 0 <= j < |rows| && 0 <= k < |rows| && Before(Item(Merged(rows[j]), j), Item(Merged(rows[k]), k))
      ensures AllBefore(RowItems(rows, j), RowItems(rows, k))
    {
      if j < k {
        RowsNotBefore(rows, j, k);
      } else {
        RowsNotBefore(rows, k, j);
      }
    }
  }

  /** A batch that arrives in emission order is shown right exactly where no rewind splits a row. */
  lemma EmittedListStands(es: seq<RunEvent>)
    requires EachOnce(es) && Arranged(Tag(FoldRewoundEvents(es), 0))
    requires forall k | 0 <= k < |Rows(es)| :: Stamped(Rows(es)[k])
    ensures Behind(es) == Processed(es) <==> WholeRows(Rows(es))
    ensures WholeRows(Rows(es)) ==> Consistent(es) && RowsHold(es)
  {
    hide Rows, SortedRows, Remembered, SortRunEvents, Joined, FoldRewoundEvents, WholeRows, RowsInOrder, Transitive, Merged;
    if Behind(es) == Processed(es) {
      SameEventsBehind(es);
    }
    if WholeRows(Rows(es)) {
      RowsOfStream(es);
      WorkedIn(es);
      FoldIsRemembered(es);
      WholeRowsFold(Rows(es));
      KeptAreRows(Rows(es));
      EmittedRows(Kept(es));
      ArrangedIsTransitive(FoldRewoundEvents(es));
      ArrangedIsTransitive(FoldRewoundEvents(CoalesceAll([], es)));
      ListStandsForStream(es);
    }
  }

  lemma {:induction false} KeptAreRows(rows: seq<Row>)
    requires GoodRows(rows)
    ensures forall k | 0 <= k < |KeptRows(rows)| :: KeptRows(rows)[k] in rows
  {
    hide ForgottenBy, Merged;
    if rows != [] {
      KeptAreRows(rows[1..]);
    }
  }

  // ---- where rows do not hold ----

  lemma OrderedStays(es: seq<RunEvent>)
    requires Arranged(Tag(es, 0))
    ensures SortRunEvents(es) == es
  {
    ArrangedIsTransitive(es);
    SortIsTheArrangement(es, Tag(es, 0));
    assert Untag(Tag(es, 0)) == es;
  }

  lemma OneStays(e: RunEvent)
    ensures SortRunEvents([e]) == [e]
  {
    OrderedStays([e]);
  }

  lemma NothingStays()
    ensures SortRunEvents([]) == []
  {
    OrderedStays([]);
  }

  /** What a rewind behind two events leaves of them. */
  lemma RememberedOfThree(a: RunEvent, b: RunEvent, rewind: RunEvent)
    requires !a.kind.TurnRewind? && !b.kind.TurnRewind? && rewind.kind.TurnRewind?
    ensures Remembered([a, b, rewind]) ==
      (if Forgets(rewind, a) then [] else [a]) + (if Forgets(rewind, b) then [] else [b])
  {
    RememberedConcat([a, b], [rewind]);
    assert [a, b] + [rewind] == [a, b, rewind];
    NothingForgotten([a, b]);
    assert Remembered([rewind]) == [];
    CutByConcat([a], [b], [rewind]);
    assert [a] + [b] == [a, b];
    CutOfOne(a, rewind);
    CutOfOne(b, rewind);
  }

  lemma CutOfOne(e: RunEvent, rewind: RunEvent)
    ensures CutBy([e], [rewind]) == if Forgets(rewind, e) then [] else [e]
  {
    assert [e][1..] == [];
    assert ForgottenBy([rewind], e) <==> Forgets([rewind][0], e);
  }

  lemma RememberedOfTwo(e: RunEvent, rewind: RunEvent)
    requires !e.kind.TurnRewind? && rewind.kind.TurnRewind?
    ensures Remembered([e, rewind]) == if Forgets(rewind, e) then [] else [e]
  {
    RememberedConcat([e], [rewind]);
    assert [e] + [rewind] == [e, rewind];
    NothingForgotten([e]);
    assert Remembered([rewind]) == [];
    CutOfOne(e, rewind);
  }

  lemma CoalesceThree(first: RunEvent, second: RunEvent, third: RunEvent)
    requires first.kind.MessageDelta? && second.kind.MessageDelta? && !third.kind.MessageDelta?
    ensures CoalesceAll([], [first, second, third]) == [MergeDelta(first, second), third]
  {
    var m := MergeDelta(first, second);
    assert [first, second, third] == [first, second] + [third];
    assert [first, second] == [first] + [second];
    CoalesceAllConcat([], [first, second], [third]);
    CoalesceAllConcat([], [first], [second]);
    assert Coalesce([], first) == [first] && CoalesceAll([first], [first][1..]) == [first];
    OneMoreDelta(first, second);
    assert Coalesce([m], third) == [m, third];
    assert CoalesceAll([m, third], [third][1..]) == [m, third];
  }

  lemma ShowsOne(e: RunEvent)
    requires e.kind.MessageDelta?
    ensures var ms := Run(EMPTY, [e]).messages; |ms| == 1 && ms[0].role.Assistant? && ms[0].text == e.Delta()
  {
    RunOne(EMPTY, e);
  }

  /** A rewind that takes back the second of two deltas takes back both once they are one row: the kept text is lost. */
  lemma RewindInsideRowLosesText(kept: RunEvent, taken: RunEvent, rewind: RunEvent)
    requires kept.kind.MessageDelta? && taken.kind.MessageDelta? && rewind.kind.TurnRewind?
    requires kept.id != "" && taken.id != "" && rewind.id != ""
    requires kept.id != taken.id && kept.id != rewind.id && taken.id != rewind.id
    requires Forgets(rewind, taken) && !Forgets(rewind, kept)
    ensures var es := [kept, taken, rewind];
      && Resume.ApplyRunEventsToMessages([], LiveEvents([], es)) == []
      && (var shown := Resume.ApplyRunEventsToMessages([], es); |shown| == 1 && shown[0].text == kept.Delta())
      && !RowsHold(es)
  {
    hide SortRunEvents, FoldRewoundEvents, Run, RowsHold, MergeDelta, Remembered, LiveEvents;
    var es, row := [kept, taken, rewind], MergeDelta(kept, taken);
    FreshOnce(es);
    CoalesceThree(kept, taken, rewind);
    TakenWhole(kept, taken, rewind);
    FoldIsRemembered(es);
    FoldIsRemembered([row, rewind]);
    RememberedOfThree(kept, taken, rewind);
    RememberedOfTwo(row, rewind);
    assert [kept] + [] == [kept];
    OneStays(kept);
    NothingStays();
    assert Resume.StateFromMessages([]) == EMPTY;
    ShowsOne(kept);
    NothingRun(EMPTY);
    SplitNotWhole(kept, taken, rewind);
  }

  lemma TakenWhole(kept: RunEvent, taken: RunEvent, rewind: RunEvent)
    requires Forgets(rewind, taken) && kept.kind.MessageDelta? && taken.kind.MessageDelta?
    ensures Forgets(rewind, MergeDelta(kept, taken)) && MergeDelta(kept, taken).kind.MessageDelta?
  {
  }

  lemma JoinedOne(row: Row)
    ensures Joined([row]) == row
  {
    assert [row][1..] == [];
  }

  lemma RowsOfThree(first: RunEvent, second: RunEvent, third: RunEvent)
    requires first.kind.MessageDelta? && second.kind.MessageDelta? && !third.kind.MessageDelta?
    ensures Rows([first, second, third]) == [[first, second], [third]]
    ensures Merged([first, second]) == MergeDelta(first, second)
  {
    hide MergeDelta;
    var es := [first, second, third];
    MergedOne(first);
    assert [first] + [second] == [first, second];
    MergedPush([first], second);
    assert AddToRows([], first) == [[first]];
    assert AddToRows([[first]], second) == [[first, second]];
    assert AddToRows([[first, second]], third) == [[first, second], [third]];
    assert es[1..] == [second, third] && es[1..][1..] == [third] && es[1..][1..][1..] == [];
    assert RowsOnto([[first, second], [third]], []) == [[first, second], [third]];
    assert RowsOnto([[first, second]], [third]) == [[first, second], [third]] by {
      assert [third][1..] == [];
    }
    assert RowsOnto([[first]], [second, third]) == [[first, second], [third]] by {
      assert [second, third][1..] == [third];
    }
  }

  lemma SplitNotWhole(kept: RunEvent, taken: RunEvent, rewind: RunEvent)
    requires kept.kind.MessageDelta? && taken.kind.MessageDelta? && rewind.kind.TurnRewind?
    requires Forgets(rewind, taken) && !Forgets(rewind, kept)
    ensures !RowsHold([kept, taken, rewind])
  {
    hide RowsInOrder, MergeDelta;
    RowsOfThree(kept, taken, rewind);
    var rows, later := [[kept, taken], [rewind]], [rewind];
    assert rows[1..] == [[rewind]];
    JoinedOne([rewind]);
    TakenWhole(kept, taken, rewind);
    assert Forgets(later[0], MergeDelta(kept, taken));
    assert ForgottenBy(later, MergeDelta(kept, taken)) && !ForgottenBy(later, kept);
    assert [kept, taken][0] == kept;
    assert !Whole(rows[0], later);
  }

  /** A tool call emitted between two deltas but delivered after them loses its place between them. */
  lemma ToolBetweenDeltasMoves(first: RunEvent, second: RunEvent, tool: RunEvent)
    requires first.kind.MessageDelta? && second.kind.MessageDelta? && tool.kind.ToolStart? && !tool.Nested()
    requires first.id != "" && second.id != "" && tool.id != ""
    requires first.id != second.id && first.id != tool.id && second.id != tool.id
    requires first.Epoch() == tool.Epoch() == second.Epoch() && second.data.workerEpoch.Some?
    requires first.data.workerSeq == Some(1.0) && tool.data.workerSeq == Some(2.0) && second.data.workerSeq == Some(3.0)
    requires first.Delta() != "" && second.Delta() != ""
    ensures var es := [first, second, tool];
      var raw, live := Resume.ApplyRunEventsToMessages([], es), Resume.ApplyRunEventsToMessages([], LiveEvents([], es));
      && |raw| == 1 && raw[0].blocks == [TextBlock(first.Delta()), ToolSlot, TextBlock(second.Delta())]
      && |live| == 1 && live[0].blocks == [ToolSlot, TextBlock(first.Delta() + second.Delta())]
      && !RowsInOrder(Rows(es))
  {
    hide Run, SortRunEvents, MergeDelta, Remembered, LiveEvents, RowsInOrder, FoldRewoundEvents;
    var es, row := [first, second, tool], MergeDelta(first, second);
    FreshOnce(es);
    CoalesceThree(first, second, tool);
    FoldIsRemembered(es);
    FoldIsRemembered([row, tool]);
    NothingForgotten(es);
    MergedKind(first, second);
    NothingForgotten([row, tool]);
    ThreeSorted(first, second, tool);
    TwoSorted(first, second, tool);
    PartedRow(first, second, tool);
    ToolPlaces(first, second, tool, row);
    assert Resume.StateFromMessages([]) == EMPTY;
  }

  lemma MergedKind(first: RunEvent, second: RunEvent)
    ensures MergeDelta(first, second).kind == second.kind
    ensures MergeDelta(first, second).Delta() == first.Delta() + second.Delta()
  {
  }

  lemma ThreeSorted(a: RunEvent, c: RunEvent, b: RunEvent)
    requires a.Epoch() == b.Epoch() == c.Epoch()
    requires a.data.workerSeq == Some(1.0) && b.data.workerSeq == Some(2.0) && c.data.workerSeq == Some(3.0)
    ensures SortRunEvents([a, c, b]) == [a, b, c]
  {
    hide Transitive, SortRunEvents, Arranged, Before, OneProcess, Tag, Untag;
    var x, y, z := Item(a, 0), Item(b, 2), Item(c, 1);
    OneEpoch(a, c, b);
    OneProcessIsTransitive([a, c, b]);
    TagThree(a, c, b);
    ByNumber(x, y, z);
    InThatOrder(x, y, z);
    SwapLast(x, y, z);
    SortIsTheArrangement([a, c, b], [x, y, z]);
    UntagThree(x, y, z);
  }

  lemma TagThree(a: RunEvent, b: RunEvent, c: RunEvent)
    ensures Tag([a, b, c], 0) == [Item(a, 0), Item(b, 1), Item(c, 2)]
  {
  }

  lemma UntagThree(x: Item, y: Item, z: Item)
    ensures Untag([x, y, z]) == [x.event, y.event, z.event]
  {
  }

  lemma OneEpoch(a: RunEvent, c: RunEvent, b: RunEvent)
    requires a.Epoch() == b.Epoch() == c.Epoch()
    requires a.data.workerSeq == Some(1.0) && b.data.workerSeq == Some(2.0) && c.data.workerSeq == Some(3.0)
    ensures OneProcess([a, c, b])
  {
  }

  lemma ByNumber(x: Item, y: Item, z: Item)
    requires x.event.Epoch() == y.event.Epoch() == z.event.Epoch()
    requires x.event.data.workerSeq == Some(1.0) && y.event.data.workerSeq == Some(2.0)
    requires z.event.data.workerSeq == Some(3.0)
    ensures Before(x, y) && Before(y, z) && Before(x, z)
  {
  }

  lemma InThatOrder(x: Item, y: Item, z: Item)
    requires Before(x, y) && Before(y, z) && Before(x, z)
    ensures Arranged([x, y, z])
  {
  }

  lemma SwapLast<T>(x: T, y: T, z: T)
    ensures multiset([x, y, z]) == multiset([x, z, y])
  {
  }

  /** Where the tool stands among the text of the bubble. */
  lemma ToolPlaces(first: RunEvent, second: RunEvent, tool: RunEvent, row: RunEvent)
    requires first.kind.MessageDelta? && second.kind.MessageDelta? && row.kind.MessageDelta?
    requires tool.kind.ToolStart? && !tool.Nested()
    requires first.Delta() != "" && second.Delta() != "" && row.Delta() != ""
    ensures |Run(EMPTY, [first, tool, second]).messages| == 1 == |Run(EMPTY, [tool, row]).messages|
    ensures Run(EMPTY, [first, tool, second]).messages[0].blocks ==
      [TextBlock(first.Delta()), ToolSlot, TextBlock(second.Delta())]
    ensures Run(EMPTY, [tool, row]).messages[0].blocks == [ToolSlot, TextBlock(row.Delta())]
  {
    hide Apply, Run, AtMostOne, AppendTextBlock;
    NothingShown();
    OneBubbleText(EMPTY, first);
    var text := Apply(EMPTY, first);
    OneBubbleTool(text, tool);
    OneBubbleText(Apply(text, tool), second);
    OneBubbleTool(EMPTY, tool);
    OneBubbleText(Apply(EMPTY, tool), row);
    RunThree(EMPTY, first, tool, second);
    RunTwo(EMPTY, tool, row);
    TextPlaces(first.Delta(), second.Delta(), row.Delta());
  }

  lemma RunTwo(s: TranscriptView, a: RunEvent, b: RunEvent)
    requires OpenOk(s)
    ensures Run(s, [a, b]) == Apply(Apply(s, a), b)
  {
    hide Apply, Run;
    RunPush(s, [a], b);
    RunOne(s, a);
    assert [a] + [b] == [a, b];
  }

  lemma RunThree(s: TranscriptView, a: RunEvent, b: RunEvent, c: RunEvent)
    requires OpenOk(s)
    ensures Run(s, [a, b, c]) == Apply(Apply(Apply(s, a), b), c)
  {
    hide Apply, Run;
    RunPush(s, [a, b], c);
    RunTwo(s, a, b);
    assert [a, b] + [c] == [a, b, c];
  }

  lemma NothingShown()
    ensures AtMostOne(EMPTY) && BlocksOf(EMPTY) == []
  {
  }

  lemma TextPlaces(first: string, second: string, row: string)
    ensures AppendTextBlock([], first) + [ToolSlot] == [TextBlock(first), ToolSlot]
    ensures AppendTextBlock([TextBlock(first), ToolSlot], second) == [TextBlock(first), ToolSlot, TextBlock(second)]
    ensures AppendTextBlock([] + [ToolSlot], row) == [ToolSlot, TextBlock(row)]
  {
  }

  /** At most one bubble, open if there is one. */
  predicate AtMostOne(s: TranscriptView) {
    s == EMPTY || (|s.messages| == 1 && s.open == Some(0) && s.messages[0].role.Assistant?)
  }

  function BlocksOf(s: TranscriptView): seq<BlockView> {
    if s.messages == [] then [] else s.messages[0].blocks
  }

  lemma OneBubbleText(s: TranscriptView, e: RunEvent)
    requires AtMostOne(s) && e.kind.MessageDelta? && e.Delta() != ""
    ensures var t := Apply(s, e);
      && AtMostOne(t) && |t.messages| == 1 && t.messages[0].blocks == AppendTextBlock(BlocksOf(s), e.Delta())
      && t.messages[0].tools == if s.messages == [] then [] else s.messages[0].tools
  {
  }

  lemma OneBubbleTool(s: TranscriptView, e: RunEvent)
    requires AtMostOne(s) && e.kind.ToolStart? && !e.Nested() && (s.messages != [] ==> s.messages[0].tools == [])
    ensures var t := Apply(s, e);
      AtMostOne(t) && |t.messages| == 1 && t.messages[0].blocks == BlocksOf(s) + [ToolSlot]
  {
    hide Refresh;
    if s.messages != [] {
      assert !MatchesTool(s.messages[0], e);
    }
  }

  lemma TwoSorted(first: RunEvent, second: RunEvent, tool: RunEvent)
    requires tool.Epoch() == second.Epoch() && second.data.workerEpoch.Some?
    requires tool.data.workerSeq == Some(2.0) && second.data.workerSeq == Some(3.0)
    ensures SortRunEvents([MergeDelta(first, second), tool]) == [tool, MergeDelta(first, second)]
  {
    var row := MergeDelta(first, second);
    var sorted := [Item(tool, 1), Item(row, 0)];
    OneProcessIsTransitive([row, tool]);
    assert Tag([row, tool], 0) == [Item(row, 0), Item(tool, 1)];
    SortIsTheArrangement([row, tool], sorted);
    assert Untag(sorted) == [tool, row];
  }

  lemma PartedRow(first: RunEvent, second: RunEvent, tool: RunEvent)
    requires first.kind.MessageDelta? && second.kind.MessageDelta? && tool.kind.ToolStart?
    requires first.Epoch() == tool.Epoch() == second.Epoch() && second.data.workerEpoch.Some?
    requires first.data.workerSeq == Some(1.0) && tool.data.workerSeq == Some(2.0) && second.data.workerSeq == Some(3.0)
    ensures !RowsInOrder(Rows([first, second, tool]))
  {
    var rows := [[first, second], [tool]];
    RowsOfThree(first, second, tool);
    MergedOne(tool);
    assert Before(Item(Merged(rows[1]), 1), Item(Merged(rows[0]), 0));
    assert RowItems(rows, 1)[0].event == tool && RowItems(rows, 0)[0].event == first;
    assert !Before(RowItems(rows, 1)[0], RowItems(rows, 0)[0]);
    assert !AllBefore(RowItems(rows, 1), RowItems(rows, 0));
  }
}
