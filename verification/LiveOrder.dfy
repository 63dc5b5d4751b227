/**
 Sorting the rows of a coalesced list (packages/contracts/src/client-stream.ts) against sorting the events they stand
 for (sortRunEvents).
 */
module LiveOrder {
  import opened Events
  import opened Framing
  import opened EventOrder
  import opened LiveRows

  /** Where the events of row `k` start. */
  function Offset(rows: seq<Row>, k: nat): nat
    requires k <= |rows|
  {
    |Joined(rows[..k])|
  }

  /** The events of row `k`, tagged with their places in the stream. */
  function RowItems(rows: seq<Row>, k: nat): (r: seq<Item>)
    requires k < |rows|
    ensures |r| == |rows[k]| && forall i | 0 <= i < |r| :: r[i] == Item(rows[k][i], Offset(rows, k) + i)
  {
    Tag(rows[k], Offset(rows, k))
  }

  predicate Points(rows: seq<Row>, items: seq<Item>) {
    forall k | 0 <= k < |items| :: items[k].index < |rows|
  }

  /** The events behind a list of tagged rows. */
  function Expand(rows: seq<Row>, items: seq<Item>): seq<Item>
    requires Points(rows, items)
  {
    if items == [] then [] else RowItems(rows, items[0].index) + Expand(rows, items[1..])
  }

  lemma {:induction false} ExpandConcat(rows: seq<Row>, a: seq<Item>, b: seq<Item>)
    requires Points(rows, a) && Points(rows, b)
    ensures Points(rows, a + b) && Expand(rows, a + b) == Expand(rows, a) + Expand(rows, b)
  {
    hide RowItems;
    if a == [] {
      assert a + b == b;
    } else {
      assert (a + b)[1..] == a[1..] + b;
      ExpandConcat(rows, a[1..], b);
    }
  }

  lemma ExpandOne(rows: seq<Row>, x: Item)
    requires x.index < |rows|
    ensures Expand(rows, [x]) == RowItems(rows, x.index)
  {
    assert Expand(rows, [x]) == RowItems(rows, x.index) + Expand(rows, []);
  }

  lemma {:induction false} InsertExpands(rows: seq<Row>, sorted: seq<Item>, x: Item)
    requires Points(rows, sorted) && x.index < |rows|
    ensures Points(rows, Insert(sorted, x))
    ensures multiset(Expand(rows, Insert(sorted, x))) == multiset(Expand(rows, sorted)) + multiset(RowItems(rows, x.index))
  {
    hide RowItems, Expand, Before;
    var n := |sorted| - 1;
    ExpandOne(rows, x);
    if sorted == [] || !Before(x, sorted[n]) {
      ExpandConcat(rows, sorted, [x]);
    } else {
      var front, last := sorted[..n], [sorted[n]];
      assert sorted == front + last;
      InsertExpands(rows, front, x);
      ExpandConcat(rows, front, last);
      ExpandConcat(rows, Insert(front, x), last);
    }
  }

  lemma {:induction false} SortExpands(rows: seq<Row>, items: seq<Item>)
    requires Points(rows, items)
    ensures Points(rows, SortItems(items))
    ensures multiset(Expand(rows, SortItems(items))) == multiset(Expand(rows, items))
  {
    hide RowItems, Expand, Insert;
    if items != [] {
      var n := |items| - 1;
      SortExpands(rows, items[..n]);
      InsertExpands(rows, SortItems(items[..n]), items[n]);
      assert items == items[..n] + [items[n]];
      ExpandConcat(rows, items[..n], [items[n]]);
      ExpandOne(rows, items[n]);
    }
  }

  lemma OffsetStep(rows: seq<Row>, k: nat)
    requires k < |rows|
    ensures Joined(rows[..k + 1]) == Joined(rows[..k]) + rows[k]
    ensures Offset(rows, k + 1) == Offset(rows, k) + |rows[k]|
  {
    assert rows[..k + 1] == rows[..k] + [rows[k]];
    JoinedPush(rows[..k], rows[k]);
  }

  /** Expanding the rows in their own order gives the stream. */
  lemma {:induction false} ExpandAll(rows: seq<Row>, k: nat)
    requires GoodRows(rows) && k <= |rows|
    ensures Points(rows, Tag(MergeEach(rows), 0)[..k])
    ensures Expand(rows, Tag(MergeEach(rows), 0)[..k]) == Tag(Joined(rows[..k]), 0)
  {
    hide MergeEach, Joined, Expand;
    var items := Tag(MergeEach(rows), 0);
    if k == 0 {
      NothingToExpand(rows);
      assert Tag(Joined(rows[..0]), 0) == [];
    } else {
      ExpandAll(rows, k - 1);
      assert items[..k] == items[..k - 1] + [items[k - 1]];
      ExpandConcat(rows, items[..k - 1], [items[k - 1]]);
      ExpandOne(rows, items[k - 1]);
      OffsetStep(rows, k - 1);
      assert Tag(Joined(rows[..k]), 0) == Tag(Joined(rows[..k - 1]), 0) + RowItems(rows, k - 1);
    }
  }

  lemma NothingToExpand(rows: seq<Row>)
    ensures rows[..0] == [] && Joined<RunEvent>([]) == [] && Expand(rows, []) == []
  {
  }

  // ---- the sorted rows ----

  function SortedItems(rows: seq<Row>): (r: seq<Item>)
    requires GoodRows(rows)
  {
    SortItems(Tag(MergeEach(rows), 0))
  }

  lemma SortedPoints(rows: seq<Row>)
    requires GoodRows(rows)
    ensures |SortedItems(rows)| == |rows| && Points(rows, SortedItems(rows))
    ensures forall k | 0 <= k < |rows| ::
      SortedItems(rows)[k] == Item(Merged(rows[SortedItems(rows)[k].index]), SortedItems(rows)[k].index)
    ensures forall k | 0 <= k < |rows| :: Item(Merged(rows[k]), k) in SortedItems(rows)
    ensures multiset(Expand(rows, SortedItems(rows))) == multiset(Tag(Joined(rows), 0))
  {
    hide Merged, SortItems, Expand;
    var items, sorted := Tag(MergeEach(rows), 0), SortedItems(rows);
    SortIsPermutation(items);
    forall k | 0 <= k < |rows|
      ensures sorted[k] in items
    {
      assert sorted[k] in multiset(sorted);
    }
    forall k | 0 <= k < |rows|
      ensures items[k] in sorted
    {
      assert items[k] in multiset(sorted);
    }
    SortExpands(rows, items);
    ExpandAll(rows, |rows|);
    assert items[..|rows|] == items && rows[..|rows|] == rows;
  }

  /** The rows in the order the sort of their events puts them. */
  function SortedRows(rows: seq<Row>): (r: seq<Row>)
    requires GoodRows(rows)
    ensures GoodRows(r)
  {
    SortedPoints(rows);
    seq(|rows|, k requires 0 <= k < |rows| => rows[SortedItems(rows)[k].index])
  }

  lemma SortedRowsMerge(rows: seq<Row>)
    requires GoodRows(rows)
    ensures MergeEach(SortedRows(rows)) == SortRunEvents(MergeEach(rows))
  {
    hide Merged, SortItems;
    SortedPoints(rows);
  }

  lemma {:induction false} UntagExpand(rows: seq<Row>, items: seq<Item>)
    requires Points(rows, items)
    ensures Untag(Expand(rows, items)) == Joined(seq(|items|, k requires 0 <= k < |items| => rows[items[k].index]))
  {
    var picked := seq(|items|, k requires 0 <= k < |items| => rows[items[k].index]);
    if items != [] {
      UntagExpand(rows, items[1..]);
      UntagConcat(RowItems(rows, items[0].index), Expand(rows, items[1..]));
      assert picked[1..] == seq(|items[1..]|, k requires 0 <= k < |items[1..]| => rows[items[1..][k].index]);
      assert Untag(RowItems(rows, items[0].index)) == rows[items[0].index];
    }
  }

  // ---- when the rows stay together ----

  predicate AllBefore(xs: seq<Item>, ys: seq<Item>) {
    forall i, j | 0 <= i < |xs| && 0 <= j < |ys| :: Before(xs[i], ys[j])
  }

  lemma ArrangedConcat(a: seq<Item>, b: seq<Item>)
    ensures Arranged(a + b) <==> Arranged(a) && Arranged(b) && AllBefore(a, b)
  {
    hide Before;
    var all := a + b;
    if Arranged(all) {
      forall i, j | 0 <= i < j < |a|
        ensures Before(a[i], a[j])
      {
        assert Before(all[i], all[j]);
      }
      forall i, j | 0 <= i < j < |b|
        ensures Before(b[i], b[j])
      {
        assert Before(all[|a| + i], all[|a| + j]);
      }
      forall i, j | 0 <= i < |a| && 0 <= j < |b|
        ensures Before(a[i], b[j])
      {
        assert Before(all[i], all[|a| + j]);
      }
    }
  }

  lemma AllBeforeConcat(xs: seq<Item>, a: seq<Item>, b: seq<Item>)
    ensures AllBefore(xs, a + b) <==> AllBefore(xs, a) && AllBefore(xs, b)
  {
    hide Before;
    if AllBefore(xs, a + b) {
      forall i, j | 0 <= i < |xs| && 0 <= j < |a|
        ensures Before(xs[i], a[j])
      {
        assert Before(xs[i], (a + b)[j]);
      }
      forall i, j | 0 <= i < |xs| && 0 <= j < |b|
        ensures Before(xs[i], b[j])
      {
        assert Before(xs[i], (a + b)[|a| + j]);
      }
    }
  }

  lemma {:induction false} AllBeforeExpand(rows: seq<Row>, xs: seq<Item>, items: seq<Item>)
    requires Points(rows, items)
    ensures AllBefore(xs, Expand(rows, items)) <==>
      forall k | 0 <= k < |items| :: AllBefore(xs, RowItems(rows, items[k].index))
  {
    hide AllBefore, RowItems;
    if items == [] {
      BeforeNothing(xs);
    } else {
      var rest := items[1..];
      AllBeforeExpand(rows, xs, rest);
      AllBeforeConcat(xs, RowItems(rows, items[0].index), Expand(rows, rest));
      assert forall k | 1 <= k < |items| :: items[k] == rest[k - 1];
      assert forall k | 0 <= k < |rest| :: rest[k] == items[k + 1];
    }
  }

  lemma BeforeNothing(xs: seq<Item>)
    ensures AllBefore(xs, [])
  {
  }

  /** Each row in order, and each row before the rows the list puts behind it. */
  predicate PairsInOrder(rows: seq<Row>, items: seq<Item>)
    requires Points(rows, items)
  {
    && (forall k | 0 <= k < |items| :: Arranged(RowItems(rows, items[k].index)))
    && (forall j, k | 0 <= j < k < |items| :: AllBefore(RowItems(rows, items[j].index), RowItems(rows, items[k].index)))
  }

  lemma {:induction false} ArrangedExpand(rows: seq<Row>, items: seq<Item>)
    requires Points(rows, items)
    ensures Arranged(Expand(rows, items)) <==> PairsInOrder(rows, items)
  {
    hide AllBefore, RowItems, Arranged;
    if items == [] {
      NothingArranged();
    } else {
      var rest := items[1..];
      ArrangedExpand(rows, rest);
      ArrangedConcat(RowItems(rows, items[0].index), Expand(rows, rest));
      AllBeforeExpand(rows, RowItems(rows, items[0].index), rest);
      PairsOfRest(rows, items);
    }
  }

  lemma NothingArranged()
    ensures Arranged([])
  {
  }

  lemma PairsOfRest(rows: seq<Row>, items: seq<Item>)
    requires Points(rows, items) && items != []
    ensures var first, rest := RowItems(rows, items[0].index), items[1..];
      PairsInOrder(rows, items) <==>
        && Arranged(first) && PairsInOrder(rows, rest)
        && forall k | 0 <= k < |rest| :: AllBefore(first, RowItems(rows, rest[k].index))
  {
    hide AllBefore, RowItems, Arranged;
    var rest := items[1..];
    assert forall k | 0 <= k < |rest| :: rest[k] == items[k + 1];
    assert forall k | 1 <= k < |items| :: items[k] == rest[k - 1];
  }

  /** The comparator cannot part the rows: it puts a row's events in the order they came, and all events of one row on
      the same side of all events of another as it puts the rows themselves. */
  predicate RowsInOrder(rows: seq<Row>)
    requires GoodRows(rows)
  {
    && (forall k | 0 <= k < |rows| :: Arranged(RowItems(rows, k)))
    && (forall j, k | 0 <= j < |rows| && 0 <= k < |rows| && Before(Item(Merged(rows[j]), j), Item(Merged(rows[k]), k)) ::
          AllBefore(RowItems(rows, j), RowItems(rows, k)))
  }

  lemma PairsFromRows(rows: seq<Row>)
    requires GoodRows(rows) && Arranged(SortedItems(rows)) && Points(rows, SortedItems(rows)) && RowsInOrder(rows)
    ensures PairsInOrder(rows, SortedItems(rows))
  {
    hide AllBefore, RowItems, Merged, SortItems, Expand, Before;
    var sorted := SortedItems(rows);
    SortedPoints(rows);
    forall j, k | 0 <= j < k < |sorted|
      ensures AllBefore(RowItems(rows, sorted[j].index), RowItems(rows, sorted[k].index))
    {
      assert Before(sorted[j], sorted[k]);
    }
  }

  lemma RowsFromPairs(rows: seq<Row>)
    requires GoodRows(rows) && Arranged(SortedItems(rows))
    requires Points(rows, SortedItems(rows)) && PairsInOrder(rows, SortedItems(rows))
    ensures RowsInOrder(rows)
  {
    hide AllBefore, RowItems, Merged, SortItems, Expand, Before;
    var sorted := SortedItems(rows);
    SortedPoints(rows);
    forall k | 0 <= k < |rows|
      ensures Arranged(RowItems(rows, k))
    {
      var i :| 0 <= i < |sorted| && sorted[i] == Item(Merged(rows[k]), k);
      assert sorted[i].index == k;
    }
    forall j, k | 0 <= j < |rows| && 0 <= k < |rows| && Before(Item(Merged(rows[j]), j), Item(Merged(rows[k]), k))
      ensures AllBefore(RowItems(rows, j), RowItems(rows, k))
    {
      var a :| 0 <= a < |sorted| && sorted[a] == Item(Merged(rows[j]), j);
      var b :| 0 <= b < |sorted| && sorted[b] == Item(Merged(rows[k]), k);
      NotBoth(sorted[a], sorted[b]);
      assert a < b;
    }
  }

  lemma NotBoth(a: Item, b: Item)
    ensures !(Before(a, b) && Before(b, a))
    ensures Before(a, b) ==> a != b
  {
  }

  /** Distinct events make their tags distinct by event alone. */
  lemma SameTags(es: seq<RunEvent>, a: seq<Item>, b: seq<Item>)
    requires EachOnce(es) && Untag(a) == Untag(b)
    requires (forall k | 0 <= k < |a| :: a[k] in Tag(es, 0)) && (forall k | 0 <= k < |b| :: b[k] in Tag(es, 0))
    ensures a == b
  {
    assert |a| == |Untag(a)| == |b|;
    forall k | 0 <= k < |a|
      ensures a[k] == b[k]
    {
      assert Untag(a)[k] == Untag(b)[k];
      assert es[a[k].index] == a[k].event && es[b[k].index] == b[k].event;
    }
  }

  lemma InMultiset<T>(xs: seq<T>, ys: seq<T>)
    requires multiset(xs) == multiset(ys)
    ensures forall k | 0 <= k < |xs| :: xs[k] in ys
  {
    forall k | 0 <= k < |xs|
      ensures xs[k] in ys
    {
      assert xs[k] in multiset(xs);
    }
  }

  /** Sorting the list is sorting the events exactly if the comparator cannot part the rows. */
  lemma OrderOfRowsIff(rows: seq<Row>)
    requires GoodRows(rows) && EachOnce(Joined(rows))
    requires Transitive(Tag(Joined(rows), 0)) && Transitive(Tag(MergeEach(rows), 0))
    ensures Joined(SortedRows(rows)) == SortRunEvents(Joined(rows)) <==> RowsInOrder(rows)
  {
    hide Expand, SortItems, RowsInOrder, PairsInOrder, Transitive, Arranged, Merged, Joined, EachOnce;
    var sorted, raw := SortedItems(rows), Tag(Joined(rows), 0);
    SortedPoints(rows);
    var expanded := Expand(rows, sorted);
    TagsDiffer(MergeEach(rows));
    SortArranges(Tag(MergeEach(rows), 0));
    if RowsInOrder(rows) {
      PairsFromRows(rows);
    }
    if PairsInOrder(rows, sorted) {
      RowsFromPairs(rows);
    }
    ArrangedExpand(rows, sorted);
    UntagExpand(rows, sorted);
    assert seq(|sorted|, k requires 0 <= k < |sorted| => rows[sorted[k].index]) == SortedRows(rows);
    SortIsTheArrangement(Joined(rows), expanded);
    TagsDiffer(Joined(rows));
    SortArranges(raw);
    SortIsPermutation(raw);
    if Joined(SortedRows(rows)) == SortRunEvents(Joined(rows)) {
      InMultiset(expanded, raw);
      InMultiset(SortItems(raw), raw);
      SameTags(Joined(rows), expanded, SortItems(raw));
    }
  }

  lemma TagsDiffer(es: seq<RunEvent>)
    ensures DistinctIndices(Tag(es, 0))
  {
  }
}
