/**
 Putting events back in emission order (sortRunEvents).

 `Array.prototype.sort` leaves the result to the engine when the comparator is
 not consistent. The model is the stable insertion sort; `SortIsTheArrangement`
 shows that wherever the comparator orders every pair of a result, no engine can
 return anything else.
 */
module EventOrder {
  import opened Prelude
  import opened Events

  datatype Item = Item(event: RunEvent, index: nat)

  function Tag(es: seq<RunEvent>, from: nat): (r: seq<Item>)
    ensures |r| == |es| && forall k | 0 <= k < |r| :: r[k] == Item(es[k], from + k)
  {
    seq(|es|, k requires 0 <= k < |es| => Item(es[k], from + k))
  }

  function Untag(items: seq<Item>): (r: seq<RunEvent>)
    ensures |r| == |items| && forall k | 0 <= k < |r| :: r[k] == items[k].event
  {
    seq(|items|, k requires 0 <= k < |items| => items[k].event)
  }

  /** One process emitted both, so their sequence numbers order them. */
  predicate SameProcess(a: RunEvent, b: RunEvent) {
    && a.Epoch() == b.Epoch()
    && a.data.workerSeq.Some? && b.data.workerSeq.Some? && a.data.workerSeq != b.data.workerSeq
  }

  function Compare(left: Item, right: Item): real {
    var a, b := left.event, right.event;
    if SameProcess(a, b) then a.data.workerSeq.value - b.data.workerSeq.value
    else if a.createdAt.millis != b.createdAt.millis then (a.createdAt.millis - b.createdAt.millis) as real
    else (left.index - right.index) as real
  }

  predicate Before(left: Item, right: Item) {
    Compare(left, right) < 0.0
  }

  /** Put `x` behind everything it does not have to precede. */
  function Insert(sorted: seq<Item>, x: Item): (r: seq<Item>)
    ensures |r| == |sorted| + 1
  {
    if sorted == [] || !Before(x, sorted[|sorted| - 1]) then sorted + [x]
    else Insert(sorted[..|sorted| - 1], x) + [sorted[|sorted| - 1]]
  }

  function SortItems(items: seq<Item>): (r: seq<Item>)
    ensures |r| == |items|
  {
    if items == [] then [] else Insert(SortItems(items[..|items| - 1]), items[|items| - 1])
  }

  function SortRunEvents(es: seq<RunEvent>): seq<RunEvent> {
    Untag(SortItems(Tag(es, 0)))
  }

  // ---- the sort rearranges ----

  lemma {:induction false} InsertIsPermutation(sorted: seq<Item>, x: Item)
    ensures multiset(Insert(sorted, x)) == multiset(sorted) + multiset{x}
  {
    if sorted != [] && Before(x, sorted[|sorted| - 1]) {
      var n := |sorted| - 1;
      InsertIsPermutation(sorted[..n], x);
      assert sorted == sorted[..n] + [sorted[n]];
    }
  }

  lemma {:induction false} SortIsPermutation(items: seq<Item>)
    ensures multiset(SortItems(items)) == multiset(items)
  {
    if items != [] {
      var n := |items| - 1;
      SortIsPermutation(items[..n]);
      InsertIsPermutation(SortItems(items[..n]), items[n]);
      assert items == items[..n] + [items[n]];
    }
  }

  lemma {:induction false} InsertAddsEvent(sorted: seq<Item>, x: Item)
    ensures multiset(Untag(Insert(sorted, x))) == multiset(Untag(sorted)) + multiset{x.event}
  {
    var n := |sorted| - 1;
    if sorted == [] || !Before(x, sorted[n]) {
      assert Untag(sorted + [x]) == Untag(sorted) + [x.event];
    } else {
      InsertAddsEvent(sorted[..n], x);
      assert Untag(Insert(sorted, x)) == Untag(Insert(sorted[..n], x)) + [sorted[n].event];
      assert Untag(sorted) == Untag(sorted[..n]) + [sorted[n].event];
    }
  }

  lemma {:induction false} SortKeepsEvents(items: seq<Item>)
    ensures multiset(Untag(SortItems(items))) == multiset(Untag(items))
  {
    if items != [] {
      var n := |items| - 1;
      SortKeepsEvents(items[..n]);
      InsertAddsEvent(SortItems(items[..n]), items[n]);
      assert Untag(items) == Untag(items[..n]) + [items[n].event];
    }
  }

  lemma SortRearranges(es: seq<RunEvent>)
    ensures multiset(SortRunEvents(es)) == multiset(es)
  {
    SortKeepsEvents(Tag(es, 0));
    assert Untag(Tag(es, 0)) == es;
  }

  // ---- the sort orders, when the comparator is consistent ----

  ghost predicate Transitive(items: seq<Item>) {
    forall a, b, c | a in items && b in items && c in items && Before(a, b) && Before(b, c) :: Before(a, c)
  }

  predicate DistinctIndices(items: seq<Item>) {
    forall i, j | 0 <= i < j < |items| :: items[i].index != items[j].index
  }

  predicate Arranged(items: seq<Item>) {
    forall i, j | 0 <= i < j < |items| :: Before(items[i], items[j])
  }

  /** Positions differ, so exactly one of two items comes first. */
  lemma BeforeIsTotal(a: Item, b: Item)
    requires a.index != b.index
    ensures Before(a, b) <==> !Before(b, a)
  {
  }

  lemma {:induction false} InsertArranges(all: seq<Item>, sorted: seq<Item>, x: Item)
    requires Transitive(all) && x in all && forall k | 0 <= k < |sorted| :: sorted[k] in all
    requires Arranged(sorted)
    requires forall k | 0 <= k < |sorted| :: sorted[k].index != x.index
    ensures Arranged(Insert(sorted, x))
  {
    var n := |sorted| - 1;
    if sorted != [] {
      var last := sorted[n];
      BeforeIsTotal(x, last);
      if Before(x, last) {
        InsertArranges(all, sorted[..n], x);
        InsertIsPermutation(sorted[..n], x);
        var r := Insert(sorted[..n], x);
        forall i | 0 <= i < |r|
          ensures Before(r[i], last)
        {
          assert r[i] in multiset(r);
          assert r[i] == x || r[i] in sorted[..n];
        }
      } else {
        forall i | 0 <= i < n
          ensures Before(sorted[i], x)
        {
          assert Before(sorted[i], last) && Before(last, x);
        }
      }
    }
  }

  lemma {:induction false} SortArranges(items: seq<Item>)
    requires Transitive(items) && DistinctIndices(items)
    ensures Arranged(SortItems(items))
  {
    if items != [] {
      var n := |items| - 1;
      var sorted := SortItems(items[..n]);
      assert Transitive(items[..n]) by {
        assert forall a | a in items[..n] :: a in items;
      }
      SortArranges(items[..n]);
      SortIsPermutation(items[..n]);
      forall k | 0 <= k < |sorted|
        ensures sorted[k] in items && sorted[k].index != items[n].index
      {
        assert sorted[k] in multiset(items[..n]);
      }
      InsertArranges(items, sorted, items[n]);
    }
  }

  ghost predicate OrderedBy<T(!new)>(xs: seq<T>, before: (T, T) -> bool) {
    forall i, j | 0 <= i < j < |xs| :: before(xs[i], xs[j])
  }

  lemma SameFirst<T(!new)>(a: seq<T>, b: seq<T>, before: (T, T) -> bool)
    requires OrderedBy(a, before) && OrderedBy(b, before) && multiset(a) == multiset(b) && a != [] && b != []
    requires forall x, y | before(x, y) :: !before(y, x)
    ensures a[0] == b[0]
  {
    var x, y := a[0], b[0];
    assert x in multiset(b) && y in multiset(a);
    var i :| 0 <= i < |b| && b[i] == x;
    var j :| 0 <= j < |a| && a[j] == y;
    assert i == 0 || before(y, x);
    assert j == 0 || before(x, y);
  }

  lemma SameRest<T>(a: seq<T>, b: seq<T>)
    requires a != [] && b != [] && a[0] == b[0] && multiset(a) == multiset(b)
    ensures multiset(a[1..]) == multiset(b[1..])
  {
    assert a == [a[0]] + a[1..] && b == [b[0]] + b[1..];
    assert multiset(a[1..]) == multiset(a) - multiset{a[0]};
    assert multiset(b[1..]) == multiset(b) - multiset{b[0]};
  }

  /** There is one way to put a multiset in order. */
  lemma {:induction false} OrderIsUnique<T(!new)>(a: seq<T>, b: seq<T>, before: (T, T) -> bool)
    requires OrderedBy(a, before) && OrderedBy(b, before) && multiset(a) == multiset(b)
    requires forall x, y | before(x, y) :: !before(y, x)
    ensures a == b
  {
    assert |a| == |multiset(a)| == |multiset(b)| == |b|;
    if a != [] {
      SameFirst(a, b, before);
      SameRest(a, b);
      OrderIsUnique(a[1..], b[1..], before);
      assert a == [a[0]] + a[1..] && b == [b[0]] + b[1..];
    }
  }

  /** With a consistent comparator any correct sort returns what the model returns. */
  lemma SortIsTheArrangement(es: seq<RunEvent>, other: seq<Item>)
    requires Transitive(Tag(es, 0))
    ensures Arranged(other) && multiset(other) == multiset(Tag(es, 0)) ==> Untag(other) == SortRunEvents(es)
  {
    SortArranges(Tag(es, 0));
    SortIsPermutation(Tag(es, 0));
    if Arranged(other) && multiset(other) == multiset(Tag(es, 0)) {
      OrderIsUnique(other, SortItems(Tag(es, 0)), Before);
    }
  }

  // ---- appending a log that comes later ----

  function Shift(items: seq<Item>, offset: nat): (r: seq<Item>)
    ensures |r| == |items| && forall k | 0 <= k < |r| :: r[k] == items[k].(index := items[k].index + offset)
  {
    seq(|items|, k requires 0 <= k < |items| => items[k].(index := items[k].index + offset))
  }

  lemma {:induction false} InsertShift(sorted: seq<Item>, x: Item, offset: nat)
    ensures Insert(Shift(sorted, offset), x.(index := x.index + offset)) == Shift(Insert(sorted, x), offset)
  {
    hide Before;
    var n := |sorted| - 1;
    if sorted != [] {
      SameSide(x, sorted[n], offset);
      assert Shift(sorted, offset)[..n] == Shift(sorted[..n], offset);
      InsertShift(sorted[..n], x, offset);
    }
  }

  lemma SameSide(a: Item, b: Item, offset: nat)
    ensures Before(a.(index := a.index + offset), b.(index := b.index + offset)) <==> Before(a, b)
  {
  }

  lemma {:induction false} SortShift(items: seq<Item>, offset: nat)
    ensures SortItems(Shift(items, offset)) == Shift(SortItems(items), offset)
  {
    hide Insert;
    if items != [] {
      var n := |items| - 1;
      assert Shift(items, offset)[..n] == Shift(items[..n], offset);
      SortShift(items[..n], offset);
      InsertShift(SortItems(items[..n]), items[n], offset);
    }
  }

  /** Nothing in front moves when the new item follows all of it. */
  lemma {:induction false} InsertBehind(front: seq<Item>, sorted: seq<Item>, x: Item)
    requires forall k | 0 <= k < |front| :: !Before(x, front[k])
    ensures Insert(front + sorted, x) == front + Insert(sorted, x)
  {
    if sorted == [] {
      assert front + sorted == front;
      assert Insert(front, x) == front + [x];
    } else {
      var n := |sorted| - 1;
      assert (front + sorted)[..|front + sorted| - 1] == front + sorted[..n];
      InsertBehind(front, sorted[..n], x);
    }
  }

  lemma {:induction false} SortBehind(front: seq<Item>, later: seq<Item>)
    requires forall a, b | a in front && b in later :: !Before(b, a)
    ensures SortItems(front + later) == SortItems(front) + SortItems(later)
  {
    if later == [] {
      assert front + later == front;
    } else {
      var n := |later| - 1;
      assert (front + later)[..|front + later| - 1] == front + later[..n];
      SortBehind(front, later[..n]);
      var sorted := SortItems(front);
      SortIsPermutation(front);
      forall k | 0 <= k < |sorted|
        ensures !Before(later[n], sorted[k])
      {
        assert sorted[k] in multiset(front);
      }
      InsertBehind(sorted, SortItems(later[..n]), later[n]);
    }
  }

  /** `b` arrived after `a` and does not have to be put in front of it. */
  predicate Follows(a: RunEvent, b: RunEvent) {
    !Before(Item(b, 1), Item(a, 0))
  }

  lemma SortFromAnywhere(es: seq<RunEvent>, from: nat)
    ensures Untag(SortItems(Tag(es, from))) == SortRunEvents(es)
  {
    assert Tag(es, from) == Shift(Tag(es, 0), from);
    SortShift(Tag(es, 0), from);
  }

  lemma UntagConcat(a: seq<Item>, b: seq<Item>)
    ensures Untag(a + b) == Untag(a) + Untag(b)
  {
  }

  lemma FollowersStayBehind(xs: seq<RunEvent>, ys: seq<RunEvent>, a: Item, b: Item)
    requires forall x, y | x in xs && y in ys :: Follows(x, y)
    requires a in Tag(xs, 0) && b in Tag(ys, |xs|)
    ensures !Before(b, a)
  {
    assert a.event in xs && b.event in ys;
    assert Follows(a.event, b.event);
  }

  /** A log whose events all follow an earlier log is sorted behind it. */
  lemma SortConcat(xs: seq<RunEvent>, ys: seq<RunEvent>)
    requires forall x, y | x in xs && y in ys :: Follows(x, y)
    ensures SortRunEvents(xs + ys) == SortRunEvents(xs) + SortRunEvents(ys)
  {
    var front, later := Tag(xs, 0), Tag(ys, |xs|);
    assert Tag(xs + ys, 0) == front + later;
    forall a, b | a in front && b in later
      ensures !Before(b, a)
    {
      FollowersStayBehind(xs, ys, a, b);
    }
    SortBehind(front, later);
    UntagConcat(SortItems(front), SortItems(later));
    SortFromAnywhere(ys, |xs|);
  }

  /** So does any correct sort, where the comparator is consistent over both logs. */
  lemma AnySortConcat(xs: seq<RunEvent>, ys: seq<RunEvent>, sorted: seq<Item>)
    requires forall x, y | x in xs && y in ys :: Follows(x, y)
    requires Transitive(Tag(xs + ys, 0))
    requires Arranged(sorted) && multiset(sorted) == multiset(Tag(xs + ys, 0))
    ensures Untag(sorted) == SortRunEvents(xs) + SortRunEvents(ys)
    ensures Transitive(Tag(xs, 0))
  {
    SortIsTheArrangement(xs + ys, sorted);
    SortConcat(xs, ys);
    var front := Tag(xs, 0);
    assert forall a | a in front :: Tag(xs + ys, 0)[a.index] == a;
  }

  // ---- arrival order does not matter ----

  /** The comparator puts `a` first wherever the two arrived. */
  predicate Precedes(a: RunEvent, b: RunEvent) {
    if SameProcess(a, b) then a.data.workerSeq.value < b.data.workerSeq.value
    else a.createdAt.millis < b.createdAt.millis
  }

  /** No event is there twice, any two are ordered whichever arrived first, and consistently so. */
  ghost predicate FullyOrdered(es: multiset<RunEvent>) {
    && (forall e | e in es :: es[e] == 1)
    && (forall a, b | a in es && b in es && a != b :: Precedes(a, b) || Precedes(b, a))
    && (forall a, b, c | a in es && b in es && c in es && Precedes(a, b) && Precedes(b, c) :: Precedes(a, c))
  }

  predicate EachOnce(es: seq<RunEvent>) {
    forall i, j | 0 <= i < j < |es| :: es[i] != es[j]
  }

  lemma EachOnceSplit(a: seq<RunEvent>, b: seq<RunEvent>)
    requires EachOnce(a + b)
    ensures EachOnce(a) && EachOnce(b) && forall e | e in a :: e !in b
  {
    var all := a + b;
    forall i, j | 0 <= i < j < |a|
      ensures a[i] != a[j]
    {
      assert all[i] == a[i] && all[j] == a[j];
    }
    forall i, j | 0 <= i < j < |b|
      ensures b[i] != b[j]
    {
      assert all[|a| + i] == b[i] && all[|a| + j] == b[j];
    }
    forall i, j | 0 <= i < |a| && 0 <= j < |b|
      ensures a[i] != b[j]
    {
      assert all[i] == a[i] && all[|a| + j] == b[j];
    }
  }

  lemma NoneTwice(es: seq<RunEvent>)
    requires forall e | e in multiset(es) :: multiset(es)[e] == 1
    ensures forall i, j | 0 <= i < j < |es| :: es[i] != es[j]
  {
    forall i, j | 0 <= i < j < |es|
      ensures es[i] != es[j]
    {
      assert es == es[..j] + [es[j]] + es[j + 1..];
      assert es[i] in es[..j];
      assert es[j] in multiset(es);
    }
  }

  lemma OnceEach(es: seq<RunEvent>)
    requires forall i, j | 0 <= i < j < |es| :: es[i] != es[j]
    ensures forall e | e in multiset(es) :: multiset(es)[e] == 1
  {
    forall e | e in multiset(es)
      ensures multiset(es)[e] == 1
    {
      var i :| 0 <= i < |es| && es[i] == e;
      assert es == es[..i] + [e] + es[i + 1..];
      assert e !in es[..i] && e !in es[i + 1..];
    }
  }

  lemma FullyOrderedItems(es: seq<RunEvent>)
    requires FullyOrdered(multiset(es))
    ensures Transitive(Tag(es, 0))
    ensures forall a, b | a in Tag(es, 0) && b in Tag(es, 0) && a != b :: Before(a, b) <==> Precedes(a.event, b.event)
  {
    var items := Tag(es, 0);
    forall a, b | a in items && b in items && a != b
      ensures Before(a, b) <==> Precedes(a.event, b.event)
    {
      NoneTwice(es);
      assert items[a.index] == a && items[b.index] == b;
      assert a.event in multiset(es) && b.event in multiset(es);
    }
    forall a, b, c | a in items && b in items && c in items && Before(a, b) && Before(b, c)
      ensures Before(a, c)
    {
      assert a.event in multiset(es) && b.event in multiset(es) && c.event in multiset(es);
      assert Precedes(a.event, c.event);
    }
  }

  lemma SortIsInOrder(es: seq<RunEvent>)
    requires FullyOrdered(multiset(es))
    ensures OrderedBy(SortRunEvents(es), Precedes)
  {
    var items := Tag(es, 0);
    var sorted := SortItems(items);
    FullyOrderedItems(es);
    SortArranges(items);
    SortIsPermutation(items);
    forall i, j | 0 <= i < j < |sorted|
      ensures Precedes(sorted[i].event, sorted[j].event)
    {
      assert sorted[i] in multiset(items) && sorted[j] in multiset(items);
      assert Before(sorted[i], sorted[j]);
    }
  }

  /** Two logs with the same events compile in the same order, however the events arrived. */
  lemma ArrivalOrderIrrelevant(es: seq<RunEvent>, shuffled: seq<RunEvent>)
    requires FullyOrdered(multiset(es)) && multiset(shuffled) == multiset(es)
    ensures SortRunEvents(shuffled) == SortRunEvents(es)
  {
    SortIsInOrder(es);
    SortIsInOrder(shuffled);
    SortRearranges(es);
    SortRearranges(shuffled);
    OrderIsUnique(SortRunEvents(shuffled), SortRunEvents(es), Precedes);
  }

  /** One worker process numbered all of them, each differently. */
  predicate OneProcess(es: seq<RunEvent>) {
    && (forall k | 0 <= k < |es| :: es[k].data.workerSeq.Some?)
    && (forall i, j | 0 <= i < j < |es| ::
          es[i].Epoch() == es[j].Epoch() && es[i].data.workerSeq != es[j].data.workerSeq)
  }

  lemma OneProcessIsFullyOrdered(es: seq<RunEvent>)
    requires OneProcess(es)
    ensures FullyOrdered(multiset(es))
  {
    forall a, b | a in multiset(es) && b in multiset(es) && a != b
      ensures SameProcess(a, b)
    {
      var i :| 0 <= i < |es| && es[i] == a;
      var j :| 0 <= j < |es| && es[j] == b;
      assert i < j || j < i;
    }
    OnceEach(es);
  }

  /** Within one process a smaller number means a strictly earlier time. */
  predicate ClocksAgree(es: seq<RunEvent>) {
    forall a, b | a in es && b in es && SameProcess(a, b) && a.data.workerSeq.value < b.data.workerSeq.value ::
      a.createdAt.millis < b.createdAt.millis
  }

  predicate Earlier(left: Item, right: Item) {
    left.event.createdAt.millis < right.event.createdAt.millis
    || (left.event.createdAt.millis == right.event.createdAt.millis && left.index < right.index)
  }

  /** No event of another process, by time, between two events of one process that the clock puts the wrong way round. */
  ghost predicate NothingBetween(items: seq<Item>) {
    forall a, b, c | a in items && b in items && c in items && WrongWayRound(a, b) ::
      SameProcess(a.event, c.event) || SameProcess(b.event, c.event) || !(Earlier(b, c) && Earlier(c, a))
  }

  /** `a` was numbered before `b` but comes later by the clock. */
  predicate WrongWayRound(a: Item, b: Item) {
    SameProcess(a.event, b.event) && a.event.data.workerSeq.value < b.event.data.workerSeq.value && Earlier(b, a)
  }

  lemma BeforeMeans(a: Item, b: Item)
    ensures Before(a, b) <==>
      if SameProcess(a.event, b.event) then a.event.data.workerSeq.value < b.event.data.workerSeq.value else Earlier(a, b)
  {
  }

  /** Three items in a chain are in order unless the chain steps between two that are wrong way round. */
  lemma ChainHolds(items: seq<Item>, a: Item, b: Item, c: Item)
    requires NothingBetween(items) && a in items && b in items && c in items
    requires a.index != b.index && b.index != c.index && a.index != c.index
    requires Before(a, b) && Before(b, c)
    ensures Before(a, c)
  {
    BeforeMeans(a, b);
    BeforeMeans(b, c);
    BeforeMeans(a, c);
    assert WrongWayRound(c, a) ==>
      SameProcess(c.event, b.event) || SameProcess(a.event, b.event) || !(Earlier(a, b) && Earlier(b, c));
    assert WrongWayRound(a, b) ==>
      SameProcess(a.event, c.event) || SameProcess(b.event, c.event) || !(Earlier(b, c) && Earlier(c, a));
    assert WrongWayRound(b, c) ==>
      SameProcess(b.event, a.event) || SameProcess(c.event, a.event) || !(Earlier(c, a) && Earlier(a, b));
  }

  /** The comparator is transitive on a log exactly if nothing of another process falls between two such events. */
  lemma TransitiveIff(es: seq<RunEvent>)
    ensures Transitive(Tag(es, 0)) <==> NothingBetween(Tag(es, 0))
  {
    var items := Tag(es, 0);
    if NothingBetween(items) {
      forall a, b, c | a in items && b in items && c in items && Before(a, b) && Before(b, c)
        ensures Before(a, c)
      {
        assert items[a.index] == a && items[b.index] == b && items[c.index] == c;
        ChainHolds(items, a, b, c);
      }
    }
    if Transitive(items) {
      forall a, b, c | a in items && b in items && c in items && WrongWayRound(a, b)
        ensures SameProcess(a.event, c.event) || SameProcess(b.event, c.event) || !(Earlier(b, c) && Earlier(c, a))
      {
        BeforeMeans(a, b);
        BeforeMeans(b, c);
        BeforeMeans(c, a);
        BeforeMeans(b, a);
      }
    }
  }

  /** One process alone is always consistent, however wrong its clock. */
  lemma OneProcessIsTransitive(es: seq<RunEvent>)
    requires OneProcess(es)
    ensures Transitive(Tag(es, 0))
  {
    TransitiveIff(es);
    var items := Tag(es, 0);
    forall a, b, c | a in items && b in items && c in items && WrongWayRound(a, b)
      ensures SameProcess(a.event, c.event) || SameProcess(b.event, c.event) || !(Earlier(b, c) && Earlier(c, a))
    {
      assert items[a.index] == a && items[b.index] == b && items[c.index] == c;
    }
  }

  /** With agreeing clocks the comparator is a strict total order, and the sort is the stable sort by time. */
  lemma SortIsStableByTime(es: seq<RunEvent>)
    requires ClocksAgree(es)
    ensures Transitive(Tag(es, 0))
    ensures OrderedBy(SortItems(Tag(es, 0)), Earlier)
    ensures multiset(SortItems(Tag(es, 0))) == multiset(Tag(es, 0))
  {
    var items := Tag(es, 0);
    var sorted := SortItems(items);
    forall a, b | a in items && b in items
      ensures Before(a, b) <==> Earlier(a, b)
    {
      assert a.event in es && b.event in es;
      assert items[a.index] == a && items[b.index] == b;
      BeforeMeans(a, b);
    }
    TransitiveIff(es);
    SortArranges(items);
    SortIsPermutation(items);
    forall i, j | 0 <= i < j < |sorted|
      ensures Earlier(sorted[i], sorted[j])
    {
      assert sorted[i] in multiset(items) && sorted[j] in multiset(items);
      assert Before(sorted[i], sorted[j]);
    }
  }

  /** Three events from two processes the comparator puts in a circle. */
  lemma ComparatorCanCycle(e: RunEvent) returns (a: RunEvent, b: RunEvent, c: RunEvent)
    ensures forall i: nat, j: nat ::
      Before(Item(a, i), Item(b, j)) && Before(Item(b, i), Item(c, j)) && Before(Item(c, i), Item(a, j))
  {
    a := e.(createdAt := Timestamp("t3", 3), data := NO_DATA.(workerEpoch := Some("p"), workerSeq := Some(1.0)));
    b := e.(createdAt := Timestamp("t1", 1), data := NO_DATA.(workerEpoch := Some("p"), workerSeq := Some(2.0)));
    c := e.(createdAt := Timestamp("t2", 2), data := NO_DATA.(workerEpoch := Some("q"), workerSeq := Some(1.0)));
  }
}
