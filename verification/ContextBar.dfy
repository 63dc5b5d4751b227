/**
 Width layout of the context-usage bar (packages/contracts/src/context-bar.ts),
 in exact reals.
 */
module ContextBar {
  import opened Prelude
  import opened Picking

  const TOLERANCE: real := 0.000001

  function Max(a: real, b: real): real { if a < b then b else a }

  function Min(a: real, b: real): real { if b < a then b else a }

  function Sum(xs: seq<real>): real {
    if xs == [] then 0.0 else Sum(xs[..|xs| - 1]) + xs[|xs| - 1]
  }

  function Positive(shares: seq<real>): (r: seq<real>)
    ensures |r| == |shares| && forall k | 0 <= k < |r| :: r[k] == Max(0.0, shares[k])
  {
    seq(|shares|, k requires 0 <= k < |shares| => Max(0.0, shares[k]))
  }

  /** Each share's part of `total`. */
  function Proportional(shares: seq<real>, total: real): (r: seq<real>)
    requires Sum(Positive(shares)) > 0.0
    ensures |r| == |shares|
    ensures forall k | 0 <= k < |r| :: r[k] == Max(0.0, shares[k]) / Sum(Positive(shares)) * total
  {
    seq(|shares|, k requires 0 <= k < |shares| => Max(0.0, shares[k]) / Sum(Positive(shares)) * total)
  }

  function Raised(xs: seq<real>, min: real): (r: seq<real>)
    ensures |r| == |xs| && forall k | 0 <= k < |r| :: r[k] == Max(min, xs[k])
  {
    seq(|xs|, k requires 0 <= k < |xs| => Max(min, xs[k]))
  }

  function Const(n: nat, x: real): (r: seq<real>)
    ensures |r| == n && forall k | 0 <= k < |r| :: r[k] == x
  {
    seq(n, _ => x)
  }

  lemma SumPush(xs: seq<real>, x: real)
    ensures Sum(xs + [x]) == Sum(xs) + x
  {
    assert (xs + [x])[..|xs|] == xs;
  }

  lemma {:induction false} SumUpdate(xs: seq<real>, i: nat, x: real)
    requires i < |xs|
    ensures Sum(xs[i := x]) == Sum(xs) - xs[i] + x
  {
    var n := |xs| - 1;
    if i == n {
      assert xs[i := x][..n] == xs[..n];
    } else {
      SumUpdate(xs[..n], i, x);
      assert xs[i := x][..n] == xs[..n][i := x];
    }
  }

  lemma {:induction false} SumConst(n: nat, x: real)
    ensures Sum(Const(n, x)) == n as real * x
  {
    if n > 0 {
      SumConst(n - 1, x);
      assert Const(n, x)[..n - 1] == Const(n - 1, x);
    }
  }

  lemma {:induction false} SumMonotone(xs: seq<real>, ys: seq<real>)
    requires |xs| == |ys| && forall k | 0 <= k < |xs| :: xs[k] <= ys[k]
    ensures Sum(xs) <= Sum(ys)
  {
    if xs != [] {
      SumMonotone(xs[..|xs| - 1], ys[..|ys| - 1]);
    }
  }

  lemma {:induction false} SumScaled(xs: seq<real>, ys: seq<real>, factor: real)
    requires |xs| == |ys| && forall k | 0 <= k < |xs| :: ys[k] == xs[k] * factor
    ensures Sum(ys) == Sum(xs) * factor
  {
    if xs != [] {
      SumScaled(xs[..|xs| - 1], ys[..|ys| - 1], factor);
    }
  }

  lemma ProportionalSum(shares: seq<real>, total: real)
    requires Sum(Positive(shares)) > 0.0 && total > 0.0
    ensures Sum(Proportional(shares, total)) == total
    ensures forall k | 0 <= k < |shares| :: Proportional(shares, total)[k] >= 0.0
  {
    hide Sum, Positive;
    var sum := Sum(Positive(shares));
    var factor := total / sum;
    var ps := Proportional(shares, total);
    forall k | 0 <= k < |shares|
      ensures ps[k] == Positive(shares)[k] * factor && ps[k] >= 0.0
    {
      Rescale(Positive(shares)[k], sum, total);
    }
    SumScaled(Positive(shares), ps, factor);
    Undivide(sum, total);
  }

  lemma Undivide(sum: real, total: real)
    requires sum > 0.0
    ensures sum * (total / sum) == total
  {
  }

  lemma Rescale(x: real, sum: real, total: real)
    requires sum > 0.0 && total > 0.0 && x >= 0.0
    ensures x / sum * total == x * (total / sum) && x / sum * total >= 0.0
  {
  }

  // ---- the positions, largest value first ----

  predicate DistinctPositions(order: seq<nat>) {
    forall j, k | 0 <= j < k < |order| :: order[j] != order[k]
  }

  /** Some of the first `n` positions, by falling value. */
  predicate Descending(order: seq<nat>, values: seq<real>, n: nat)
    requires n <= |values|
  {
    && (forall k | 0 <= k < |order| :: order[k] < n)
    && (forall j, k | 0 <= j < k < |order| :: values[order[j]] >= values[order[k]])
    && DistinctPositions(order)
  }

  /** Put position `n` behind every value that is at least as large. */
  function InsertPosition(order: seq<nat>, values: seq<real>, n: nat): (r: seq<nat>)
    requires n < |values| && forall k | 0 <= k < |order| :: order[k] < n
    ensures |r| == |order| + 1 && forall x :: x in r <==> x == n || x in order
  {
    if order != [] && values[order[0]] >= values[n] then [order[0]] + InsertPosition(order[1..], values, n)
    else [n] + order
  }

  lemma {:induction false} InsertDescends(order: seq<nat>, values: seq<real>, n: nat)
    requires n < |values| && Descending(order, values, n)
    ensures Descending(InsertPosition(order, values, n), values, n + 1)
  {
    hide Descending, DistinctPositions;
    OrderFacts(order, values, n);
    if order != [] && values[order[0]] >= values[n] {
      InsertDescends(order[1..], values, n);
      PushLargest(InsertPosition(order[1..], values, n), values, n + 1, order[0]);
    } else {
      PushLargest(order, values, n + 1, n);
    }
  }

  lemma OrderFacts(order: seq<nat>, values: seq<real>, n: nat)
    requires n < |values| && Descending(order, values, n)
    ensures Descending(order, values, n + 1) && forall x | x in order :: x < n
    ensures order != [] ==> order[0] < n && order[0] !in order[1..] && Descending(order[1..], values, n)
    ensures order != [] ==> forall x | x in order :: values[x] <= values[order[0]]
  {
  }

  lemma PushLargest(order: seq<nat>, values: seq<real>, n: nat, first: nat)
    requires n <= |values| && first < n && first !in order && Descending(order, values, n)
    requires forall x | x in order :: x < n && values[x] <= values[first]
    ensures Descending([first] + order, values, n)
  {
  }

  /** `order` of allocateWidths: a stable sort of the positions by falling width. */
  function Order(values: seq<real>, n: nat): (r: seq<nat>)
    requires n <= |values|
    ensures |r| == n && Descending(r, values, n) && forall i: nat | i < n :: i in r
  {
    if n == 0 then []
    else
      var front := Order(values, n - 1);
      InsertDescends(front, values, n - 1);
      InsertPosition(front, values, n - 1)
  }

  // ---- draining the overshoot ----

  /** The first `done` positions of the order are down to the floor, the rest is untouched. */
  predicate Drained(order: seq<nat>, before: seq<real>, after: seq<real>, min: real, done: nat)
    requires |before| == |after| && Descending(order, before, |before|) && done <= |order|
  {
    && (forall k | 0 <= k < done :: after[order[k]] == min)
    && (forall k | done <= k < |order| :: after[order[k]] == before[order[k]])
  }

  /** What was taken came off the largest: all before position `at` of the order are down to the floor,
      all behind it are untouched. */
  predicate TakenFromLargest(order: seq<nat>, before: seq<real>, after: seq<real>, min: real, at: nat)
    requires |before| == |after| && Descending(order, before, |before|) && at < |order|
  {
    && (forall k | 0 <= k < at :: after[order[k]] == min)
    && min <= after[order[at]] <= before[order[at]]
    && (forall k | at < k < |order| :: after[order[k]] == before[order[k]])
  }

  lemma DrainedStep(order: seq<nat>, before: seq<real>, now: seq<real>, min: real, p: nat, x: real)
    requires |before| == |now| && Descending(order, before, |before|) && p < |order|
    requires Drained(order, before, now, min, p)
    ensures x == min ==> Drained(order, before, now[order[p] := x], min, p + 1)
    ensures min <= x <= before[order[p]] ==> TakenFromLargest(order, before, now[order[p] := x], min, p)
  {
  }

  /** The floor leaves enough slack: once everything is down to it, nothing is left to take. */
  lemma AllAtFloor(widths: seq<real>, min: real, total: real)
    requires min * |widths| as real <= total && forall k | 0 <= k < |widths| :: widths[k] == min
    ensures Sum(widths) <= total
  {
    SumConst(|widths|, min);
    assert widths == Const(|widths|, min);
  }

  /** Take `drift` off the widths, largest first, never below `min`. */
  method Drain(widths: array<real>, total: real, min: real) returns (ghost order: seq<nat>, ghost at: nat)
    requires widths.Length > 0 && forall k | 0 <= k < widths.Length :: widths[k] >= min
    requires min * widths.Length as real <= total && Sum(widths[..]) > total
    modifies widths
    ensures total <= Sum(widths[..]) <= total + TOLERANCE
    ensures forall k | 0 <= k < widths.Length :: widths[k] >= min
    ensures order == Order(old(widths[..]), widths.Length) && at < |order|
    ensures TakenFromLargest(order, old(widths[..]), widths[..], min, at)
  {
    hide Order, Sum, Descending, Drained, TakenFromLargest;
    ghost var before := widths[..];
    var drift := Sum(widths[..]) - total;
    var positions := Order(widths[..], widths.Length);
    order := positions;
    at := 0;
    StartDrained(order, before, min);
    for p := 0 to |positions|
      invariant Sum(widths[..]) == total + drift && drift >= 0.0
      invariant forall k | 0 <= k < widths.Length :: widths[k] >= min
      invariant |before| == widths.Length && Descending(order, before, |before|) && Drained(order, before, widths[..], min, p)
    {
      InRange(order, before, p);
      var index := positions[p];
      var take := Min(widths[index] - min, drift);
      ghost var now := widths[..];
      SumUpdate(now, index, now[index] - take);
      DrainedStep(order, before, now, min, p, now[index] - take);
      Untouched(order, before, now, min, p);
      widths[index] := widths[index] - take;
      assert widths[..] == now[index := now[index] - take];
      drift := drift - take;
      if drift <= TOLERANCE {
        at := p;
        return;
      }
    }
    FullyDrained(order, before, widths[..], min);
    AllAtFloor(widths[..], min, total);
    at := |order| - 1;
  }

  lemma StartDrained(order: seq<nat>, before: seq<real>, min: real)
    requires Descending(order, before, |before|)
    ensures Drained(order, before, before, min, 0)
  {
  }

  lemma InRange(order: seq<nat>, before: seq<real>, p: nat)
    requires Descending(order, before, |before|) && p < |order|
    ensures order[p] < |before|
  {
  }

  lemma Untouched(order: seq<nat>, before: seq<real>, now: seq<real>, min: real, p: nat)
    requires |before| == |now| && Descending(order, before, |before|) && p < |order| && Drained(order, before, now, min, p)
    ensures now[order[p]] == before[order[p]]
  {
  }

  lemma FullyDrained(order: seq<nat>, before: seq<real>, now: seq<real>, min: real)
    requires |before| == |now| == |order| && |order| > 0 && Descending(order, before, |before|)
    requires forall i: nat | i < |order| :: i in order
    requires Drained(order, before, now, min, |order|)
    ensures forall k | 0 <= k < |now| :: now[k] == min
    ensures (forall k | 0 <= k < |before| :: before[k] >= min) ==> TakenFromLargest(order, before, now, min, |order| - 1)
  {
    forall k | 0 <= k < |now|
      ensures now[k] == min
    {
      assert k in order;
    }
  }

  // ---- allocateWidths ----

  /** Nothing negative, and the total kept. */
  predicate FairSplit(widths: seq<real>, total: real) {
    && (forall k | 0 <= k < |widths| :: widths[k] >= 0.0)
    && total <= Sum(widths) <= total + TOLERANCE
  }

  /** Raising to the floor never falls short, so the branch that tops up is not taken in exact arithmetic. */
  lemma SumRaised(shares: seq<real>, total: real, min: real)
    requires Sum(Positive(shares)) > 0.0 && total > 0.0
    ensures Sum(Raised(Proportional(shares, total), min)) >= total
  {
    ProportionalSum(shares, total);
    SumMonotone(Proportional(shares, total), Raised(Proportional(shares, total), min));
  }

  /** The first of the largest. */
  predicate FirstLargest(widths: seq<real>, p: nat) {
    && p < |widths|
    && (forall k | 0 <= k < |widths| :: widths[k] <= widths[p])
    && (forall k | 0 <= k < p :: widths[k] < widths[p])
  }

  /** Move what is missing onto the largest width. */
  method TopUp(widths: array<real>, drift: real, total: real)
    requires widths.Length > 0 && drift < 0.0 && Sum(widths[..]) == total + drift
    modifies widths
    ensures Sum(widths[..]) == total
    ensures exists largest: nat | largest < widths.Length ::
      && FirstLargest(old(widths[..]), largest)
      && widths[..] == old(widths[..])[largest := old(widths[..])[largest] - drift]
  {
    var largest: nat := 0;
    for i := 1 to widths.Length
      invariant largest < i && FirstLargest(widths[..i], largest)
    {
      assert widths[..i + 1] == widths[..i] + [widths[i]];
      if widths[i] > widths[largest] {
        largest := i;
      }
    }
    ghost var was := widths[..];
    assert widths[..widths.Length] == was;
    SumUpdate(was, largest, was[largest] - drift);
    widths[largest] := widths[largest] - drift;
    assert widths[..] == was[largest := was[largest] - drift];
  }

  /** The split with a floor: nothing below it, the total kept, and the overshoot taken from the largest. */
  ghost predicate FloorSplit(shares: seq<real>, total: real, min: real, widths: seq<real>)
    requires Sum(Positive(shares)) > 0.0
  {
    var before := Raised(Proportional(shares, total), min);
    && |widths| == |shares|
    && (forall k | 0 <= k < |widths| :: widths[k] >= min)
    && total <= Sum(widths) <= total + TOLERANCE
    && (Sum(before) == total ==> widths == before)
    && (Sum(before) > total ==> exists at: nat | at < |shares| ::
          TakenFromLargest(Order(before, |shares|), before, widths, min, at))
  }

  /** What allocateWidths returns, case by case. */
  ghost predicate Allocated(shares: seq<real>, total: real, min: real, widths: seq<real>) {
    var n := |shares|;
    if n == 0 then widths == []
    else if total <= 0.0 then widths == Const(n, 0.0)
    else if Sum(Positive(shares)) <= 0.0 then widths == Const(n, total / n as real)
    else if min * n as real > total then widths == Proportional(shares, total)
    else FloorSplit(shares, total, min, widths)
  }

  /** Non-negative widths that sum to the total within the tolerance. */
  lemma AllocationIsFair(shares: seq<real>, total: real, min: real, widths: seq<real>)
    requires Allocated(shares, total, min, widths)
    requires shares != [] && total > 0.0
    ensures |widths| == |shares| && FairSplit(widths, total)
  {
    hide Sum, Positive, Order, TakenFromLargest, Raised, Proportional;
    var n := |shares|;
    if Sum(Positive(shares)) <= 0.0 {
      EvenShares(n, total);
    } else if min * n as real > total {
      ProportionalSum(shares, total);
    } else if min < 0.0 {
      NothingToRaise(shares, total, min);
    }
  }

  lemma EvenShares(n: nat, total: real)
    requires n > 0 && total > 0.0
    ensures Sum(Const(n, total / n as real)) == total && total / n as real >= 0.0
  {
    SumConst(n, total / n as real);
    assert n as real * (total / n as real) == total;
  }

  /** A floor below zero raises nothing. */
  lemma NothingToRaise(shares: seq<real>, total: real, min: real)
    requires Sum(Positive(shares)) > 0.0 && total > 0.0 && min < 0.0
    ensures Sum(Raised(Proportional(shares, total), min)) == total
    ensures forall k | 0 <= k < |shares| :: Raised(Proportional(shares, total), min)[k] >= 0.0
  {
    ProportionalSum(shares, total);
    assert Raised(Proportional(shares, total), min) == Proportional(shares, total);
  }

  lemma SomeShare(shares: seq<real>)
    requires Sum(Positive(shares)) > 0.0
    ensures shares != []
  {
  }

  method WithFloor(shares: seq<real>, total: real, min: real) returns (widths: array<real>)
    requires total > 0.0 && Sum(Positive(shares)) > 0.0 && min * |shares| as real <= total
    ensures fresh(widths) && FloorSplit(shares, total, min, widths[..])
  {
    hide Order, TakenFromLargest, Positive, Sum;
    ghost var before := Raised(Proportional(shares, total), min);
    var parts := Proportional(shares, total);
    widths := new real[|shares|](k requires 0 <= k < |shares| => Max(min, parts[k]));
    assert widths[..] == before;
    SomeShare(shares);
    var drift := Sum(widths[..]) - total;
    if drift > 0.0 {
      ghost var order, at := Drain(widths, total, min);
    } else if drift < 0.0 {
      TopUp(widths, drift, total);
    }
  }

  method AllocateWidths(shares: seq<real>, total: real, min: real) returns (widths: array<real>)
    ensures fresh(widths) && Allocated(shares, total, min, widths[..])
  {
    hide Sum, Positive, Raised, Order, TakenFromLargest, FloorSplit;
    var n := |shares|;
    if n == 0 {
      widths := new real[0];
      return;
    }
    if total <= 0.0 {
      widths := new real[n](_ => 0.0);
      assert widths[..] == Const(n, 0.0);
      return;
    }
    var sum := Sum(Positive(shares));
    if sum <= 0.0 {
      widths := new real[n](_ => total / n as real);
      assert widths[..] == Const(n, total / n as real);
      return;
    }
    if min * n as real > total {
      var parts := Proportional(shares, total);
      widths := new real[n](k requires 0 <= k < n => parts[k]);
      assert widths[..] == parts;
      return;
    }
    widths := WithFloor(shares, total, min);
  }

  // ---- layoutContextBar ----

  datatype Item = Item(id: string, caption: string, tokens: real)

  datatype Bucket = Bucket(id: string, caption: string, tokens: real, children: seq<Item>)

  datatype Slice = Slice(id: string, caption: string, tokens: real, x: real, width: real)

  datatype Layout = Layout(used: real, slices: seq<Slice>, children: map<string, seq<Slice>>)

  const DEFAULT_MIN_USED := 10.0
  const DEFAULT_MIN_SEGMENT := 2.0

  /** One behind the other from `x` on, filling `width` up to the tolerance. */
  predicate Tiles(slices: seq<Slice>, x: real, width: real) {
    && |slices| > 0 && slices[0].x == x
    && (forall k | 0 < k < |slices| :: slices[k].x == slices[k - 1].x + slices[k - 1].width)
    && (forall k | 0 <= k < |slices| :: slices[k].width >= 0.0)
    && x + width <= slices[|slices| - 1].x + slices[|slices| - 1].width <= x + width + TOLERANCE
  }

  function VisibleBuckets(buckets: seq<Bucket>): (r: seq<Bucket>)
    ensures forall k | 0 <= k < |r| :: r[k].tokens > 0.0
  {
    if buckets == [] then []
    else (if buckets[0].tokens > 0.0 then [buckets[0]] else []) + VisibleBuckets(buckets[1..])
  }

  function VisibleItems(items: seq<Item>): (r: seq<Item>)
    ensures forall k | 0 <= k < |r| :: r[k].tokens > 0.0
  {
    if items == [] then [] else (if items[0].tokens > 0.0 then [items[0]] else []) + VisibleItems(items[1..])
  }

  /** The share of the window that is filled; a window that is not known counts as full. */
  function Fill(tokens: real, window: Option<real>): (fill: real)
    ensures tokens > 0.0 ==> 0.0 < fill <= 1.0
  {
    if window.Some? && window.value > 0.0 then Min(1.0, tokens / window.value) else 1.0
  }

  /** How much of the bar is coloured: the real fill, but never less than a visible sliver. */
  function UsedWidth(width: real, tokens: real, window: Option<real>, minUsed: real): real {
    var fill := Fill(tokens, window);
    Min(width, Max(if fill > 0.0 then Min(minUsed, width) else 0.0, width * fill))
  }

  lemma UsedWidthInside(width: real, tokens: real, window: Option<real>, minUsed: real)
    requires width > 0.0 && tokens > 0.0
    ensures 0.0 < UsedWidth(width, tokens, window, minUsed) <= width
  {
    ProductPositive(width, Fill(tokens, window));
  }

  lemma ProductPositive(a: real, b: real)
    requires a > 0.0 && b > 0.0
    ensures a * b > 0.0
  {
  }

  function Tokens(items: seq<Item>): (r: seq<real>)
    ensures |r| == |items| && forall k | 0 <= k < |r| :: r[k] == items[k].tokens
  {
    seq(|items|, k requires 0 <= k < |items| => items[k].tokens)
  }

  function Widths(slices: seq<Slice>): (r: seq<real>)
    ensures |r| == |slices| && forall k | 0 <= k < |r| :: r[k] == slices[k].width
  {
    seq(|slices|, k requires 0 <= k < |slices| => slices[k].width)
  }

  predicate SameItem(item: Item, slice: Slice) {
    slice.id == item.id && slice.caption == item.caption && slice.tokens == item.tokens
  }

  /** The items in their order, their widths split fairly, tiling `width` from `from` on. */
  ghost predicate Placed(items: seq<Item>, min: real, slices: seq<Slice>, from: real, width: real) {
    && |slices| == |items|
    && (forall k | 0 <= k < |items| :: SameItem(items[k], slices[k]))
    && Tiles(slices, from, width)
    && Allocated(Tokens(items), width, min, Widths(slices))
  }

  /** Place items one behind the other inside a parent. */
  method PlaceItems(kids: seq<Item>, from: real, width: real, min: real) returns (slices: seq<Slice>)
    requires kids != [] && width > 0.0
    ensures Placed(kids, min, slices, from, width)
  {
    hide Allocated, Sum;
    var shares := Tokens(kids);
    var parts := AllocateWidths(shares, width, min);
    var widths := parts[..];
    AllocationIsFair(shares, width, min, widths);
    var x := from;
    slices := [];
    PrefixSums(widths, 0);
    for k := 0 to |kids|
      invariant |slices| == k && x == from + Sum(widths[..k])
      invariant forall j | 0 <= j < k :: SameItem(kids[j], slices[j])
      invariant forall j | 0 <= j < k :: slices[j].width == widths[j]
      invariant k > 0 ==> slices[0].x == from && slices[k - 1].x + slices[k - 1].width == x
      invariant forall j | 0 < j < k :: slices[j].x == slices[j - 1].x + slices[j - 1].width
    {
      PrefixSums(widths, k + 1);
      slices := slices + [Slice(kids[k].id, kids[k].caption, kids[k].tokens, x, widths[k])];
      x := x + widths[k];
    }
    assert widths[..|kids|] == widths;
    assert Widths(slices) == widths;
  }

  lemma PrefixSums(xs: seq<real>, k: nat)
    requires k <= |xs|
    ensures Sum(xs[..k]) == if k == 0 then 0.0 else Sum(xs[..k - 1]) + xs[k - 1]
  {
    if k > 0 {
      assert xs[..k] == xs[..k - 1] + [xs[k - 1]];
      SumPush(xs[..k - 1], xs[k - 1]);
    }
  }

  function AsItems(buckets: seq<Bucket>): (r: seq<Item>)
    ensures |r| == |buckets|
    ensures forall k | 0 <= k < |r| :: r[k] == Item(buckets[k].id, buckets[k].caption, buckets[k].tokens)
  {
    seq(|buckets|, k requires 0 <= k < |buckets| => Item(buckets[k].id, buckets[k].caption, buckets[k].tokens))
  }

  predicate HasChildren(bucket: Bucket, slice: Slice) {
    VisibleItems(bucket.children) != [] && slice.width > 0.0
  }

  /** The children of bucket `k` lie inside its slice. */
  ghost predicate ChildrenInside(kids: seq<Slice>, visible: seq<Bucket>, slices: seq<Slice>, min: real, k: nat)
    requires k < |slices| == |visible|
  {
    && HasChildren(visible[k], slices[k])
    && Placed(VisibleItems(visible[k].children), Min(1.0, min), kids, slices[k].x, slices[k].width)
  }

  /** The last bucket with this id among the first `n` that has children to show. */
  predicate LastWithChildren(id: string, visible: seq<Bucket>, slices: seq<Slice>, n: nat, k: nat)
    requires k < n <= |slices| == |visible|
  {
    && visible[k].id == id && HasChildren(visible[k], slices[k])
    && forall j | k < j < n && visible[j].id == id :: !HasChildren(visible[j], slices[j])
  }

  /** Each entry holds the children of the last bucket with that id. */
  ghost predicate ChildrenTile(children: map<string, seq<Slice>>, visible: seq<Bucket>, slices: seq<Slice>, min: real, n: nat)
    requires n <= |slices| == |visible|
  {
    && (forall id | id in children :: exists k: nat | k < n ::
          LastWithChildren(id, visible, slices, n, k) && ChildrenInside(children[id], visible, slices, min, k))
    && (forall k | 0 <= k < n && HasChildren(visible[k], slices[k]) :: visible[k].id in children)
  }

  /** The loop that fills `children`. */
  method PlaceChildren(visible: seq<Bucket>, slices: seq<Slice>, min: real) returns (children: map<string, seq<Slice>>)
    requires |slices| == |visible|
    ensures ChildrenTile(children, visible, slices, min, |visible|)
  {
    hide Placed, VisibleItems;
    children := map[];
    for i := 0 to |visible|
      invariant ChildrenTile(children, visible, slices, min, i)
    {
      ghost var was := children;
      if HasChildren(visible[i], slices[i]) {
        var kids := PlaceItems(VisibleItems(visible[i].children), slices[i].x, slices[i].width, Min(1.0, min));
        children := children[visible[i].id := kids];
        assert LastWithChildren(visible[i].id, visible, slices, i + 1, i);
      }
      forall id | id in children
        ensures exists k: nat | k < i + 1 ::
          LastWithChildren(id, visible, slices, i + 1, k) && ChildrenInside(children[id], visible, slices, min, k)
      {
        if HasChildren(visible[i], slices[i]) && id == visible[i].id {
          assert ChildrenInside(children[id], visible, slices, min, i);
        } else {
          var k: nat :| k < i && LastWithChildren(id, visible, slices, i, k)
            && ChildrenInside(was[id], visible, slices, min, k);
          assert LastWithChildren(id, visible, slices, i + 1, k);
        }
      }
    }
  }

  method LayoutContextBar(inputWidth: real, inputTokens: real, window: Option<real>, buckets: seq<Bucket>,
                          minUsedPx: Option<real>, minSegmentPx: Option<real>) returns (layout: Layout)
    ensures var visible, minSegment := VisibleBuckets(buckets), minSegmentPx.GetOr(DEFAULT_MIN_SEGMENT);
      if inputWidth <= 0.0 || inputTokens <= 0.0 || visible == [] then layout == Layout(0.0, [], map[])
      else
        && layout.used == UsedWidth(inputWidth, inputTokens, window, minUsedPx.GetOr(DEFAULT_MIN_USED))
        && 0.0 < layout.used <= inputWidth
        && Placed(AsItems(visible), minSegment, layout.slices, 0.0, layout.used)
        && ChildrenTile(layout.children, visible, layout.slices, minSegment, |visible|)
  {
    hide Placed, ChildrenTile, UsedWidth;
    var width := Max(0.0, inputWidth);
    var tokens := Max(0.0, inputTokens);
    var minUsed := minUsedPx.GetOr(DEFAULT_MIN_USED);
    var minSegment := minSegmentPx.GetOr(DEFAULT_MIN_SEGMENT);
    var visible := VisibleBuckets(buckets);
    if width <= 0.0 || tokens <= 0.0 || |visible| == 0 {
      return Layout(0.0, [], map[]);
    }
    UsedWidthInside(width, tokens, window, minUsed);
    var used := UsedWidth(width, tokens, window, minUsed);
    var slices := PlaceItems(AsItems(visible), 0.0, used, minSegment);
    PlacedLength(AsItems(visible), minSegment, slices, 0.0, used);
    var children := PlaceChildren(visible, slices, minSegment);
    layout := Layout(used, slices, children);
  }

  lemma PlacedLength(items: seq<Item>, min: real, slices: seq<Slice>, from: real, width: real)
    requires Placed(items, min, slices, from, width)
    ensures |slices| == |items|
  {
  }

  // ---- what is on show, and how wide ----

  lemma {:induction false} BucketsShown(buckets: seq<Bucket>) returns (from: seq<nat>)
    ensures Picks(buckets, (bucket: Bucket) => bucket.tokens > 0.0, VisibleBuckets(buckets), from)
  {
    var keep := (bucket: Bucket) => bucket.tokens > 0.0;
    if buckets == [] {
      PickNothing(keep);
      from := [];
    } else {
      var rest := BucketsShown(buckets[1..]);
      from := PickFirst(buckets[0], buckets[1..], keep, VisibleBuckets(buckets[1..]), rest);
      assert [buckets[0]] + buckets[1..] == buckets;
    }
  }

  lemma {:induction false} ItemsShown(items: seq<Item>) returns (from: seq<nat>)
    ensures Picks(items, (item: Item) => item.tokens > 0.0, VisibleItems(items), from)
  {
    var keep := (item: Item) => item.tokens > 0.0;
    if items == [] {
      PickNothing(keep);
      from := [];
    } else {
      var rest := ItemsShown(items[1..]);
      from := PickFirst(items[0], items[1..], keep, VisibleItems(items[1..]), rest);
      assert [items[0]] + items[1..] == items;
    }
  }

  /** A bucket has children to show if one of its children has tokens and its slice any width. */
  lemma HasChildrenIff(bucket: Bucket, slice: Slice)
    ensures HasChildren(bucket, slice)
      <==> slice.width > 0.0 && exists k :: 0 <= k < |bucket.children| && bucket.children[k].tokens > 0.0
  {
    hide VisibleItems;
    var from := ItemsShown(bucket.children);
    if VisibleItems(bucket.children) != [] {
      assert bucket.children[from[0]].tokens > 0.0;
    }
  }

  /** The part of the bar that the tokens are of the window: all of it when they fill the window or none is known. */
  predicate ShareIs(width: real, tokens: real, window: Option<real>, share: real) {
    if window.None? || window.value <= 0.0 || tokens >= window.value then share == width
    else share * window.value == width * tokens
  }

  /** That share is coloured, unless it is less than the least that may be, which is never more than the bar. */
  lemma UsedWidthIs(width: real, tokens: real, window: Option<real>, minUsed: real, share: real)
    requires width > 0.0 && tokens > 0.0 && ShareIs(width, tokens, window, share)
    ensures var least := if minUsed < width then minUsed else width;
      UsedWidth(width, tokens, window, minUsed) == if share < least then least else share
  {
    if window.Some? && window.value > 0.0 {
      FillIs(width, tokens, window.value, share);
    }
  }

  lemma FillIs(width: real, tokens: real, window: real, share: real)
    requires width > 0.0 && tokens > 0.0 && window > 0.0 && ShareIs(width, tokens, Some(window), share)
    ensures width * Min(1.0, tokens / window) == share && share <= width
  {
    var fill := tokens / window;
    assert fill * window == tokens;
    if tokens >= window {
      AtLeast(fill, 1.0, window);
    } else {
      AtLeast(1.0, fill, window);
      assert width * fill * window == width * tokens by {
        assert width * fill * window == width * (fill * window);
      }
      SameFactor(width * fill, share, window);
      AtLeast(1.0, fill, width);
    }
  }

  /** Factors in the order of their products. */
  lemma AtLeast(a: real, b: real, c: real)
    requires c > 0.0
    ensures a * c >= b * c <==> a >= b
  {
  }

  lemma SameFactor(a: real, b: real, c: real)
    requires c > 0.0 && a * c == b * c
    ensures a == b
  {
    AtLeast(a, b, c);
    AtLeast(b, a, c);
  }
}
