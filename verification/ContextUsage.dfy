/**
 Token buckets of the context-usage panel (packages/contracts/src/context-usage.ts): estimates are
 scaled to the count the provider reported, in exact rationals, rounding halves up.
 */
module ContextUsage {
  import opened Picking

  function Max(a: int, b: int): int { if a < b then b else a }

  function Sum(xs: seq<int>): int {
    if xs == [] then 0 else Sum(xs[..|xs| - 1]) + xs[|xs| - 1]
  }

  lemma SumPush(xs: seq<int>, x: int)
    ensures Sum(xs + [x]) == Sum(xs) + x
  {
    assert (xs + [x])[..|xs|] == xs;
  }

  lemma {:induction false} SumCons(x: int, xs: seq<int>)
    ensures Sum([x] + xs) == x + Sum(xs)
  {
    if xs != [] {
      SumCons(x, xs[..|xs| - 1]);
      assert ([x] + xs)[..|xs|] == [x] + xs[..|xs| - 1];
    }
  }

  lemma {:induction false} SumUpdate(xs: seq<int>, i: nat, x: int)
    requires i < |xs|
    ensures Sum(xs[i := x]) == Sum(xs) - xs[i] + x
  {
    var n := |xs| - 1;
    if i == n {
      assert xs[i := x][..n] == xs[..n];
    } else {
      SumUpdate(xs[..n], i, x);
      assert xs[i := x][..n] == xs[..n][i := x];
    }
  }

  lemma {:induction false} SumBound(xs: seq<int>, bound: int)
    requires forall k | 0 <= k < |xs| :: xs[k] <= bound
    ensures Sum(xs) <= |xs| * bound
  {
    if xs != [] {
      SumBound(xs[..|xs| - 1], bound);
    }
  }

  // ---- rounding each part on its own ----

  /** `part * tokens / total`, halves up. */
  function Rounded(part: nat, total: nat, tokens: nat): (r: nat)
    requires total > 0
    ensures 2 * total * r <= 2 * tokens * part + total < 2 * total * r + 2 * total
  {
    var doubled, unit := 2 * tokens * part + total, 2 * total;
    Euclid(doubled, unit);
    doubled / unit
  }

  lemma Euclid(a: int, b: int)
    requires a >= 0 && b > 0
    ensures a / b >= 0 && b * (a / b) <= a < b * (a / b) + b
  {
    assert a == b * (a / b) + a % b;
  }

  function Parts(estimates: seq<nat>, total: nat, tokens: nat): (r: seq<nat>)
    requires total > 0
    ensures |r| == |estimates| && forall k | 0 <= k < |r| :: r[k] == Rounded(estimates[k], total, tokens)
  {
    seq(|estimates|, k requires 0 <= k < |estimates| => Rounded(estimates[k], total, tokens))
  }

  /** `n` parts that sum to `sum` are off by at most `n` halves from their share of `tokens`. */
  predicate WithinHalves(sum: int, share: int, total: nat, tokens: nat, n: nat) {
    2 * tokens * share - n * total <= 2 * total * sum <= 2 * tokens * share + n * total
  }

  lemma OnePart(part: nat, total: nat, tokens: nat)
    requires total > 0
    ensures WithinHalves(Rounded(part, total, tokens), part, total, tokens, 1)
  {
  }

  lemma OneMorePart(sum: int, share: int, part: int, portion: int, total: nat, tokens: nat, n: nat)
    requires WithinHalves(sum, share, total, tokens, n) && WithinHalves(part, portion, total, tokens, 1)
    ensures WithinHalves(sum + part, share + portion, total, tokens, n + 1)
  {
    Distribute(2 * total, sum, part);
    Distribute(2 * tokens, share, portion);
    Distribute(total, n, 1);
    assert (n + 1) * total == n * total + total;
  }

  /** Each rounding is off by at most one half. */
  lemma {:induction false} RoundingError(estimates: seq<nat>, total: nat, tokens: nat)
    requires total > 0
    ensures WithinHalves(Sum(Parts(estimates, total, tokens)), Sum(estimates), total, tokens, |estimates|)
  {
    hide WithinHalves, Rounded;
    if estimates == [] {
      NoParts(total, tokens);
    } else {
      var n := |estimates| - 1;
      var parts := Parts(estimates, total, tokens);
      RoundingError(estimates[..n], total, tokens);
      assert parts[..n] == Parts(estimates[..n], total, tokens);
      OnePart(estimates[n], total, tokens);
      OneMorePart(Sum(parts[..n]), Sum(estimates[..n]), parts[n], estimates[n], total, tokens, n);
    }
  }

  lemma NoParts(total: nat, tokens: nat)
    ensures WithinHalves(0, 0, total, tokens, 0)
  {
  }

  lemma Distribute(a: int, b: int, c: int)
    ensures a * (b + c) == a * b + a * c
  {
  }

  lemma Cancel(a: int, x: int, y: int)
    requires a > 0 && a * x < a * y
    ensures x < y
  {
    if x >= y {
      Monotone(a, y, x);
    }
  }

  lemma Monotone(a: int, x: int, y: int)
    requires a > 0 && x <= y
    ensures a * x <= a * y
  {
  }

  /** The drift of `n` rounded parts is at most `n` halves. */
  lemma DriftBound(estimates: seq<nat>, total: nat, tokens: nat)
    requires total == Sum(estimates) > 0
    ensures 2 * (Sum(Parts(estimates, total, tokens)) - tokens) <= |estimates|
  {
    hide WithinHalves, Parts, Sum;
    RoundingError(estimates, total, tokens);
    WholeDrift(Sum(Parts(estimates, total, tokens)), total, tokens, |estimates|);
  }

  lemma WholeDrift(sum: int, total: nat, tokens: nat, n: nat)
    requires total > 0 && WithinHalves(sum, total, total, tokens, n)
    ensures 2 * (sum - tokens) <= n
  {
    assert total * (2 * sum) == 2 * total * sum;
    assert total * (2 * tokens + n) == 2 * tokens * total + n * total by {
      Distribute(total, 2 * tokens, n);
    }
    if 2 * sum > 2 * tokens + n {
      MonotoneStrict(total, 2 * tokens + n, 2 * sum);
    }
  }

  lemma MonotoneStrict(a: int, x: int, y: int)
    requires a > 0 && x < y
    ensures a * x < a * y
  {
  }

  // ---- parking the drift on one part ----

  /** Part `p` absorbs what the rounding is off by, but never goes below zero. */
  function Adjusted(parts: seq<nat>, p: nat, tokens: int): (r: seq<nat>)
    requires p < |parts|
    ensures |r| == |parts|
  {
    parts[p := Max(0, parts[p] + (tokens - Sum(parts)))]
  }

  /** The sum never falls short; it is exact if and only if the part can take the whole drift,
      and where it is not, the part was clipped. */
  lemma AdjustedSum(parts: seq<nat>, p: nat, tokens: int)
    requires p < |parts|
    ensures Sum(Adjusted(parts, p, tokens)) >= tokens
    ensures Sum(Adjusted(parts, p, tokens)) == tokens <==> parts[p] >= Sum(parts) - tokens
    ensures Sum(Adjusted(parts, p, tokens)) > tokens ==> Adjusted(parts, p, tokens)[p] == 0
  {
    SumUpdate(parts, p, Max(0, parts[p] + (tokens - Sum(parts))));
  }

  /** The first of the largest. */
  predicate FirstLargest(parts: seq<int>, p: nat) {
    && p < |parts|
    && (forall k | 0 <= k < |parts| :: parts[k] <= parts[p])
    && (forall k | 0 <= k < p :: parts[k] < parts[p])
  }

  /** The largest of `n` is at least their mean. */
  lemma LargestIsMean(parts: seq<nat>, p: nat)
    requires FirstLargest(parts, p)
    ensures |parts| * parts[p] >= Sum(parts)
  {
    SumBound(parts, parts[p]);
  }

  // ---- scaleToReported ----

  datatype BucketId = System | Rules | Memory | Skills | Tools | CloudTools | Mcp | Subagents | Summarized | Conversation

  const CONTEXT_BUCKET_ORDER: seq<BucketId> :=
    [System, Rules, Memory, Skills, Tools, CloudTools, Mcp, Subagents, Summarized, Conversation]

  const BUCKETS: nat := 10
  /** Where Conversation stands in the order. */
  const TALK: nat := 9

  /** Which bucket the loop leaves in `largest`. It starts on the conversation, which keeps its raw estimate
      until its own turn comes last; so the drift is parked there whenever no other part beats that estimate. */
  predicate ParkedOn(estimates: seq<nat>, parts: seq<nat>, p: nat)
    requires |estimates| == |parts| == BUCKETS
  {
    if forall k | 0 <= k < TALK :: parts[k] <= estimates[TALK] then p == TALK else FirstLargest(parts, p)
  }

  /** Where `largest` points after the first `n` buckets. */
  predicate LargestSoFar(estimates: seq<nat>, parts: seq<nat>, n: nat, p: nat)
    requires |estimates| == |parts| == BUCKETS && n <= TALK
  {
    if forall k | 0 <= k < n :: parts[k] <= estimates[TALK] then p == TALK
    else p < n && parts[p] > estimates[TALK] && FirstLargest(parts[..n], p)
  }

  /** `{ ...estimates }` with the first `n` overwritten. */
  predicate ScaledSoFar(scaled: seq<int>, estimates: seq<nat>, parts: seq<nat>, n: nat)
    requires |estimates| == |parts| == BUCKETS && n <= BUCKETS
  {
    && |scaled| == BUCKETS
    && (forall k | 0 <= k < n :: scaled[k] == parts[k])
    && (forall k | n <= k < BUCKETS :: scaled[k] == estimates[k])
  }

  lemma LargestStep(estimates: seq<nat>, parts: seq<nat>, scaled: seq<int>, n: nat, p: nat)
    requires |estimates| == |parts| == BUCKETS && n < TALK
    requires LargestSoFar(estimates, parts, n, p) && ScaledSoFar(scaled, estimates, parts, n)
    ensures p < BUCKETS
    ensures LargestSoFar(estimates, parts, n + 1, if parts[n] > scaled[p] then n else p)
  {
    assert parts[..n + 1] == parts[..n] + [parts[n]];
  }

  lemma LargestLast(estimates: seq<nat>, parts: seq<nat>, scaled: seq<int>, p: nat)
    requires |estimates| == |parts| == BUCKETS
    requires LargestSoFar(estimates, parts, TALK, p) && ScaledSoFar(scaled, estimates, parts, BUCKETS)
    ensures p < BUCKETS
    ensures ParkedOn(estimates, parts, if parts[TALK] > scaled[p] then TALK else p)
  {
    assert parts == parts[..TALK] + [parts[TALK]];
  }

  /** What scaleToReported returns, when there is anything to scale. */
  ghost predicate ScaledTo(estimates: seq<nat>, total: nat, tokens: nat, scaled: seq<int>)
    requires |estimates| == BUCKETS && total > 0
  {
    var parts := Parts(estimates, total, tokens);
    exists p: nat | p < BUCKETS :: ParkedOn(estimates, parts, p) && scaled == Adjusted(parts, p, tokens)
  }

  method ScaleToReported(estimates: seq<nat>, total: nat, tokens: nat) returns (resolved: seq<int>)
    requires |estimates| == BUCKETS
    ensures total == 0 ==> resolved == estimates[TALK := tokens]
    ensures total > 0 ==> ScaledTo(estimates, total, tokens, resolved)
  {
    hide ParkedOn, LargestSoFar, Rounded, Sum;
    if total <= 0 {
      return estimates[TALK := tokens];
    }
    ghost var parts := Parts(estimates, total, tokens);
    var scaled := new int[BUCKETS](k requires 0 <= k < BUCKETS => estimates[k]);
    var largest: nat := TALK;
    var sum := 0;
    NothingYet(estimates, parts);
    for i := 0 to TALK
      invariant ScaledSoFar(scaled[..], estimates, parts, i)
      invariant LargestSoFar(estimates, parts, i, largest)
      invariant sum == Sum(parts[..i])
    {
      LargestStep(estimates, parts, scaled[..], i, largest);
      scaled[i] := Rounded(estimates[i], total, tokens);
      SumPush(parts[..i], parts[i]);
      assert parts[..i + 1] == parts[..i] + [parts[i]];
      sum := sum + scaled[i];
      if scaled[i] > scaled[largest] {
        largest := i;
      }
    }
    scaled[TALK] := Rounded(estimates[TALK], total, tokens);
    SumPush(parts[..TALK], parts[TALK]);
    assert parts == parts[..TALK] + [parts[TALK]];
    sum := sum + scaled[TALK];
    LargestLast(estimates, parts, scaled[..], largest);
    if scaled[TALK] > scaled[largest] {
      largest := TALK;
    }
    assert scaled[..] == parts;
    scaled[largest] := Max(0, scaled[largest] + (tokens - sum));
    assert scaled[..] == Adjusted(parts, largest, tokens);
    resolved := scaled[..];
  }

  lemma NothingYet(estimates: seq<nat>, parts: seq<nat>)
    requires |estimates| == |parts| == BUCKETS
    ensures LargestSoFar(estimates, parts, 0, TALK) && Sum(parts[..0]) == 0
  {
  }

  /** The report is taken for the whole context only from half the fixed prefix on. */
  predicate HalfPrefix(estimates: seq<nat>, total: nat, tokens: nat)
    requires |estimates| == BUCKETS
  {
    2 * tokens >= total - estimates[TALK]
  }

  /** From 63 tokens on the buckets sum to the report exactly. */
  lemma ReportedSumIsExact(estimates: seq<nat>, total: nat, tokens: nat, scaled: seq<int>)
    requires |estimates| == BUCKETS && total == Sum(estimates) > 0
    requires ScaledTo(estimates, total, tokens, scaled)
    requires HalfPrefix(estimates, total, tokens) && tokens >= 63
    ensures Sum(scaled) == tokens
  {
    hide ParkedOn, FirstLargest, Rounded, Sum;
    var parts := Parts(estimates, total, tokens);
    var p: nat :| p < BUCKETS && ParkedOn(estimates, parts, p) && scaled == Adjusted(parts, p, tokens);
    AdjustedSum(parts, p, tokens);
    DriftBound(estimates, total, tokens);
    ParkedCases(estimates, parts, p);
    if FirstLargest(parts, p) {
      LargestIsMean(parts, p);
    } else {
      TalkTakesTheDrift(estimates, total, tokens);
    }
  }

  lemma ParkedCases(estimates: seq<nat>, parts: seq<nat>, p: nat)
    requires |estimates| == |parts| == BUCKETS && ParkedOn(estimates, parts, p)
    ensures FirstLargest(parts, p) || (p == TALK && forall k | 0 <= k < TALK :: parts[k] <= estimates[TALK])
  {
  }

  /** Parked on a conversation that may not be the largest part: it still can take the drift, for otherwise
      its estimate would be at most 7 and so would each of the nine other parts. */
  lemma TalkTakesTheDrift(estimates: seq<nat>, total: nat, tokens: nat)
    requires |estimates| == BUCKETS && total == Sum(estimates) > 0
    requires HalfPrefix(estimates, total, tokens) && tokens >= 63
    requires forall k | 0 <= k < TALK :: Parts(estimates, total, tokens)[k] <= estimates[TALK]
    ensures Parts(estimates, total, tokens)[TALK] >= Sum(Parts(estimates, total, tokens)) - tokens
  {
    var parts := Parts(estimates, total, tokens);
    var talk := estimates[TALK];
    var others := Sum(parts[..TALK]);
    if others > tokens {
      RoundingError(estimates[..TALK], total, tokens);
      assert Parts(estimates[..TALK], total, tokens) == parts[..TALK];
      SmallTalk(total, tokens, talk, others);
      SumBound(parts[..TALK], talk);
    }
  }

  lemma SmallTalk(total: nat, tokens: nat, talk: nat, others: int)
    requires total > 0 && tokens >= 63 && 2 * tokens >= total - talk && others > tokens
    requires WithinHalves(others, total - talk, total, tokens, 9)
    ensures talk <= 7
  {
    Monotone(2 * total, tokens + 1, others);
    Distribute(2 * total, tokens, 1);
    Distribute(2 * tokens, total - talk, talk);
    assert 2 * total * tokens == 2 * tokens * total;
    Distribute(talk, 2 * tokens, -7);
    assert talk * (2 * tokens) == 2 * tokens * talk;
    assert (2 * tokens - 7) * talk <= 14 * tokens;
    Cancel(2 * tokens - 7, talk, 8);
  }

  /** At 62 it can miss: nine buckets round up, the conversation is chosen and cannot give that much back. */
  lemma ReportedSumCanExceed()
    ensures exists estimates: seq<nat>, scaled ::
      |estimates| == BUCKETS && Sum(estimates) > 0 && HalfPrefix(estimates, Sum(estimates), 62)
      && ScaledTo(estimates, Sum(estimates), 62, scaled) && Sum(scaled) == 63
  {
    var estimates, parts := Repeated(9, 13) + [7], Repeated(9, 7) + [4];
    SumRepeated(9, 13);
    SumRepeated(9, 7);
    SumPush(Repeated(9, 13), 7);
    SumPush(Repeated(9, 7), 4);
    SumPush(Repeated(9, 7), 0);
    assert Parts(estimates, 124, 62) == parts;
    assert ParkedOn(estimates, parts, TALK);
    assert Adjusted(parts, TALK, 62) == Repeated(9, 7) + [0];
    assert ScaledTo(estimates, 124, 62, Adjusted(parts, TALK, 62));
  }

  function Repeated(n: nat, x: nat): (r: seq<nat>)
    ensures |r| == n && forall k | 0 <= k < n :: r[k] == x
  {
    seq(n, _ => x)
  }

  lemma {:induction false} SumRepeated(n: nat, x: nat)
    ensures Sum(Repeated(n, x)) == n * x
  {
    if n > 0 {
      SumRepeated(n - 1, x);
      assert Repeated(n, x)[..n - 1] == Repeated(n - 1, x);
      Distribute(x, n - 1, 1);
    }
  }

  // ---- scaleItems ----

  datatype Item = Item(id: string, caption: string, tokens: int)

  function Positive(items: seq<Item>): (r: seq<Item>)
    ensures forall item | item in r :: item.tokens > 0 && item in items
  {
    if items == [] then []
    else if items[0].tokens > 0 then [items[0]] + Positive(items[1..])
    else Positive(items[1..])
  }

  function Weights(items: seq<Item>): (r: seq<nat>)
    ensures |r| == |items| && forall k | 0 <= k < |r| :: r[k] == Max(0, items[k].tokens)
  {
    seq(|items|, k requires 0 <= k < |items| => Max(0, items[k].tokens))
  }

  function WithTokens(items: seq<Item>, tokens: seq<nat>): (r: seq<Item>)
    requires |items| == |tokens|
    ensures |r| == |items| && forall k | 0 <= k < |r| :: r[k] == items[k].(tokens := tokens[k])
  {
    seq(|items|, k requires 0 <= k < |items| => items[k].(tokens := tokens[k]))
  }

  lemma WeightsCons(item: Item, items: seq<Item>)
    ensures Weights([item] + items) == [Max(0, item.tokens)] + Weights(items)
    ensures Sum(Weights([item] + items)) == Max(0, item.tokens) + Sum(Weights(items))
  {
    assert Weights([item] + items) == [Max(0, item.tokens)] + Weights(items);
    SumCons(Max(0, item.tokens), Weights(items));
  }

  lemma {:induction false} PositiveSum(items: seq<Item>)
    ensures Sum(Weights(Positive(items))) == Sum(Weights(items))
  {
    hide Sum, Weights;
    if items != [] {
      PositiveSum(items[1..]);
      assert items == [items[0]] + items[1..];
      WeightsCons(items[0], items[1..]);
      if items[0].tokens > 0 {
        WeightsCons(items[0], Positive(items[1..]));
      }
    } else {
      assert Positive(items) == items;
    }
  }

  lemma PositiveWeight(items: seq<Item>)
    requires items != [] && Positive(items) == items
    ensures Sum(Weights(items)) > 0
  {
    hide Sum, Weights;
    assert items[0] in Positive(items);
    assert items == [items[0]] + items[1..];
    WeightsCons(items[0], items[1..]);
    NotNegative(Weights(items[1..]));
  }

  lemma {:induction false} NotNegative(xs: seq<nat>)
    ensures Sum(xs) >= 0
  {
    if xs != [] {
      NotNegative(xs[..|xs| - 1]);
    }
  }

  lemma {:induction false} PositiveTwice(items: seq<Item>)
    ensures Positive(Positive(items)) == Positive(items)
  {
    if items != [] {
      PositiveTwice(items[1..]);
      assert ([items[0]] + Positive(items[1..]))[1..] == Positive(items[1..]);
    }
  }

  /** The weights rounded onto the parent, the drift parked on the first largest part. */
  ghost predicate Apportioned(weights: seq<nat>, parent: nat, adjusted: seq<nat>) {
    && Sum(weights) > 0
    && exists p: nat | p < |weights| ::
         var parts := Parts(weights, Sum(weights), parent);
         FirstLargest(parts, p) && adjusted == Adjusted(parts, p, parent)
  }

  /** What scaleItems returns. */
  ghost predicate ItemsScaled(items: seq<Item>, parent: int, scaled: seq<Item>) {
    var shown := Positive(items);
    if shown == [] || parent <= 0 then scaled == []
    else exists tokens: seq<nat> | |tokens| == |shown| ::
        Apportioned(Weights(shown), parent, tokens) && scaled == Positive(WithTokens(shown, tokens))
  }

  method LargestItem(scaled: seq<Item>, ghost parts: seq<nat>) returns (largest: nat)
    requires |scaled| == |parts| > 0 && forall k | 0 <= k < |parts| :: scaled[k].tokens == parts[k]
    ensures FirstLargest(parts, largest) && largest < |scaled|
  {
    hide FirstLargest;
    largest := 0;
    OnlyOne(parts);
    for i := 1 to |scaled|
      invariant largest < i && FirstLargest(parts[..i], largest)
    {
      LargerOne(parts, i, largest);
      if scaled[i].tokens > scaled[largest].tokens {
        largest := i;
      }
    }
    assert parts[..|scaled|] == parts;
  }

  method ScaleItems(items: seq<Item>, parent: int) returns (scaled: seq<Item>)
    ensures ItemsScaled(items, parent, scaled)
  {
    hide Rounded, Sum, Positive, FirstLargest, Apportioned, Weights, Parts;
    var visible := Positive(items);
    if |visible| == 0 || parent <= 0 {
      return [];
    }
    PositiveTwice(items);
    PositiveWeight(visible);
    var sum := Sum(Weights(visible));
    var parts := Parts(Weights(visible), sum, parent);
    scaled := WithTokens(visible, parts);
    assert Weights(scaled) == parts;
    var drift := Sum(Weights(scaled)) - parent;
    var largest := LargestItem(scaled, parts);
    scaled := scaled[largest := scaled[largest].(tokens := Max(0, scaled[largest].tokens - drift))];
    ParkedShare(Weights(visible), parent, largest);
    assert scaled == WithTokens(visible, Adjusted(parts, largest, parent));
    scaled := Positive(scaled);
  }

  lemma OnlyOne(parts: seq<nat>)
    requires parts != []
    ensures FirstLargest(parts[..1], 0)
  {
  }

  lemma LargerOne(parts: seq<nat>, i: nat, p: nat)
    requires p < i < |parts| && FirstLargest(parts[..i], p)
    ensures FirstLargest(parts[..i + 1], if parts[i] > parts[p] then i else p)
  {
    assert parts[..i + 1] == parts[..i] + [parts[i]];
  }

  lemma ParkedShare(weights: seq<nat>, parent: nat, p: nat)
    requires p < |weights| && Sum(weights) > 0 && FirstLargest(Parts(weights, Sum(weights), parent), p)
    ensures Apportioned(weights, parent, Adjusted(Parts(weights, Sum(weights), parent), p, parent))
  {
  }

  /** With n children, every rounding up can be given back by the largest. */
  predicate Roomy(parent: int, n: nat) {
    2 * parent >= n * (n - 1)
  }

  /** The shares never sum to less than the parent, and they sum to it exactly when the largest can take the
      drift, which it always can once the parent holds n(n - 1) / 2 tokens. */
  lemma ApportionedSum(weights: seq<nat>, parent: nat, tokens: seq<nat>)
    requires Apportioned(weights, parent, tokens)
    ensures Sum(tokens) >= parent
    ensures var parts := Parts(weights, Sum(weights), parent);
      forall p: nat | FirstLargest(parts, p) :: Sum(tokens) == parent <==> parts[p] >= Sum(parts) - parent
    ensures Roomy(parent, |weights|) ==> Sum(tokens) == parent
  {
    hide Rounded, Sum, Adjusted, Roomy;
    var parts := Parts(weights, Sum(weights), parent);
    var p: nat :| p < |weights| && FirstLargest(parts, p) && tokens == Adjusted(parts, p, parent);
    AdjustedSum(parts, p, parent);
    LargestIsMean(parts, p);
    DriftBound(weights, Sum(weights), parent);
    if Roomy(parent, |weights|) {
      LargestTakesTheDrift(|weights|, parts[p], Sum(parts) - parent, parent);
    }
  }

  /** Children on show never sum to less than their parent, and to exactly it from n(n - 1) / 2 tokens on. */
  lemma ChildrenSum(items: seq<Item>, parent: nat, scaled: seq<Item>)
    requires ItemsScaled(items, parent, scaled) && Positive(items) != [] && parent > 0
    ensures Sum(Weights(scaled)) >= parent
    ensures Roomy(parent, |Positive(items)|) ==> Sum(Weights(scaled)) == parent
  {
    hide Sum, Positive, Apportioned, Roomy;
    var shown := Positive(items);
    var tokens: seq<nat> :| |tokens| == |shown| && Apportioned(Weights(shown), parent, tokens)
      && scaled == Positive(WithTokens(shown, tokens));
    ApportionedSum(Weights(shown), parent, tokens);
    PositiveSum(WithTokens(shown, tokens));
    assert Weights(WithTokens(shown, tokens)) == tokens;
  }

  lemma LargestTakesTheDrift(n: nat, largest: nat, drift: int, parent: nat)
    requires n > 0 && n * largest >= parent + drift && 2 * drift <= n && Roomy(parent, n)
    ensures largest >= drift
  {
    if drift > 0 {
      Monotone(n, 2 * drift - 2, n - 2);
      Distribute(n, n - 2, 1);
      assert n * (2 * largest) == 2 * (n * largest);
      Cancel(n, 2 * drift - 2, 2 * largest);
    }
  }

  /** Four children of equal weight under a parent of two: each half rounds up, and the first cannot give two back. */
  lemma SharesCanExceed()
    ensures Apportioned([1, 1, 1, 1], 2, [0, 1, 1, 1]) && Sum([0, 1, 1, 1]) == 3
  {
    var parts := Repeated(4, 1);
    assert [1, 1, 1, 1] == parts;
    SumRepeated(4, 1);
    SumUpdate(parts, 0, 0);
    assert Parts(parts, 4, 2) == parts && parts[0 := 0] == [0, 1, 1, 1];
    assert FirstLargest(parts, 0) && Adjusted(parts, 0, 2) == [0, 1, 1, 1];
  }

  lemma NonePositive()
    ensures Positive([]) == []
  {
  }

  lemma PositiveFirst(items: seq<Item>)
    requires items != []
    ensures Positive(items) == (if items[0].tokens > 0 then [items[0]] else []) + Positive(items[1..])
  {
  }

  /** The items that weigh something, in their order. */
  lemma {:induction false} PositivePicks(items: seq<Item>) returns (from: seq<nat>)
    ensures Picks(items, (item: Item) => item.tokens > 0, Positive(items), from)
  {
    hide Picks, Positive;
    var keep := (item: Item) => item.tokens > 0;
    if items == [] {
      PickNothing(keep);
      NonePositive();
      from := [];
    } else {
      var rest := PositivePicks(items[1..]);
      from := PickFirst(items[0], items[1..], keep, Positive(items[1..]), rest);
      assert [items[0]] + items[1..] == items;
      PositiveFirst(items);
    }
  }
}
