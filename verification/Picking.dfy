/** `xs.filter(keep)`, said by positions. */
module Picking {

  /** `ys` are the members of `xs` that `keep` holds of, all of them and in order; `from` says where they stand. */
  ghost predicate Picks<T(!new)>(xs: seq<T>, keep: T -> bool, ys: seq<T>, from: seq<nat>) {
    && |from| == |ys|
    && (forall k | 0 <= k < |from| :: from[k] < |xs| && xs[from[k]] == ys[k] && keep(ys[k]))
    && (forall j, k | 0 <= j < k < |from| :: from[j] < from[k])
    && (forall i: nat | i < |xs| && keep(xs[i]) :: i in from)
  }

  function OneOn(from: seq<nat>): (r: seq<nat>)
    ensures |r| == |from| && forall k | 0 <= k < |r| :: r[k] == from[k] + 1
  {
    seq(|from|, k requires 0 <= k < |from| => from[k] + 1)
  }

  lemma PickNothing<T(!new)>(keep: T -> bool)
    ensures Picks([], keep, [], [])
  {
  }

  lemma ShiftedHas<T(!new)>(x: T, rest: seq<T>, keep: T -> bool, ys: seq<T>, from: seq<nat>, i: nat)
    requires Picks(rest, keep, ys, from) && 0 < i <= |rest| && keep(rest[i - 1])
    ensures i in OneOn(from)
  {
    assert i - 1 in from;
    var k :| 0 <= k < |from| && from[k] == i - 1;
    assert OneOn(from)[k] == i;
  }

  lemma Shifted<T(!new)>(x: T, rest: seq<T>, keep: T -> bool, ys: seq<T>, from: seq<nat>)
    requires Picks(rest, keep, ys, from) && !keep(x)
    ensures Picks([x] + rest, keep, ys, OneOn(from))
  {
    var xs, all := [x] + rest, OneOn(from);
    forall k: nat | k < |all|
      ensures all[k] < |xs| && xs[all[k]] == ys[k] && keep(ys[k])
    {
      assert all[k] == from[k] + 1 && rest[from[k]] == ys[k];
    }
    forall i: nat | i < |xs| && keep(xs[i])
      ensures i in all
    {
      ShiftedHas(x, rest, keep, ys, from, i);
    }
  }

  lemma HeadedStand<T(!new)>(x: T, rest: seq<T>, keep: T -> bool, ys: seq<T>, from: seq<nat>, k: nat)
    requires Picks(rest, keep, ys, from) && keep(x) && k <= |from|
    ensures var at := ([0] + OneOn(from))[k];
      at < |rest| + 1 && ([x] + rest)[at] == ([x] + ys)[k] && keep(([x] + ys)[k])
  {
    if k > 0 {
      assert ([0] + OneOn(from))[k] == from[k - 1] + 1 && ([x] + ys)[k] == ys[k - 1];
    }
  }

  lemma HeadedRise(from: seq<nat>)
    requires forall j, k | 0 <= j < k < |from| :: from[j] < from[k]
    ensures var all := [0] + OneOn(from); forall j, k | 0 <= j < k < |all| :: all[j] < all[k]
  {
    var all := [0] + OneOn(from);
    forall j, k | 0 <= j < k < |all|
      ensures all[j] < all[k]
    {
      assert all[k] == from[k - 1] + 1;
      if j > 0 {
        assert all[j] == from[j - 1] + 1;
      }
    }
  }

  lemma HeadedHas<T(!new)>(x: T, rest: seq<T>, keep: T -> bool, ys: seq<T>, from: seq<nat>, i: nat)
    requires Picks(rest, keep, ys, from) && i <= |rest| && (i > 0 ==> keep(rest[i - 1]))
    ensures i in [0] + OneOn(from)
  {
    var all := [0] + OneOn(from);
    if i == 0 {
      assert all[0] == 0;
    } else {
      assert i - 1 in from;
      var k :| 0 <= k < |from| && from[k] == i - 1;
      assert all[k + 1] == i;
    }
  }

  lemma Headed<T(!new)>(x: T, rest: seq<T>, keep: T -> bool, ys: seq<T>, from: seq<nat>)
    requires Picks(rest, keep, ys, from) && keep(x)
    ensures Picks([x] + rest, keep, [x] + ys, [0] + OneOn(from))
  {
    var xs, zs, all := [x] + rest, [x] + ys, [0] + OneOn(from);
    HeadedRise(from);
    forall k: nat | k < |all|
      ensures all[k] < |xs| && xs[all[k]] == zs[k] && keep(zs[k])
    {
      HeadedStand(x, rest, keep, ys, from, k);
    }
    forall i: nat | i < |xs| && keep(xs[i])
      ensures i in all
    {
      HeadedHas(x, rest, keep, ys, from, i);
    }
  }

  /** One more in front. */
  lemma PickFirst<T(!new)>(x: T, rest: seq<T>, keep: T -> bool, ys: seq<T>, from: seq<nat>) returns (all: seq<nat>)
    requires Picks(rest, keep, ys, from)
    ensures Picks([x] + rest, keep, (if keep(x) then [x] else []) + ys, all)
  {
    hide Picks;
    if keep(x) {
      Headed(x, rest, keep, ys, from);
      all := [0] + OneOn(from);
    } else {
      Shifted(x, rest, keep, ys, from);
      assert [] + ys == ys;
      all := OneOn(from);
    }
  }

  lemma Behind<T(!new)>(front: seq<T>, x: T, keep: T -> bool, ys: seq<T>, from: seq<nat>)
    requires Picks(front, keep, ys, from)
    ensures keep(x) ==> Picks(front + [x], keep, ys + [x], from + [|front|])
    ensures !keep(x) ==> Picks(front + [x], keep, ys, from)
  {
    var xs, all := front + [x], from + [|front|];
    assert forall i | 0 <= i < |front| :: xs[i] == front[i];
    assert all[|from|] == |front|;
    forall i: nat | i < |front| && keep(xs[i])
      ensures i in from && i in all
    {
      assert keep(front[i]);
    }
  }

  /** One more behind. */
  lemma PickLast<T(!new)>(front: seq<T>, x: T, keep: T -> bool, ys: seq<T>, from: seq<nat>) returns (all: seq<nat>)
    requires Picks(front, keep, ys, from)
    ensures Picks(front + [x], keep, ys + (if keep(x) then [x] else []), all)
  {
    hide Picks;
    Behind(front, x, keep, ys, from);
    assert ys + [] == ys;
    all := if keep(x) then from + [|front|] else from;
  }
}
