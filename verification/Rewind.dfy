/** Forgetting the tokens a `turn.rewind` takes back (foldRewoundEvents). */
module Rewind {
  import opened Events

  // ---- the program's two passes ----

  datatype Cut = Cut(replyId: string, fromSeq: real, at: nat)

  /** The cut a well-formed rewind at position `at` asks for. */
  function CutOf(e: RunEvent, at: nat): seq<Cut> {
    var fromSeq := e.data.fromSeq.GetOr(Finite(0.0));
    if e.kind.TurnRewind? && e.ReplyId() != "" && fromSeq.Finite? then [Cut(e.ReplyId(), fromSeq.value, at)] else []
  }

  function CutsOf(es: seq<RunEvent>, at: nat): seq<Cut> {
    if es == [] then [] else CutOf(es[0], at) + CutsOf(es[1..], at + 1)
  }

  predicate Cuts(cut: Cut, e: RunEvent, index: nat) {
    cut.replyId == e.ReplyId() && index < cut.at && e.data.workerSeq.Some? && e.data.workerSeq.value >= cut.fromSeq
  }

  predicate AnyCuts(cuts: seq<Cut>, e: RunEvent, index: nat) {
    exists k | 0 <= k < |cuts| :: Cuts(cuts[k], e, index)
  }

  predicate Kept(e: RunEvent, index: nat, cuts: seq<Cut>) {
    !e.kind.TurnRewind? && (e.ReplyId() == "" || e.data.workerSeq.None? || !AnyCuts(cuts, e, index))
  }

  function Filtered(es: seq<RunEvent>, at: nat, cuts: seq<Cut>): seq<RunEvent> {
    if es == [] then []
    else if Kept(es[0], at, cuts) then [es[0]] + Filtered(es[1..], at + 1, cuts)
    else Filtered(es[1..], at + 1, cuts)
  }

  function WithoutRewinds(es: seq<RunEvent>): seq<RunEvent> {
    if es == [] then []
    else if es[0].kind.TurnRewind? then WithoutRewinds(es[1..])
    else [es[0]] + WithoutRewinds(es[1..])
  }

  function FoldRewoundEvents(es: seq<RunEvent>): seq<RunEvent> {
    var cuts := CutsOf(es, 0);
    if cuts == [] then WithoutRewinds(es) else Filtered(es, 0, cuts)
  }

  // ---- what a rewind means ----

  /** `rewind` takes `e` back. */
  predicate Forgets(rewind: RunEvent, e: RunEvent) {
    var fromSeq := rewind.data.fromSeq.GetOr(Finite(0.0));
    && rewind.kind.TurnRewind?
    && rewind.ReplyId() != "" && rewind.ReplyId() == e.ReplyId()
    && fromSeq.Finite? && e.data.workerSeq.Some? && e.data.workerSeq.value >= fromSeq.value
  }

  predicate ForgottenBy(later: seq<RunEvent>, e: RunEvent) {
    exists k | 0 <= k < |later| :: Forgets(later[k], e)
  }

  /** `es` without what the rewinds of `later` take back. */
  function CutBy(es: seq<RunEvent>, later: seq<RunEvent>): seq<RunEvent> {
    if es == [] then []
    else if ForgottenBy(later, es[0]) then CutBy(es[1..], later)
    else [es[0]] + CutBy(es[1..], later)
  }

  /** Events that are no rewind and that no later rewind takes back. */
  function Remembered(es: seq<RunEvent>): seq<RunEvent> {
    if es == [] then []
    else if es[0].kind.TurnRewind? || ForgottenBy(es[1..], es[0]) then Remembered(es[1..])
    else [es[0]] + Remembered(es[1..])
  }

  /** A reader that sees one event at a time and truncates its log at every rewind. */
  function Online(log: seq<RunEvent>, es: seq<RunEvent>): seq<RunEvent>
    decreases |es|
  {
    if es == [] then log
    else Online(if es[0].kind.TurnRewind? then CutBy(log, [es[0]]) else log + [es[0]], es[1..])
  }

  // ---- the two passes compute that ----

  lemma AnyCutsConcat(a: seq<Cut>, b: seq<Cut>, e: RunEvent, index: nat)
    ensures AnyCuts(a + b, e, index) <==> AnyCuts(a, e, index) || AnyCuts(b, e, index)
  {
    if AnyCuts(a, e, index) {
      var k :| 0 <= k < |a| && Cuts(a[k], e, index);
      assert (a + b)[k] == a[k];
    }
    if AnyCuts(b, e, index) {
      var k :| 0 <= k < |b| && Cuts(b[k], e, index);
      assert (a + b)[|a| + k] == b[k];
    }
  }

  lemma ForgottenByConcat(xs: seq<RunEvent>, ys: seq<RunEvent>, e: RunEvent)
    ensures ForgottenBy(xs + ys, e) <==> ForgottenBy(xs, e) || ForgottenBy(ys, e)
  {
    if ForgottenBy(xs, e) {
      var k :| 0 <= k < |xs| && Forgets(xs[k], e);
      assert (xs + ys)[k] == xs[k];
    }
    if ForgottenBy(ys, e) {
      var k :| 0 <= k < |ys| && Forgets(ys[k], e);
      assert (xs + ys)[|xs| + k] == ys[k];
    }
  }

  lemma {:induction false} CutsMeaning(es: seq<RunEvent>, at: nat, e: RunEvent, index: nat)
    requires index < at
    ensures AnyCuts(CutsOf(es, at), e, index) <==> ForgottenBy(es, e) && e.ReplyId() != ""
  {
    if es != [] {
      CutsMeaning(es[1..], at + 1, e, index);
      AnyCutsConcat(CutOf(es[0], at), CutsOf(es[1..], at + 1), e, index);
      ForgottenByConcat([es[0]], es[1..], e);
      assert [es[0]] + es[1..] == es;
      var head := CutOf(es[0], at);
      assert AnyCuts(head, e, index) <==> head != [] && Cuts(head[0], e, index);
      assert ForgottenBy([es[0]], e) <==> Forgets([es[0]][0], e);
    }
  }

  /** Cuts found before an event cannot reach it. */
  lemma EarlierCutsMiss(cuts: seq<Cut>, e: RunEvent, index: nat)
    requires forall k | 0 <= k < |cuts| :: cuts[k].at <= index
    ensures !AnyCuts(cuts, e, index)
  {
  }

  lemma CutsUpTo(earlier: seq<Cut>, e: RunEvent, at: nat)
    requires forall k | 0 <= k < |earlier| :: earlier[k].at < at
    ensures forall k | 0 <= k < |earlier + CutOf(e, at)| :: (earlier + CutOf(e, at))[k].at <= at
  {
  }

  lemma {:induction false} FilteredMeaning(es: seq<RunEvent>, at: nat, earlier: seq<Cut>)
    requires forall k | 0 <= k < |earlier| :: earlier[k].at < at
    ensures Filtered(es, at, earlier + CutsOf(es, at)) == Remembered(es)
  {
    if es != [] {
      hide AnyCuts, CutOf, ForgottenBy;
      var e, head, tail := es[0], CutOf(es[0], at), CutsOf(es[1..], at + 1);
      assert earlier + CutsOf(es, at) == earlier + head + tail;
      CutsUpTo(earlier, e, at);
      FilteredMeaning(es[1..], at + 1, earlier + head);
      AnyCutsConcat(earlier + head, tail, e, at);
      EarlierCutsMiss(earlier + head, e, at);
      CutsMeaning(es[1..], at + 1, e, at);
      NoReplyNotForgotten(es[1..], e);
    }
  }

  lemma NoReplyNotForgotten(later: seq<RunEvent>, e: RunEvent)
    ensures ForgottenBy(later, e) ==> e.ReplyId() != "" && e.data.workerSeq.Some?
  {
  }

  lemma {:induction false} NoCutsFiltersNothing(es: seq<RunEvent>, at: nat)
    ensures Filtered(es, at, []) == WithoutRewinds(es)
  {
    if es != [] {
      NoCutsFiltersNothing(es[1..], at + 1);
    }
  }

  /** The two passes keep exactly the remembered events. */
  lemma FoldIsRemembered(es: seq<RunEvent>)
    ensures FoldRewoundEvents(es) == Remembered(es)
  {
    FilteredMeaning(es, 0, []);
    assert [] + CutsOf(es, 0) == CutsOf(es, 0);
    NoCutsFiltersNothing(es, 0);
  }

  // ---- laws ----

  lemma {:induction false} CutByConcat(a: seq<RunEvent>, b: seq<RunEvent>, later: seq<RunEvent>)
    ensures CutBy(a + b, later) == CutBy(a, later) + CutBy(b, later)
  {
    if a == [] {
      assert a + b == b;
    } else {
      assert (a + b)[1..] == a[1..] + b;
      CutByConcat(a[1..], b, later);
    }
  }

  lemma CutByFirst(e: RunEvent, rest: seq<RunEvent>, later: seq<RunEvent>)
    ensures CutBy([e] + rest, later) == if ForgottenBy(later, e) then CutBy(rest, later) else [e] + CutBy(rest, later)
  {
    assert ([e] + rest)[1..] == rest;
  }

  lemma {:induction false} CutByTwice(es: seq<RunEvent>, xs: seq<RunEvent>, ys: seq<RunEvent>)
    ensures CutBy(CutBy(es, xs), ys) == CutBy(es, xs + ys)
  {
    if es != [] {
      ForgottenByConcat(xs, ys, es[0]);
      CutByTwice(es[1..], xs, ys);
      CutByFirst(es[0], CutBy(es[1..], xs), ys);
    }
  }

  lemma {:induction false} CutByNothing(es: seq<RunEvent>)
    ensures CutBy(es, []) == es
  {
    if es != [] {
      CutByNothing(es[1..]);
    }
  }

  lemma {:induction false} CutByPlain(es: seq<RunEvent>, e: RunEvent)
    requires !e.kind.TurnRewind?
    ensures CutBy(es, [e]) == es
  {
    if es != [] {
      CutByPlain(es[1..], e);
    }
  }

  lemma {:induction false} RememberedConcat(xs: seq<RunEvent>, ys: seq<RunEvent>)
    ensures Remembered(xs + ys) == CutBy(Remembered(xs), ys) + Remembered(ys)
  {
    if xs == [] {
      assert xs + ys == ys;
    } else {
      var e := xs[0];
      assert (xs + ys)[1..] == xs[1..] + ys;
      RememberedConcat(xs[1..], ys);
      ForgottenByConcat(xs[1..], ys, e);
      CutByFirst(e, Remembered(xs[1..]), ys);
    }
  }

  /** Appending to a log cuts what the new rewinds take back and then adds the new events. */
  lemma FoldConcat(xs: seq<RunEvent>, ys: seq<RunEvent>)
    ensures FoldRewoundEvents(xs + ys) == CutBy(FoldRewoundEvents(xs), ys) + FoldRewoundEvents(ys)
  {
    RememberedConcat(xs, ys);
    FoldIsRemembered(xs);
    FoldIsRemembered(ys);
    FoldIsRemembered(xs + ys);
  }

  lemma CutByStep(log: seq<RunEvent>, e: RunEvent, rest: seq<RunEvent>)
    ensures e.kind.TurnRewind? ==> CutBy(CutBy(log, [e]), rest) == CutBy(log, [e] + rest)
    ensures !e.kind.TurnRewind? ==> CutBy(log + [e], rest) == CutBy(log, [e] + rest) + CutBy([e], rest)
  {
    CutByTwice(log, [e], rest);
    if !e.kind.TurnRewind? {
      CutByPlain(log, e);
      CutByConcat(log, [e], rest);
    }
  }

  lemma RememberedFirst(e: RunEvent, rest: seq<RunEvent>)
    ensures Remembered([e] + rest) == (if e.kind.TurnRewind? then [] else CutBy([e], rest)) + Remembered(rest)
  {
    assert ([e] + rest)[1..] == rest;
    CutByFirst(e, [], rest);
  }

  lemma {:induction false} OnlineMeaning(log: seq<RunEvent>, es: seq<RunEvent>)
    ensures Online(log, es) == CutBy(log, es) + Remembered(es)
    decreases |es|
  {
    if es == [] {
      CutByNothing(log);
    } else {
      var e, rest := es[0], es[1..];
      assert es == [e] + rest;
      CutByStep(log, e, rest);
      RememberedFirst(e, rest);
      if e.kind.TurnRewind? {
        OnlineMeaning(CutBy(log, [e]), rest);
      } else {
        OnlineMeaning(log + [e], rest);
        assert CutBy(log, es) + CutBy([e], rest) + Remembered(rest) == CutBy(log, es) + (CutBy([e], rest) + Remembered(rest));
      }
    }
  }

  /** The two-pass filter is the reader that truncates at every rewind. */
  lemma FoldIsOnline(es: seq<RunEvent>)
    ensures FoldRewoundEvents(es) == Online([], es)
  {
    OnlineMeaning([], es);
    FoldIsRemembered(es);
  }

  predicate NoRewind(es: seq<RunEvent>) {
    forall k | 0 <= k < |es| :: !es[k].kind.TurnRewind?
  }

  lemma {:induction false} RememberedHasNoRewind(es: seq<RunEvent>)
    ensures NoRewind(Remembered(es))
  {
    if es != [] {
      RememberedHasNoRewind(es[1..]);
    }
  }

  lemma {:induction false} NothingForgotten(es: seq<RunEvent>)
    requires NoRewind(es)
    ensures Remembered(es) == es
  {
    if es != [] {
      NothingForgotten(es[1..]);
    }
  }

  lemma FoldIsIdempotent(es: seq<RunEvent>)
    ensures FoldRewoundEvents(FoldRewoundEvents(es)) == FoldRewoundEvents(es)
  {
    FoldIsRemembered(es);
    RememberedHasNoRewind(es);
    NothingForgotten(Remembered(es));
    FoldIsRemembered(Remembered(es));
  }
}
