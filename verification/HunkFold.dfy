/** Folding long unchanged runs in the diff pane (packages/contracts/src/git.ts). */
module HunkFold {
  import opened GitPatch

  datatype Folded = Line(line: HunkLine) | Fold(id: nat, count: nat, hidden: seq<HunkLine>)

  /** How many context lines the list starts with. */
  function RunLength(lines: seq<HunkLine>): (n: nat)
    ensures n <= |lines|
    ensures forall k | 0 <= k < n :: lines[k].kind == Ctx
    ensures n < |lines| ==> lines[n].kind != Ctx
  {
    if lines != [] && lines[0].kind == Ctx then 1 + RunLength(lines[1..]) else 0
  }

  function Plain(lines: seq<HunkLine>): (r: seq<Folded>)
    ensures |r| == |lines| && forall k | 0 <= k < |r| :: r[k] == Line(lines[k])
  {
    seq(|lines|, k requires 0 <= k < |lines| => Line(lines[k]))
  }

  predicate IsLong(n: nat, min: int, edge: nat) {
    n >= min && n > 2 * edge
  }

  /** One run of context: its middle folded when it is long. */
  function FoldRun(run: seq<HunkLine>, min: int, edge: nat, id: nat): (r: seq<Folded>) {
    var n := |run|;
    if IsLong(n, min, edge) then
      Plain(run[..edge]) + [Fold(id, n - 2 * edge, run[edge..n - edge])] + Plain(run[n - edge..])
    else Plain(run)
  }

  /** The list with every maximal run of context folded that is long, ids counting up from `id`. */
  function FoldFrom(lines: seq<HunkLine>, min: int, edge: nat, id: nat): seq<Folded>
    decreases |lines|
  {
    if lines == [] then []
    else if lines[0].kind != Ctx then [Line(lines[0])] + FoldFrom(lines[1..], min, edge, id)
    else
      var n := RunLength(lines);
      FoldRun(lines[..n], min, edge, id)
      + FoldFrom(lines[n..], min, edge, if IsLong(n, min, edge) then id + 1 else id)
  }

  /** The two ways FoldFrom goes on, the run of context ending after `n` lines. */
  lemma FoldChange(lines: seq<HunkLine>, min: int, edge: nat, id: nat)
    requires lines != [] && lines[0].kind != Ctx
    ensures FoldFrom(lines, min, edge, id) == [Line(lines[0])] + FoldFrom(lines[1..], min, edge, id)
  {
  }

  lemma FoldContext(lines: seq<HunkLine>, min: int, edge: nat, id: nat, n: nat)
    requires 0 < n <= |lines| && forall k | 0 <= k < n :: lines[k].kind == Ctx
    requires n < |lines| ==> lines[n].kind != Ctx
    ensures FoldFrom(lines, min, edge, id) ==
      FoldRun(lines[..n], min, edge, id) + FoldFrom(lines[n..], min, edge, if IsLong(n, min, edge) then id + 1 else id)
  {
    hide FoldRun;
    RunEnds(lines, n);
  }

  method ContextEnd(lines: seq<HunkLine>, index: nat) returns (end: nat)
    requires index <= |lines|
    ensures index <= end <= |lines|
    ensures forall k | index <= k < end :: lines[k].kind == Ctx
    ensures end < |lines| ==> lines[end].kind != Ctx
  {
    end := index;
    while end < |lines| && lines[end].kind == Ctx
      invariant index <= end <= |lines|
      invariant forall k | index <= k < end :: lines[k].kind == Ctx
    {
      end := end + 1;
    }
  }

  method PushRun(out: seq<Folded>, run: seq<HunkLine>, min: int, edge: nat, foldId: nat)
    returns (more: seq<Folded>, nextId: nat)
    ensures more == out + FoldRun(run, min, edge, foldId)
    ensures nextId == if IsLong(|run|, min, edge) then foldId + 1 else foldId
  {
    if |run| >= min && |run| > edge * 2 {
      var hidden := run[edge..|run| - edge];
      more := out + Plain(run[..edge]);
      more := more + [Fold(foldId, |hidden|, hidden)];
      nextId := foldId + 1;
      more := more + Plain(run[|run| - edge..]);
    } else {
      more, nextId := out + Plain(run), foldId;
    }
  }

  method FoldUnmodifiedLines(lines: seq<HunkLine>, min: int, edge: nat) returns (out: seq<Folded>)
    ensures out == FoldFrom(lines, min, edge, 0)
  {
    hide FoldFrom, FoldRun, RunLength, IsLong;
    out := [];
    var index: nat, foldId: nat := 0, 0;
    assert lines[0..] == lines;
    while index < |lines|
      invariant index <= |lines|
      invariant FoldFrom(lines, min, edge, 0) == out + FoldFrom(lines[index..], min, edge, foldId)
    {
      ghost var rest, was := lines[index..], out;
      if lines[index].kind != Ctx {
        FoldChange(rest, min, edge, foldId);
        out := out + [Line(lines[index])];
        index := index + 1;
        assert rest[1..] == lines[index..];
        Regroup(was, [Line(rest[0])], FoldFrom(rest[1..], min, edge, foldId));
        continue;
      }
      var end := ContextEnd(lines, index);
      FoldContext(rest, min, edge, foldId, end - index);
      assert rest[..end - index] == lines[index..end] && rest[end - index..] == lines[end..];
      ghost var block := FoldRun(lines[index..end], min, edge, foldId);
      out, foldId := PushRun(out, lines[index..end], min, edge, foldId);
      index := end;
      Regroup(was, block, FoldFrom(lines[index..], min, edge, foldId));
    }
    NothingToFold(lines[index..], min, edge, foldId);
  }

  lemma NothingToFold(lines: seq<HunkLine>, min: int, edge: nat, id: nat)
    requires lines == []
    ensures FoldFrom(lines, min, edge, id) == []
  {
  }

  lemma Regroup<T>(a: seq<T>, b: seq<T>, c: seq<T>)
    ensures a + (b + c) == a + b + c
  {
  }

  lemma {:induction false} RunEnds(lines: seq<HunkLine>, n: nat)
    requires n <= |lines|
    requires forall k | 0 <= k < n :: lines[k].kind == Ctx
    requires n < |lines| ==> lines[n].kind != Ctx
    ensures RunLength(lines) == n
  {
  }

  // ---- what folding keeps ----

  function Unfold(folded: seq<Folded>): seq<HunkLine> {
    if folded == [] then []
    else (match folded[0] case Line(line) => [line] case Fold(_, _, hidden) => hidden) + Unfold(folded[1..])
  }

  lemma {:induction false} UnfoldConcat(xs: seq<Folded>, ys: seq<Folded>)
    ensures Unfold(xs + ys) == Unfold(xs) + Unfold(ys)
  {
    if xs == [] {
      assert xs + ys == ys;
    } else {
      assert (xs + ys)[1..] == xs[1..] + ys;
      UnfoldConcat(xs[1..], ys);
    }
  }

  lemma {:induction false} UnfoldPlain(lines: seq<HunkLine>)
    ensures Unfold(Plain(lines)) == lines
  {
    if lines != [] {
      assert Plain(lines)[1..] == Plain(lines[1..]);
      UnfoldPlain(lines[1..]);
    }
  }

  lemma UnfoldRun(run: seq<HunkLine>, min: int, edge: nat, id: nat)
    ensures Unfold(FoldRun(run, min, edge, id)) == run
  {
    var n := |run|;
    UnfoldPlain(run);
    if IsLong(n, min, edge) {
      var fold := [Fold(id, n - 2 * edge, run[edge..n - edge])];
      UnfoldPlain(run[..edge]);
      UnfoldPlain(run[n - edge..]);
      UnfoldConcat(Plain(run[..edge]) + fold, Plain(run[n - edge..]));
      UnfoldConcat(Plain(run[..edge]), fold);
      assert Unfold(fold) == run[edge..n - edge] + Unfold([]);
    }
  }

  /** Expanding every fold gives the lines back. */
  lemma {:induction false} UnfoldAfterFold(lines: seq<HunkLine>, min: int, edge: nat, id: nat)
    ensures Unfold(FoldFrom(lines, min, edge, id)) == lines
    decreases |lines|
  {
    hide FoldRun, IsLong;
    if lines != [] {
      if lines[0].kind != Ctx {
        var later := FoldFrom(lines[1..], min, edge, id);
        UnfoldAfterFold(lines[1..], min, edge, id);
        assert ([Line(lines[0])] + later)[1..] == later;
      } else {
        var n := RunLength(lines);
        var next := if IsLong(n, min, edge) then id + 1 else id;
        FoldContext(lines, min, edge, id, n);
        UnfoldAfterFold(lines[n..], min, edge, next);
        UnfoldRun(lines[..n], min, edge, id);
        UnfoldConcat(FoldRun(lines[..n], min, edge, id), FoldFrom(lines[n..], min, edge, next));
      }
    }
  }

  /** The ids of the folds, in order. */
  function Ids(folded: seq<Folded>): seq<nat> {
    if folded == [] then [] else if folded[0].Fold? then [folded[0].id] + Ids(folded[1..]) else Ids(folded[1..])
  }

  lemma {:induction false} IdsConcat(xs: seq<Folded>, ys: seq<Folded>)
    ensures Ids(xs + ys) == Ids(xs) + Ids(ys)
  {
    if xs == [] {
      assert xs + ys == ys;
    } else {
      assert (xs + ys)[1..] == xs[1..] + ys;
      IdsConcat(xs[1..], ys);
    }
  }

  lemma {:induction false} IdsPlain(lines: seq<HunkLine>)
    ensures Ids(Plain(lines)) == []
  {
    if lines != [] {
      assert Plain(lines)[1..] == Plain(lines[1..]);
      IdsPlain(lines[1..]);
    }
  }

  lemma IdsRun(run: seq<HunkLine>, min: int, edge: nat, id: nat)
    ensures Ids(FoldRun(run, min, edge, id)) == if IsLong(|run|, min, edge) then [id] else []
  {
    var n := |run|;
    IdsPlain(run);
    if IsLong(n, min, edge) {
      var fold := [Fold(id, n - 2 * edge, run[edge..n - edge])];
      IdsPlain(run[..edge]);
      IdsPlain(run[n - edge..]);
      IdsConcat(Plain(run[..edge]) + fold, Plain(run[n - edge..]));
      IdsConcat(Plain(run[..edge]), fold);
      assert Ids(fold) == [id] + Ids([]);
    }
  }

  /** Folds are numbered consecutively from `id` on. */
  lemma {:induction false} IdsCountUp(lines: seq<HunkLine>, min: int, edge: nat, id: nat)
    ensures var ids := Ids(FoldFrom(lines, min, edge, id)); forall k | 0 <= k < |ids| :: ids[k] == id + k
    decreases |lines|
  {
    hide FoldRun, IsLong;
    if lines != [] {
      if lines[0].kind != Ctx {
        var later := FoldFrom(lines[1..], min, edge, id);
        IdsCountUp(lines[1..], min, edge, id);
        FoldChange(lines, min, edge, id);
        assert ([Line(lines[0])] + later)[1..] == later;
        assert Ids([Line(lines[0])] + later) == Ids(later);
      } else {
        var n := RunLength(lines);
        var next := if IsLong(n, min, edge) then id + 1 else id;
        IdsCountUp(lines[n..], min, edge, next);
        FoldContext(lines, min, edge, id, n);
        IdsRun(lines[..n], min, edge, id);
        IdsConcat(FoldRun(lines[..n], min, edge, id), FoldFrom(lines[n..], min, edge, next));
      }
    }
  }

  predicate IsContext(item: Folded) {
    item.Line? && item.line.kind == Ctx
  }

  /** Between `edge` context lines on either side, and nothing but a change or an end beyond them. */
  predicate InsideRun(folded: seq<Folded>, i: nat, edge: nat)
    requires i < |folded|
  {
    && edge <= i && i + edge < |folded|
    && (forall k | i - edge <= k < i :: IsContext(folded[k]))
    && (forall k | i < k <= i + edge :: IsContext(folded[k]))
    && (i - edge > 0 ==> folded[i - edge - 1].Line? && folded[i - edge - 1].line.kind != Ctx)
    && (i + edge + 1 < |folded| ==> folded[i + edge + 1].Line? && folded[i + edge + 1].line.kind != Ctx)
  }

  /** A fold hides the middle of a long run, and nothing else. */
  predicate GoodFold(folded: seq<Folded>, i: nat, min: int, edge: nat)
    requires i < |folded|
  {
    folded[i].Fold? ==>
      && InsideRun(folded, i, edge)
      && folded[i].count == |folded[i].hidden| >= 1
      && (forall k | 0 <= k < folded[i].count :: folded[i].hidden[k].kind == Ctx)
      && IsLong(2 * edge + folded[i].count, min, edge)
  }

  predicate AllContext(folded: seq<Folded>, from: nat, end: nat)
    requires from <= end <= |folded|
  {
    forall k | from <= k < end :: IsContext(folded[k])
  }

  /** Every fold is good, and no long run of context is left on show. */
  predicate GoodFolds(folded: seq<Folded>, min: int, edge: nat) {
    && (forall i | 0 <= i < |folded| :: GoodFold(folded, i, min, edge))
    && (forall i: nat, j: nat | i <= j <= |folded| && AllContext(folded, i, j) :: !IsLong(j - i, min, edge))
  }

  lemma ContextPart(all: seq<Folded>, i: nat, j: nat, part: seq<Folded>, shift: nat)
    requires i <= j <= |all| && AllContext(all, i, j) && shift <= i && j - shift <= |part|
    requires forall k | i <= k < j :: all[k] == part[k - shift]
    ensures AllContext(part, i - shift, j - shift)
  {
    forall k | i - shift <= k < j - shift
      ensures IsContext(part[k])
    {
      assert IsContext(all[k + shift]) && all[k + shift] == part[k];
    }
  }

  lemma RunFolds(run: seq<HunkLine>, min: int, edge: nat, id: nat)
    requires forall k | 0 <= k < |run| :: run[k].kind == Ctx
    ensures GoodFolds(FoldRun(run, min, edge, id), min, edge)
  {
    var block := FoldRun(run, min, edge, id);
    forall i: nat, j: nat | i <= j <= |block| && AllContext(block, i, j)
      ensures !IsLong(j - i, min, edge)
    {
      if IsLong(|run|, min, edge) {
        assert block[edge].Fold?;
        assert !(i <= edge < j);
      }
    }
  }

  /** A run block in front of a list that does not begin with context keeps every fold good. */
  lemma BlockInFront(block: seq<Folded>, rest: seq<Folded>, min: int, edge: nat)
    requires GoodFolds(block, min, edge) && GoodFolds(rest, min, edge)
    requires rest != [] ==> rest[0].Line? && rest[0].line.kind != Ctx
    ensures GoodFolds(block + rest, min, edge)
  {
    var all, n := block + rest, |block|;
    forall i | 0 <= i < |all|
      ensures GoodFold(all, i, min, edge)
    {
      if i < n {
        assert GoodFold(block, i, min, edge);
      } else {
        assert GoodFold(rest, i - n, min, edge);
        assert all[i] == rest[i - n];
        if all[i].Fold? {
          assert InsideRun(rest, i - n, edge);
          assert forall k | i - edge <= k < i :: all[k] == rest[k - n];
          assert forall k | i < k <= i + edge :: all[k] == rest[k - n];
        }
      }
    }
    forall i: nat, j: nat | i <= j <= |all| && AllContext(all, i, j)
      ensures !IsLong(j - i, min, edge)
    {
      if j <= n {
        ContextPart(all, i, j, block, 0);
      } else {
        assert all[n] == rest[0];
        assert i <= n ==> !IsContext(all[n]);
        ContextPart(all, i, j, rest, n);
      }
    }
  }

  /** A changed line in front keeps every fold good. */
  lemma ChangeInFront(line: HunkLine, rest: seq<Folded>, min: int, edge: nat)
    requires line.kind != Ctx && GoodFolds(rest, min, edge)
    ensures GoodFolds([Line(line)] + rest, min, edge)
  {
    var all := [Line(line)] + rest;
    forall i | 0 <= i < |all|
      ensures GoodFold(all, i, min, edge)
    {
      if i > 0 {
        assert GoodFold(rest, i - 1, min, edge);
        if all[i].Fold? {
          assert forall k | i - edge <= k < i :: all[k] == rest[k - 1];
          assert forall k | i < k <= i + edge :: all[k] == rest[k - 1];
        }
      }
    }
    forall i: nat, j: nat | i <= j <= |all| && AllContext(all, i, j)
      ensures !IsLong(j - i, min, edge)
    {
      if i > 0 {
        ContextPart(all, i, j, rest, 1);
      } else {
        assert !IsContext(all[0]);
      }
    }
  }

  /** Every fold hides the middle of a maximal long run of context and nothing else, and every long run is folded. */
  lemma {:induction false} FoldsAreGood(lines: seq<HunkLine>, min: int, edge: nat, id: nat)
    ensures var folded := FoldFrom(lines, min, edge, id);
      && GoodFolds(folded, min, edge)
      && (lines != [] && lines[0].kind != Ctx ==> folded != [] && folded[0] == Line(lines[0]))
      && (lines == [] ==> folded == [])
    decreases |lines|
  {
    hide GoodFolds, FoldRun;
    if lines == [] {
      NoFolds(min, edge);
    } else if lines[0].kind != Ctx {
      FoldsAreGood(lines[1..], min, edge, id);
      ChangeInFront(lines[0], FoldFrom(lines[1..], min, edge, id), min, edge);
    } else {
      var n := RunLength(lines);
      var next := if IsLong(n, min, edge) then id + 1 else id;
      FoldsAreGood(lines[n..], min, edge, next);
      RunFolds(lines[..n], min, edge, id);
      BlockInFront(FoldRun(lines[..n], min, edge, id), FoldFrom(lines[n..], min, edge, next), min, edge);
    }
  }

  lemma NoFolds(min: int, edge: nat)
    ensures GoodFolds([], min, edge)
  {
  }
}
