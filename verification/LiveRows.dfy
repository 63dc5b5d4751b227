/**
 The rows of a coalesced list (packages/contracts/src/client-stream.ts) and the events each row stands for. A client
 folds and sorts the rows; this module says when that is the same as folding and sorting the events.
 */
module LiveRows {
  import opened Prelude
  import opened Events
  import opened Framing
  import opened ClientStream
  import opened Rewind
  import opened EventOrder

  type Row = seq<RunEvent>

  /** One event, or a run of deltas. */
  predicate GoodRow(row: Row) {
    row != [] && (|row| > 1 ==> forall k | 0 <= k < |row| :: row[k].kind.MessageDelta?)
  }

  predicate GoodRows(rows: seq<Row>) {
    forall k | 0 <= k < |rows| :: GoodRow(rows[k])
  }

  /** The event a row shows as. */
  function Merged(row: Row): (r: RunEvent)
    requires row != []
    ensures r.kind == row[|row| - 1].kind && r.id == row[|row| - 1].id && r.createdAt == row[|row| - 1].createdAt
  {
    if |row| == 1 then row[0] else MergeDelta(Merged(row[..|row| - 1]), row[|row| - 1])
  }

  function MergeEach(rows: seq<Row>): (r: seq<RunEvent>)
    requires GoodRows(rows)
    ensures |r| == |rows| && forall k | 0 <= k < |r| :: r[k] == Merged(rows[k])
  {
    seq(|rows|, k requires 0 <= k < |rows| => Merged(rows[k]))
  }

  /** One event put behind the rows. */
  function AddToRows(rows: seq<Row>, e: RunEvent): (r: seq<Row>)
    requires GoodRows(rows)
    ensures GoodRows(r)
  {
    var n := |rows|;
    if e.kind.MessageDelta? && n > 0 && Merged(rows[n - 1]).kind.MessageDelta?
    then rows[n - 1 := rows[n - 1] + [e]]
    else rows + [[e]]
  }

  function RowsOnto(rows: seq<Row>, es: seq<RunEvent>): (r: seq<Row>)
    requires GoodRows(rows)
    ensures GoodRows(r)
    decreases |es|
  {
    if es == [] then rows else RowsOnto(AddToRows(rows, es[0]), es[1..])
  }

  function Rows(es: seq<RunEvent>): (r: seq<Row>)
    ensures GoodRows(r)
  {
    RowsOnto([], es)
  }

  lemma AddMerges(rows: seq<Row>, e: RunEvent)
    requires GoodRows(rows)
    ensures MergeEach(AddToRows(rows, e)) == Coalesce(MergeEach(rows), e)
    ensures Joined(AddToRows(rows, e)) == Joined(rows) + [e]
  {
    hide Merged, Joined;
    var n := |rows|;
    if e.kind.MessageDelta? && n > 0 && Merged(rows[n - 1]).kind.MessageDelta? {
      MergedPush(rows[n - 1], e);
      JoinedPush(rows[..n - 1], rows[n - 1]);
      JoinedPush(rows[..n - 1], rows[n - 1] + [e]);
      assert rows == rows[..n - 1] + [rows[n - 1]];
      assert AddToRows(rows, e) == rows[..n - 1] + [rows[n - 1] + [e]];
      assert Joined(rows[..n - 1]) + (rows[n - 1] + [e]) == Joined(rows[..n - 1]) + rows[n - 1] + [e];
      assert MergeEach(AddToRows(rows, e)) == MergeEach(rows)[n - 1 := MergeDelta(Merged(rows[n - 1]), e)];
    } else {
      MergedOne(e);
      JoinedPush(rows, [e]);
      assert MergeEach(rows + [[e]]) == MergeEach(rows) + [e];
    }
  }

  lemma MergedOne(e: RunEvent)
    ensures Merged([e]) == e
  {
  }

  lemma MergedPush(row: Row, e: RunEvent)
    requires row != []
    ensures Merged(row + [e]) == MergeDelta(Merged(row), e)
  {
    assert (row + [e])[..|row|] == row;
  }

  lemma {:induction false} RowsOntoMerge(rows: seq<Row>, es: seq<RunEvent>)
    requires GoodRows(rows)
    ensures MergeEach(RowsOnto(rows, es)) == CoalesceAll(MergeEach(rows), es)
    ensures Joined(RowsOnto(rows, es)) == Joined(rows) + es
    decreases |es|
  {
    hide Joined, Merged, AddToRows, MergeEach, Coalesce;
    if es == [] {
      assert Joined(rows) + es == Joined(rows);
    } else {
      AddMerges(rows, es[0]);
      RowsOntoMerge(AddToRows(rows, es[0]), es[1..]);
      assert Joined(rows) + [es[0]] + es[1..] == Joined(rows) + es;
    }
  }

  /** The rows stand for the stream, and show as its coalesced list. */
  lemma RowsOfStream(es: seq<RunEvent>)
    ensures MergeEach(Rows(es)) == CoalesceAll([], es)
    ensures Joined(Rows(es)) == es
  {
    RowsOntoMerge([], es);
    assert MergeEach([]) == [];
    assert [] + es == es;
  }

  // ---- folding rows ----

  lemma {:induction false} JoinedConcat(a: seq<Row>, b: seq<Row>)
    ensures Joined(a + b) == Joined(a) + Joined(b)
  {
    if a == [] {
      assert a + b == b;
    } else {
      assert (a + b)[1..] == a[1..] + b;
      JoinedConcat(a[1..], b);
    }
  }

  /** The rows whose event survives the fold of the list. */
  function KeptRows(rows: seq<Row>): (r: seq<Row>)
    requires GoodRows(rows)
    ensures GoodRows(r)
  {
    if rows == [] then []
    else if Merged(rows[0]).kind.TurnRewind? || ForgottenBy(Joined(rows[1..]), Merged(rows[0])) then KeptRows(rows[1..])
    else [rows[0]] + KeptRows(rows[1..])
  }

  /** Later rewinds forget the row's event with all the events it stands for, or none of them. */
  predicate Whole(row: Row, later: seq<RunEvent>)
    requires row != []
  {
    forall k | 0 <= k < |row| :: ForgottenBy(later, row[k]) <==> ForgottenBy(later, Merged(row))
  }

  predicate WholeRows(rows: seq<Row>)
    requires GoodRows(rows)
  {
    rows != [] ==> Whole(rows[0], Joined(rows[1..])) && WholeRows(rows[1..])
  }

  lemma OneForgets(row: Row, m: RunEvent)
    requires GoodRow(row)
    ensures ForgottenBy([Merged(row)], m) <==> ForgottenBy(row, m)
  {
    if |row| > 1 {
      assert Merged(row).kind.MessageDelta?;
      assert !Forgets([Merged(row)][0], m);
    } else {
      assert [Merged(row)] == row;
    }
  }

  /** The rewinds of a list are the rewinds of its events. */
  lemma {:induction false} SameRewinds(rows: seq<Row>, m: RunEvent)
    requires GoodRows(rows)
    ensures ForgottenBy(MergeEach(rows), m) <==> ForgottenBy(Joined(rows), m)
  {
    hide ForgottenBy, Merged;
    if rows == [] {
      assert MergeEach(rows) == Joined(rows);
    } else {
      SameRewinds(rows[1..], m);
      OneForgets(rows[0], m);
      assert MergeEach(rows) == [Merged(rows[0])] + MergeEach(rows[1..]);
      ForgottenByConcat([Merged(rows[0])], MergeEach(rows[1..]), m);
      ForgottenByConcat(rows[0], Joined(rows[1..]), m);
    }
  }

  /** Folding the list keeps the events of the kept rows. */
  lemma {:induction false} KeptRowsAreRemembered(rows: seq<Row>)
    requires GoodRows(rows)
    ensures MergeEach(KeptRows(rows)) == Remembered(MergeEach(rows))
  {
    hide ForgottenBy, Merged, Joined;
    if rows != [] {
      var first, rest := Merged(rows[0]), MergeEach(rows[1..]);
      KeptRowsAreRemembered(rows[1..]);
      SameRewinds(rows[1..], first);
      assert MergeEach(rows)[0] == first && MergeEach(rows)[1..] == rest;
      assert MergeEach([rows[0]] + KeptRows(rows[1..])) == [first] + MergeEach(KeptRows(rows[1..]));
    } else {
      assert MergeEach(rows) == [];
    }
  }

  lemma {:induction false} CutByMembers(es: seq<RunEvent>, later: seq<RunEvent>, e: RunEvent)
    ensures e in CutBy(es, later) <==> e in es && !ForgottenBy(later, e)
  {
    hide ForgottenBy;
    if es != [] {
      CutByMembers(es[1..], later, e);
      assert es == [es[0]] + es[1..];
    }
  }

  lemma {:induction false} CutNone(es: seq<RunEvent>, later: seq<RunEvent>)
    requires forall k | 0 <= k < |es| :: !ForgottenBy(later, es[k])
    ensures CutBy(es, later) == es
  {
    hide ForgottenBy;
    if es != [] {
      CutNone(es[1..], later);
    }
  }

  lemma {:induction false} CutEach(es: seq<RunEvent>, later: seq<RunEvent>)
    requires forall k | 0 <= k < |es| :: ForgottenBy(later, es[k])
    ensures CutBy(es, later) == []
  {
    hide ForgottenBy;
    if es != [] {
      CutEach(es[1..], later);
    }
  }

  /** What is left of a row's own events, and of those behind it. */
  lemma FoldRow(row: Row, later: seq<RunEvent>)
    requires GoodRow(row)
    ensures Remembered(row + later) ==
      (if Merged(row).kind.TurnRewind? then [] else CutBy(row, later)) + Remembered(later)
  {
    hide ForgottenBy;
    RememberedConcat(row, later);
    if Merged(row).kind.TurnRewind? {
      assert row == [row[0]] && row[1..] == [];
    } else {
      NothingForgotten(row);
    }
  }

  /** Where every row is forgotten whole or not at all, the kept rows stand for the events that are left. */
  lemma {:induction false} WholeRowsFold(rows: seq<Row>)
    requires GoodRows(rows) && WholeRows(rows)
    ensures Joined(KeptRows(rows)) == Remembered(Joined(rows))
  {
    hide ForgottenBy, Merged, Remembered;
    if rows == [] {
      NothingRemembered();
    } else {
      var row, later := rows[0], Joined(rows[1..]);
      WholeRowsFold(rows[1..]);
      FoldRow(row, later);
      if ForgottenBy(later, Merged(row)) {
        CutEach(row, later);
      } else {
        CutNone(row, later);
      }
      assert ([row] + KeptRows(rows[1..]))[1..] == KeptRows(rows[1..]);
    }
  }

  lemma NothingRemembered()
    ensures Remembered([]) == []
  {
  }

  lemma {:induction false} KeptEventsArrived(rows: seq<Row>, e: RunEvent)
    requires GoodRows(rows) && e in Joined(KeptRows(rows))
    ensures e in Joined(rows)
  {
    hide ForgottenBy, Merged;
    if rows != [] {
      var rest := KeptRows(rows[1..]);
      assert ([rows[0]] + rest)[1..] == rest;
      if e in Joined(rest) {
        KeptEventsArrived(rows[1..], e);
      }
    }
  }

  /** The kept rows and the fold of the events hold the same events. */
  ghost predicate SameEvents(rows: seq<Row>)
    requires GoodRows(rows)
  {
    forall e :: Agree(rows, e)
  }

  predicate Agree(rows: seq<Row>, e: RunEvent)
    requires GoodRows(rows)
  {
    e in Joined(KeptRows(rows)) <==> e in Remembered(Joined(rows))
  }

  predicate Dropped(row: Row, later: seq<RunEvent>)
    requires row != []
  {
    Merged(row).kind.TurnRewind? || ForgottenBy(later, Merged(row))
  }

  lemma KeptMembers(rows: seq<Row>, e: RunEvent)
    requires GoodRows(rows) && rows != []
    ensures e in Joined(KeptRows(rows)) <==>
      (!Dropped(rows[0], Joined(rows[1..])) && e in rows[0]) || e in Joined(KeptRows(rows[1..]))
  {
    hide ForgottenBy, Merged;
    var rest := KeptRows(rows[1..]);
    assert ([rows[0]] + rest)[1..] == rest;
  }

  lemma RememberedMembers(rows: seq<Row>, e: RunEvent)
    requires GoodRows(rows) && rows != []
    ensures var later := Joined(rows[1..]);
      e in Remembered(Joined(rows)) <==>
        (!Merged(rows[0]).kind.TurnRewind? && e in rows[0] && !ForgottenBy(later, e)) || e in Remembered(later)
  {
    hide ForgottenBy, Merged, Remembered;
    FoldRow(rows[0], Joined(rows[1..]));
    CutByMembers(rows[0], Joined(rows[1..]), e);
  }

  lemma FirstRowIsWhole(rows: seq<Row>)
    requires GoodRows(rows) && rows != [] && EachOnce(Joined(rows)) && SameEvents(rows)
    ensures Whole(rows[0], Joined(rows[1..]))
  {
    hide ForgottenBy, Merged, Remembered, EachOnce, KeptRows;
    var row, later := rows[0], Joined(rows[1..]);
    EachOnceSplit(row, later);
    if Merged(row).kind.TurnRewind? {
      assert row == [row[0]];
      MergedOne(row[0]);
    } else {
      forall k | 0 <= k < |row|
        ensures ForgottenBy(later, row[k]) <==> ForgottenBy(later, Merged(row))
      {
        var e := row[k];
        assert Agree(rows, e) && e in row && e !in later;
        KeptMembers(rows, e);
        RememberedMembers(rows, e);
        OnlyArrived(rows[1..], e);
      }
    }
  }

  lemma OnlyArrived(rows: seq<Row>, e: RunEvent)
    requires GoodRows(rows) && e !in Joined(rows)
    ensures e !in Joined(KeptRows(rows)) && e !in Remembered(Joined(rows))
  {
    if e in Joined(KeptRows(rows)) {
      KeptEventsArrived(rows, e);
    }
    if e in Remembered(Joined(rows)) {
      RememberedArrived(Joined(rows), e);
    }
  }

  lemma RestAgrees(rows: seq<Row>)
    requires GoodRows(rows) && rows != [] && EachOnce(Joined(rows)) && SameEvents(rows)
    ensures SameEvents(rows[1..])
  {
    hide ForgottenBy, Merged, Remembered, EachOnce, KeptRows;
    EachOnceSplit(rows[0], Joined(rows[1..]));
    forall e
      ensures Agree(rows[1..], e)
    {
      if e in Joined(rows[1..]) {
        assert Agree(rows, e);
        KeptMembers(rows, e);
        RememberedMembers(rows, e);
      } else {
        OnlyArrived(rows[1..], e);
      }
    }
  }

  lemma {:induction false} RememberedArrived(es: seq<RunEvent>, e: RunEvent)
    requires e in Remembered(es)
    ensures e in es
  {
    hide ForgottenBy;
    if es[0] != e {
      RememberedArrived(es[1..], e);
    }
  }

  lemma {:induction false} SameEventsWhole(rows: seq<Row>)
    requires GoodRows(rows) && EachOnce(Joined(rows)) && SameEvents(rows)
    ensures WholeRows(rows)
  {
    hide SameEvents, Whole, EachOnce, Merged;
    if rows != [] {
      FirstRowIsWhole(rows);
      RestAgrees(rows);
      EachOnceSplit(rows[0], Joined(rows[1..]));
      SameEventsWhole(rows[1..]);
    }
  }

  /** Folding the list is folding the events exactly if each row is forgotten whole or not at all. */
  lemma FoldOfRowsIff(rows: seq<Row>)
    requires GoodRows(rows) && EachOnce(Joined(rows))
    ensures Joined(KeptRows(rows)) == Remembered(Joined(rows)) <==> WholeRows(rows)
  {
    if WholeRows(rows) {
      WholeRowsFold(rows);
    }
    if Joined(KeptRows(rows)) == Remembered(Joined(rows)) {
      assert forall e :: Agree(rows, e);
      SameEventsWhole(rows);
    }
  }

  // ---- what a row shows ----

  /** The last event of the row that brings a field. */
  function LastOf<T>(row: Row, field: Payload -> Option<T>): Option<T> {
    if row == [] then None
    else
      var n := |row| - 1;
      if field(row[n].data).Some? then field(row[n].data) else LastOf(row[..n], field)
  }

  function DeltasOf(row: Row): string {
    if row == [] then "" else DeltasOf(row[..|row| - 1]) + row[|row| - 1].data.delta.GetOr("")
  }

  /** `field` reads one field of the data other than the text of a delta. */
  ghost predicate ReadsOneField<T(!new)>(field: Payload -> Option<T>) {
    && (forall a, b :: field(Spread(a, b)) == if field(b).Some? then field(b) else field(a))
    && (forall a: Payload, delta :: field(a.(delta := delta)) == field(a))
  }

  /** So does each of these. */
  lemma StampsAreRead()
    ensures ReadsOneField((d: Payload) => d.workerSeq)
    ensures ReadsOneField((d: Payload) => d.workerEpoch)
    ensures ReadsOneField((d: Payload) => d.replyId)
    ensures ReadsOneField((d: Payload) => d.fromSeq)
  {
  }

  lemma CallsAreRead()
    ensures ReadsOneField((d: Payload) => d.toolCallId)
    ensures ReadsOneField((d: Payload) => d.toolName)
    ensures ReadsOneField((d: Payload) => d.args)
    ensures ReadsOneField((d: Payload) => d.output)
    ensures ReadsOneField((d: Payload) => d.details)
    ensures ReadsOneField((d: Payload) => d.isError)
  {
  }

  lemma WordsAreRead()
    ensures ReadsOneField((d: Payload) => d.text)
    ensures ReadsOneField((d: Payload) => d.images)
    ensures ReadsOneField((d: Payload) => d.followUpId)
    ensures ReadsOneField((d: Payload) => d.actorUserId)
    ensures ReadsOneField((d: Payload) => d.actorEmail)
  {
  }

  lemma RestIsRead()
    ensures ReadsOneField((d: Payload) => d.subagent)
    ensures ReadsOneField((d: Payload) => d.subagentId)
    ensures ReadsOneField((d: Payload) => d.url)
    ensures ReadsOneField((d: Payload) => d.contentType)
  {
  }

  /** A row shows as its last event, with every field the last that brings it and the text of all its deltas. */
  lemma {:induction false} RowShows<T(!new)>(row: Row, field: Payload -> Option<T>)
    requires row != [] && ReadsOneField(field)
    ensures field(Merged(row).data) == LastOf(row, field)
    ensures Merged(row) == row[|row| - 1].(data := Merged(row).data)
    ensures Merged(row).data.delta.GetOr("") == DeltasOf(row)
  {
    var n := |row| - 1;
    if n == 0 {
      assert row[..0] == [];
      assert "" + row[0].data.delta.GetOr("") == row[0].data.delta.GetOr("");
    } else {
      RowShows(row[..n], field);
    }
  }
}
