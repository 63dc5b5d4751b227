/** Live events on a client: replays dropped, token deltas coalesced (packages/contracts/src/client-stream.ts). */
module ClientStream {
  import opened Prelude
  import opened Events
  import opened Framing
  import opened Picking
  import opened TranscriptIds

  /** `{ ...a, ...b }` on event data. */
  function Spread(a: Payload, b: Payload): Payload {
    Payload(b.toolCallId.Or(a.toolCallId), b.toolName.Or(a.toolName), b.args.Or(a.args), b.output.Or(a.output),
            b.details.Or(a.details), b.isError.Or(a.isError), b.text.Or(a.text), b.delta.Or(a.delta), b.images.Or(a.images),
            b.followUpId.Or(a.followUpId), b.actorUserId.Or(a.actorUserId), b.actorEmail.Or(a.actorEmail),
            b.subagent.Or(a.subagent), b.subagentId.Or(a.subagentId), b.workerSeq.Or(a.workerSeq),
            b.workerEpoch.Or(a.workerEpoch), b.replyId.Or(a.replyId), b.fromSeq.Or(a.fromSeq),
            b.url.Or(a.url), b.contentType.Or(a.contentType))
  }

  function MergeDelta(previous: RunEvent, incoming: RunEvent): RunEvent {
    incoming.(data := Spread(previous.data, incoming.data).(delta := Some(previous.Delta() + incoming.Delta())))
  }

  /** One event put at the end of the list. */
  function Coalesce(list: seq<RunEvent>, e: RunEvent): seq<RunEvent> {
    var n := |list|;
    if e.kind.MessageDelta? && n > 0 && list[n - 1].kind.MessageDelta?
    then list[n - 1 := MergeDelta(list[n - 1], e)]
    else list + [e]
  }

  function CoalesceAll(list: seq<RunEvent>, es: seq<RunEvent>): seq<RunEvent>
    decreases |es|
  {
    if es == [] then list else CoalesceAll(Coalesce(list, es[0]), es[1..])
  }

  /** The events of `es` that are new: with an id not seen, neither before nor earlier in `es`. */
  function Unseen(seen: set<string>, es: seq<RunEvent>): seq<RunEvent>
    decreases |es|
  {
    if es == [] then []
    else if es[0].id == "" || es[0].id in seen then Unseen(seen, es[1..])
    else [es[0]] + Unseen(seen + {es[0].id}, es[1..])
  }

  /** The program's loop. */
  method ApplyLiveEvents(prev: seq<RunEvent>, incoming: seq<RunEvent>) returns (next: seq<RunEvent>)
    ensures next == CoalesceAll(prev, Unseen(EventIds(prev), incoming))
  {
    next := prev;
    if incoming == [] {
      return;
    }
    var seen := set e | e in prev :: e.id;
    assert seen == EventIds(prev);
    for i := 0 to |incoming|
      invariant CoalesceAll(prev, Unseen(EventIds(prev), incoming)) == CoalesceAll(next, Unseen(seen, incoming[i..]))
    {
      var event := incoming[i];
      assert incoming[i..][0] == event && incoming[i..][1..] == incoming[i + 1..];
      if event.id == "" || event.id in seen {
        continue;
      }
      seen := seen + {event.id};
      var n := |next|;
      if event.kind.MessageDelta? && n > 0 && next[n - 1].kind.MessageDelta? {
        next := next[n - 1 := MergeDelta(next[n - 1], event)];
        continue;
      }
      next := next + [event];
    }
  }

  function LiveEvents(prev: seq<RunEvent>, incoming: seq<RunEvent>): seq<RunEvent> {
    CoalesceAll(prev, Unseen(EventIds(prev), incoming))
  }

  // ---- which events are new ----

  /** Event `i` has an id, one not seen before the batch and of no earlier event in it. */
  predicate IsNew(seen: set<string>, es: seq<RunEvent>, i: nat)
    requires i < |es|
  {
    es[i].id != "" && es[i].id !in seen && forall j | 0 <= j < i :: es[j].id != es[i].id
  }

  /** `from` says which events of a batch are taken in: exactly the new ones, in order. */
  ghost predicate TakenFrom(seen: set<string>, es: seq<RunEvent>, taken: seq<RunEvent>, from: seq<nat>) {
    && |from| == |taken|
    && (forall k | 0 <= k < |from| :: from[k] < |es| && taken[k] == es[from[k]] && IsNew(seen, es, from[k]))
    && (forall j, k | 0 <= j < k < |from| :: from[j] < from[k])
    && (forall i: nat | i < |es| && IsNew(seen, es, i) :: i in from)
  }

  lemma IsNewLater(seen: set<string>, es: seq<RunEvent>, i: nat)
    requires 0 < i < |es|
    ensures es[0].id == "" || es[0].id in seen ==> (IsNew(seen, es, i) <==> IsNew(seen, es[1..], i - 1))
    ensures es[0].id != "" && es[0].id !in seen ==> (IsNew(seen, es, i) <==> IsNew(seen + {es[0].id}, es[1..], i - 1))
  {
    var rest := es[1..];
    assert forall j | 0 <= j < i - 1 :: rest[j] == es[j + 1];
    if forall j | 0 <= j < i - 1 :: rest[j].id != es[i].id {
      forall j | 0 < j < i
        ensures es[j].id != es[i].id
      {
        assert rest[j - 1] == es[j];
      }
    }
  }

  lemma TakenBehind(seen: set<string>, es: seq<RunEvent>, taken: seq<RunEvent>, from: seq<nat>)
    requires es != [] && (es[0].id == "" || es[0].id in seen) && TakenFrom(seen, es[1..], taken, from)
    ensures TakenFrom(seen, es, taken, OneOn(from))
  {
    hide IsNew;
    var all := OneOn(from);
    NotNew(seen, es);
    forall k: nat | k < |all|
      ensures all[k] < |es| && taken[k] == es[all[k]] && IsNew(seen, es, all[k])
    {
      assert from[k] < |es[1..]| && IsNew(seen, es[1..], from[k]);
      IsNewLater(seen, es, all[k]);
    }
    forall i: nat | i < |es| && IsNew(seen, es, i)
      ensures i in all
    {
      IsNewLater(seen, es, i);
      assert i - 1 in from;
      var k :| 0 <= k < |from| && from[k] == i - 1;
      assert all[k] == i;
    }
  }

  lemma NotNew(seen: set<string>, es: seq<RunEvent>)
    requires es != [] && (es[0].id == "" || es[0].id in seen)
    ensures !IsNew(seen, es, 0)
  {
  }

  lemma TakenFirst(seen: set<string>, es: seq<RunEvent>, taken: seq<RunEvent>, from: seq<nat>)
    requires es != [] && es[0].id != "" && es[0].id !in seen && TakenFrom(seen + {es[0].id}, es[1..], taken, from)
    ensures TakenFrom(seen, es, [es[0]] + taken, [0] + OneOn(from))
  {
    hide IsNew;
    var all, more := [0] + OneOn(from), [es[0]] + taken;
    FirstIsNew(seen, es);
    forall k: nat | k < |all|
      ensures all[k] < |es| && more[k] == es[all[k]] && IsNew(seen, es, all[k])
    {
      if k > 0 {
        assert all[k] == from[k - 1] + 1 && more[k] == taken[k - 1];
        assert IsNew(seen + {es[0].id}, es[1..], from[k - 1]);
        IsNewLater(seen, es, all[k]);
      }
    }
    RisesOn(from);
    forall i: nat | i < |es| && IsNew(seen, es, i)
      ensures i in all
    {
      if i == 0 {
        assert all[0] == 0;
      } else {
        IsNewLater(seen, es, i);
        assert i - 1 in from;
        var k :| 0 <= k < |from| && from[k] == i - 1;
        assert all[k + 1] == i;
      }
    }
  }

  lemma FirstIsNew(seen: set<string>, es: seq<RunEvent>)
    requires es != [] && es[0].id != "" && es[0].id !in seen
    ensures IsNew(seen, es, 0)
  {
  }

  lemma RisesOn(from: seq<nat>)
    requires forall j, k | 0 <= j < k < |from| :: from[j] < from[k]
    ensures forall j, k | 0 <= j < k < |from| + 1 :: ([0] + OneOn(from))[j] < ([0] + OneOn(from))[k]
  {
    HeadedRise(from);
  }

  /** A batch adds exactly its new events to the list, each once. */
  lemma {:induction false} NewAreTaken(seen: set<string>, es: seq<RunEvent>) returns (from: seq<nat>)
    ensures TakenFrom(seen, es, Unseen(seen, es), from)
    decreases |es|
  {
    hide TakenFrom;
    if es == [] {
      from := [];
      NothingTaken(seen);
    } else if es[0].id == "" || es[0].id in seen {
      var rest := NewAreTaken(seen, es[1..]);
      TakenBehind(seen, es, Unseen(seen, es[1..]), rest);
      from := OneOn(rest);
    } else {
      var rest := NewAreTaken(seen + {es[0].id}, es[1..]);
      TakenFirst(seen, es, Unseen(seen + {es[0].id}, es[1..]), rest);
      from := [0] + OneOn(rest);
    }
  }

  lemma NothingTaken(seen: set<string>)
    ensures TakenFrom(seen, [], [], []) && Unseen(seen, []) == []
  {
  }

  // ---- batching does not matter ----

  lemma {:induction false} CoalesceAllConcat(list: seq<RunEvent>, a: seq<RunEvent>, b: seq<RunEvent>)
    ensures CoalesceAll(list, a + b) == CoalesceAll(CoalesceAll(list, a), b)
    decreases |a|
  {
    if a == [] {
      assert a + b == b;
    } else {
      assert (a + b)[1..] == a[1..] + b;
      CoalesceAllConcat(Coalesce(list, a[0]), a[1..], b);
    }
  }

  /** Ids of the coalesced list are ids that arrived. */
  lemma {:induction false} CoalescedIds(list: seq<RunEvent>, es: seq<RunEvent>)
    ensures EventIds(CoalesceAll(list, es)) <= EventIds(list) + EventIds(es)
    decreases |es|
  {
    if es != [] {
      var first := Coalesce(list, es[0]);
      CoalescedIds(first, es[1..]);
      assert EventIds(first) <= EventIds(list) + {es[0].id} by {
        forall id | id in EventIds(first)
          ensures id in EventIds(list) + {es[0].id}
        {
          var k :| 0 <= k < |first| && first[k].id == id;
          assert (k < |list| && first[k] == list[k]) || id == es[0].id;
        }
      }
      assert EventIds(es[1..]) <= EventIds(es) && es[0].id in EventIds(es) by {
        forall id | id in EventIds(es[1..])
          ensures id in EventIds(es)
        {
          var k :| 0 <= k < |es[1..]| && es[1..][k].id == id;
          assert es[k + 1].id == id;
        }
      }
    }
  }

  /** Live delivery: every id is non-empty and arrives once. */
  predicate FreshIds(seen: set<string>, es: seq<RunEvent>) {
    && DistinctEventIds(es)
    && forall k | 0 <= k < |es| :: es[k].id != "" && es[k].id !in seen
  }

  lemma {:induction false} AllUnseen(seen: set<string>, es: seq<RunEvent>)
    requires FreshIds(seen, es)
    ensures Unseen(seen, es) == es
    decreases |es|
  {
    if es != [] {
      forall k | 0 <= k < |es[1..]|
        ensures es[1..][k].id !in seen + {es[0].id}
      {
        assert es[1..][k] == es[k + 1];
      }
      AllUnseen(seen + {es[0].id}, es[1..]);
    }
  }

  /** What has not arrived yet is new to the list that has. */
  lemma StillFresh(prev: seq<RunEvent>, first: seq<RunEvent>, rest: seq<RunEvent>)
    requires FreshIds(EventIds(prev), first + rest)
    ensures FreshIds(EventIds(LiveEvents(prev, first)), rest) && Unseen(EventIds(prev), first) == first
  {
    var all := first + rest;
    forall k | 0 <= k < |first|
      ensures first[k].id != "" && first[k].id !in EventIds(prev)
    {
      assert first[k] == all[k];
    }
    forall i, j | 0 <= i < j < |first|
      ensures first[i].id != first[j].id
    {
      assert first[i] == all[i] && first[j] == all[j];
    }
    AllUnseen(EventIds(prev), first);
    CoalescedIds(prev, first);
    forall k | 0 <= k < |rest|
      ensures rest[k].id != "" && rest[k].id !in EventIds(prev) && rest[k].id !in EventIds(first)
    {
      assert rest[k] == all[|first| + k];
      forall i | 0 <= i < |first|
        ensures first[i].id != rest[k].id
      {
        assert all[i] == first[i];
      }
    }
    forall i, j | 0 <= i < j < |rest|
      ensures rest[i].id != rest[j].id
    {
      assert rest[i] == all[|first| + i] && rest[j] == all[|first| + j];
    }
  }

  /** However a stream of distinct events is cut into batches, the list comes out the same. */
  lemma BatchingIrrelevant(prev: seq<RunEvent>, a: seq<RunEvent>, b: seq<RunEvent>)
    requires FreshIds(EventIds(prev), a + b)
    ensures LiveEvents(LiveEvents(prev, a), b) == LiveEvents(prev, a + b)
  {
    StillFresh(prev, a, b);
    AllUnseen(EventIds(prev), a + b);
    AllUnseen(EventIds(LiveEvents(prev, a)), b);
    CoalesceAllConcat(prev, a, b);
  }

  function Batched(prev: seq<RunEvent>, batches: seq<seq<RunEvent>>): seq<RunEvent>
    decreases |batches|
  {
    if batches == [] then prev else Batched(LiveEvents(prev, batches[0]), batches[1..])
  }

  /** So any batching at all gives the list of the stream in one piece. */
  lemma {:induction false} AnyBatching(prev: seq<RunEvent>, batches: seq<seq<RunEvent>>)
    requires FreshIds(EventIds(prev), Joined(batches))
    ensures Batched(prev, batches) == LiveEvents(prev, Joined(batches))
    decreases |batches|
  {
    if batches == [] {
      assert Unseen(EventIds(prev), []) == [];
    } else {
      var first, rest := batches[0], Joined(batches[1..]);
      BatchingIrrelevant(prev, first, rest);
      StillFresh(prev, first, rest);
      AnyBatching(LiveEvents(prev, first), batches[1..]);
    }
  }

  /** An event is dropped exactly when its id is empty or still in the list. */
  lemma DroppedExactlyWhenListed(list: seq<RunEvent>, e: RunEvent)
    ensures LiveEvents(list, [e]) == list <==> (e.id == "" || e.id in EventIds(list))
  {
    var ids := EventIds(list);
    assert [e][1..] == [];
    if e.id != "" && e.id !in ids {
      assert Unseen(ids, [e]) == [e];
      assert CoalesceAll(Coalesce(list, e), [e][1..]) == Coalesce(list, e);
      assert list != [] ==> list[|list| - 1].id in ids;
      assert Coalesce(list, e)[|Coalesce(list, e)| - 1].id == e.id;
    } else {
      assert Unseen(ids, [e]) == [];
    }
  }

  /** The id of a delta that was merged away is forgotten: its replay is added a second time. */
  lemma MergedReplayRepeats(a: RunEvent, b: RunEvent)
    requires a.kind.MessageDelta? && b.kind.MessageDelta? && a.id != "" && b.id != "" && a.id != b.id
    ensures var once := LiveEvents([], [a, b]);
      && |once| == 1 && LiveEvents(once, [a]) == [MergeDelta(once[0], a)]
      && LiveEvents(once, [a])[0].Delta() == a.Delta() + b.Delta() + a.Delta()
  {
    AllUnseen({}, [a, b]);
    assert EventIds([]) == {};
    var m := MergeDelta(a, b);
    assert CoalesceAll([], [a, b]) == [m] by {
      assert [a, b][1..] == [b];
      assert Coalesce([], a) == [a] && Coalesce([a], b) == [m];
      assert CoalesceAll([m], [b][1..]) == [m];
    }
    assert EventIds([m]) == {b.id} by {
      assert [m][0].id == b.id;
    }
    AllUnseen({b.id}, [a]);
    assert Coalesce([m], a) == [MergeDelta(m, a)];
    assert CoalesceAll(Coalesce([m], a), [a][1..]) == [MergeDelta(m, a)];
  }
}
