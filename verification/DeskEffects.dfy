/**
 What each event makes of the desk, said of its entries and without the steps that make it (reserveLocalSlot,
 reapFinishedWorkers and startAssignment in packages/desk/app/host.ts).
 */
module DeskEffects {
  import opened Prelude
  import opened Admission
  import opened Desk

  // ---- counting ----

  function OtherIds(runs: seq<Entry>, runId: string): set<string> {
    set entry | entry in runs && entry.runId != runId :: entry.runId
  }

  /** How many runs but this one hold a slot. */
  function HeldByOthers(runs: seq<Entry>, runId: string): nat {
    |OtherIds(runs, runId)|
  }

  lemma OtherIdsPush(front: seq<Entry>, last: Entry, runId: string)
    ensures OtherIds(front + [last], runId) == OtherIds(front, runId) + if last.runId == runId then {} else {last.runId}
    ensures last.runId in OtherIds(front, runId) ==> exists k :: 0 <= k < |front| && front[k].runId == last.runId
    ensures Has(front + [last], runId) <==> Has(front, runId) || last.runId == runId
  {
    var runs := front + [last];
    assert forall entry :: entry in runs <==> entry in front || entry == last;
    if Has(front, runId) {
      var entry :| entry in front && entry.runId == runId;
      assert entry in runs;
    }
    assert last in runs;
  }

  lemma {:induction false} HeldCount(runs: seq<Entry>, runId: string)
    requires Distinct(runs)
    ensures HeldByOthers(runs, runId) == if Has(runs, runId) then |runs| - 1 else |runs|
  {
    hide OtherIds, Has;
    if runs == [] {
      NoneHeld(runId);
    } else {
      var n := |runs| - 1;
      var front, last := runs[..n], runs[n];
      assert runs == front + [last];
      HeldCount(front, runId);
      OtherIdsPush(front, last, runId);
      if last.runId == runId && Has(front, runId) {
        HasSlotIff(front, runId);
      }
    }
  }

  lemma NoneHeld(runId: string)
    ensures OtherIds([], runId) == {} && !Has([], runId)
  {
  }

  /** The preference rounded down; 4 where it is no finite number or below one, 16 where it is more. */
  predicate LimitIs(setting: Setting, limit: nat) {
    var asked := setting.maxLocalRuns;
    if asked.None? || asked.value < 1.0 then limit == 4
    else if asked.value >= 16.0 then limit == 16
    else limit as real <= asked.value < limit as real + 1.0
  }

  /** A run is admitted exactly if fewer others than the limit hold a slot. */
  lemma AdmittedIff(runs: seq<Entry>, runId: string, folder: string, setting: Setting, limit: nat)
    requires Distinct(runs) && LimitIs(setting, limit)
    ensures Decide(runs, runId, folder, setting).Admitted? <==> HeldByOthers(runs, runId) < limit
  {
    OthersCount(runs, runId);
    HeldCount(runs, runId);
    assert NormalizeMaxLocalRuns(setting.maxLocalRuns) == limit;
  }

  // ---- entries ----

  predicate HasSlot(runs: seq<Entry>, runId: string) {
    exists k :: 0 <= k < |runs| && runs[k].runId == runId
  }

  lemma HasSlotIff(runs: seq<Entry>, runId: string)
    ensures HasSlot(runs, runId) <==> Has(runs, runId)
  {
    if Has(runs, runId) {
      var entry :| entry in runs && entry.runId == runId;
      var k :| 0 <= k < |runs| && runs[k] == entry;
      assert HasSlot(runs, runId);
    }
    if HasSlot(runs, runId) {
      var k :| 0 <= k < |runs| && runs[k].runId == runId;
      assert runs[k] in runs;
    }
  }

  /** The entry stands where the run's entry stood, or last if it had none; nothing else changes. */
  predicate EntryPut(runs: seq<Entry>, entry: Entry, after: seq<Entry>) {
    if HasSlot(runs, entry.runId) then
      |after| == |runs| && forall k | 0 <= k < |runs| :: after[k] == if runs[k].runId == entry.runId then entry else runs[k]
    else after == runs + [entry]
  }

  lemma {:induction false} PutIs(runs: seq<Entry>, entry: Entry)
    requires Distinct(runs)
    ensures EntryPut(runs, entry, Put(runs, entry))
  {
    if runs != [] {
      var rest := runs[1..];
      assert Distinct(rest);
      if runs[0].runId == entry.runId {
        assert HasSlot(runs, entry.runId);
      } else {
        PutIs(rest, entry);
        assert HasSlot(runs, entry.runId) <==> HasSlot(rest, entry.runId) by {
          if HasSlot(rest, entry.runId) {
            var k :| 0 <= k < |rest| && rest[k].runId == entry.runId;
            assert runs[k + 1].runId == entry.runId;
          }
          if HasSlot(runs, entry.runId) {
            var k :| 0 <= k < |runs| && runs[k].runId == entry.runId;
            assert rest[k - 1].runId == entry.runId;
          }
        }
      }
    }
  }

  /** Exactly the entries of these runs are gone; the others keep their order. */
  predicate EntriesGone(runs: seq<Entry>, gone: set<string>, after: seq<Entry>) {
    if runs == [] then after == []
    else
      var n := |runs| - 1;
      if runs[n].runId in gone then EntriesGone(runs[..n], gone, after)
      else after != [] && after[|after| - 1] == runs[n] && EntriesGone(runs[..n], gone, after[..|after| - 1])
  }

  lemma {:induction false} DeleteIs(runs: seq<Entry>, runId: string)
    ensures EntriesGone(runs, {runId}, Delete(runs, runId))
  {
    if runs != [] {
      var n := |runs| - 1;
      DeleteIs(runs[..n], runId);
      var front := Delete(runs[..n], runId);
      assert (front + [runs[n]])[..|front|] == front;
    }
  }

  lemma {:induction false} GoneTwice(runs: seq<Entry>, first: set<string>, middle: seq<Entry>, second: set<string>, after: seq<Entry>)
    requires EntriesGone(runs, first, middle) && EntriesGone(middle, second, after)
    ensures EntriesGone(runs, first + second, after)
    decreases |runs|
  {
    if runs != [] {
      var n := |runs| - 1;
      if runs[n].runId in first {
        GoneTwice(runs[..n], first, middle, second, after);
      } else if runs[n].runId in second {
        GoneTwice(runs[..n], first, middle[..|middle| - 1], second, after);
      } else {
        GoneTwice(runs[..n], first, middle[..|middle| - 1], second, after[..|after| - 1]);
      }
    }
  }

  lemma {:induction false} NoneGone(runs: seq<Entry>)
    ensures EntriesGone(runs, {}, runs)
  {
    if runs != [] {
      NoneGone(runs[..|runs| - 1]);
    }
  }

  function Among(runIds: seq<string>): set<string> {
    set runId | runId in runIds
  }

  lemma AmongPush(runIds: seq<string>, runId: string)
    ensures Among(runIds + [runId]) == Among(runIds) + {runId}
  {
  }

  lemma NoneDeleted(runs: seq<Entry>)
    ensures EntriesGone(runs, Among([]), DeleteAll(runs, []))
  {
    NoneGone(runs);
    assert Among([]) == {};
  }

  lemma DeleteAllStep(runs: seq<Entry>, runIds: seq<string>)
    requires runIds != []
    ensures DeleteAll(runs, runIds) == Delete(DeleteAll(runs, runIds[..|runIds| - 1]), runIds[|runIds| - 1])
  {
    hide Delete;
  }

  lemma {:induction false} DeleteAllIs(runs: seq<Entry>, runIds: seq<string>)
    ensures EntriesGone(runs, Among(runIds), DeleteAll(runs, runIds))
  {
    hide Delete, DeleteAll, EntriesGone, Among, Distinct;
    if runIds == [] {
      NoneDeleted(runs);
    } else {
      var n := |runIds| - 1;
      DeleteAllIs(runs, runIds[..n]);
      DeleteAllStep(runs, runIds);
      DeleteIs(DeleteAll(runs, runIds[..n]), runIds[n]);
      GoneTwice(runs, Among(runIds[..n]), DeleteAll(runs, runIds[..n]), {runIds[n]}, DeleteAll(runs, runIds));
      assert runIds == runIds[..n] + [runIds[n]];
      AmongPush(runIds[..n], runIds[n]);
    }
  }

  /** A reap asks about exactly the other runs that have a child. */
  lemma {:induction false} AsksAbout(runs: seq<Entry>, keep: string)
    ensures forall runId :: runId in Candidates(runs, keep) <==>
      runId != keep && exists k :: 0 <= k < |runs| && runs[k].runId == runId && runs[k].child.Some?
  {
    if runs != [] {
      var n := |runs| - 1;
      AsksAbout(runs[..n], keep);
      forall runId
        ensures runId in Candidates(runs, keep) <==>
          runId != keep && exists k :: 0 <= k < |runs| && runs[k].runId == runId && runs[k].child.Some?
      {
        if runId in Candidates(runs[..n], keep) {
          var k :| 0 <= k < n && runs[..n][k].runId == runId && runs[..n][k].child.Some?;
          assert runs[k].runId == runId && runs[k].child.Some?;
        }
        if k :| 0 <= k < |runs| && runs[k].runId == runId && runs[k].child.Some? {
          assert k < n ==> runs[..n][k].runId == runId && runs[..n][k].child.Some?;
        }
      }
    }
  }

  // ---- the events ----

  /** A start of a run without a slot gets one at once exactly if fewer others than the limit hold one; else it waits for
      the control plane's word on the other runs with a child. */
  lemma BeginGives(s: State, id: nat, runId: string, folder: string, setting: Setting, limit: nat)
    requires Distinct(s.localRuns) && LimitIs(setting, limit)
    ensures var t := Step(s, Begin(id, runId, folder, setting));
      if id in s.starts || HasSlot(s.localRuns, runId) then t == s
      else
        && t.awake == s.awake
        && if HeldByOthers(s.localRuns, runId) < limit then
             t.localRuns == s.localRuns + [Entry(runId, folder, None)] && t.starts == s.starts[id := Preparing(runId)]
           else
             && t.localRuns == s.localRuns
             && exists asked :: t.starts == s.starts[id := Reaping(runId, folder, asked)]
                  && forall other :: other in asked <==>
                       other != runId && exists k :: 0 <= k < |s.localRuns| && s.localRuns[k].runId == other && s.localRuns[k].child.Some?
  {
    hide Decide, Put, HeldByOthers, LimitIs, Candidates, Has, HasSlot;
    HasSlotIff(s.localRuns, runId);
    AdmittedIff(s.localRuns, runId, folder, setting, limit);
    PutIs(s.localRuns, Entry(runId, folder, None));
    AsksAbout(s.localRuns, runId);
  }

  /** The word has come: the runs it asked about that are over lose their slots. */
  lemma AnswerReaps(s: State, id: nat, finished: set<string>)
    requires Distinct(s.localRuns)
    ensures var t := Step(s, Answered(id, finished));
      if id in s.starts && s.starts[id].Reaping? then
        var start := s.starts[id];
        var over := set runId | runId in start.candidates && runId in finished;
        && EntriesGone(s.localRuns, over, t.localRuns) && t.awake == s.awake
        && t.starts == s.starts[id := Rechecking(start.runId, start.folder, over != {})]
      else t == s
  {
    hide DeleteAll, EntriesGone;
    if id in s.starts && s.starts[id].Reaping? {
      var start := s.starts[id];
      var ended := Ended(start.candidates, finished);
      DeleteAllIs(s.localRuns, ended);
      var over := set runId | runId in start.candidates && runId in finished;
      assert Among(ended) == over;
      if ended != [] {
        assert ended[0] in over;
      }
      if over != {} {
        var runId :| runId in over;
        assert runId in ended;
      }
    }
  }

  /** If that freed a slot, the start gets one exactly if fewer others than the limit hold one now; else it is given up. */
  lemma RecheckGives(s: State, id: nat, setting: Setting, limit: nat)
    requires Distinct(s.localRuns) && LimitIs(setting, limit)
    ensures var t := Step(s, Rechecked(id, setting));
      if id in s.starts && s.starts[id].Rechecking? then
        var start := s.starts[id];
        && t.awake == s.awake
        && if start.freed && HeldByOthers(s.localRuns, start.runId) < limit then
             && EntryPut(s.localRuns, Entry(start.runId, start.folder, None), t.localRuns)
             && t.starts == s.starts[id := Preparing(start.runId)]
           else t.localRuns == s.localRuns && t.starts == s.starts - {id}
      else t == s
  {
    hide Decide, Put, HeldByOthers, LimitIs, EntryPut;
    if id in s.starts && s.starts[id].Rechecking? {
      var start := s.starts[id];
      AdmittedIff(s.localRuns, start.runId, start.folder, setting, limit);
      PutIs(s.localRuns, Entry(start.runId, start.folder, None));
    }
  }

  /** A prepared start puts its child under its run, and keeps the machine awake. */
  lemma SpawnPuts(s: State, id: nat, workspace: string, child: Pid)
    requires Distinct(s.localRuns)
    ensures var t := Step(s, Spawned(id, workspace, child));
      if id in s.starts && s.starts[id].Preparing? then
        var runId := s.starts[id].runId;
        && EntryPut(s.localRuns, Entry(runId, workspace, Some(child)), t.localRuns)
        && t.starts == s.starts[id := Claiming(runId)] && t.awake
      else t == s
  {
    hide Put, EntryPut;
    if id in s.starts && s.starts[id].Preparing? {
      PutIs(s.localRuns, Entry(s.starts[id].runId, workspace, Some(child)));
    }
  }

  /** A start that fails gives its run's slot back; a claimed one is over. */
  lemma StartEnds(s: State, id: nat, blocked: bool)
    requires Distinct(s.localRuns)
    ensures var t := Step(s, StartFailed(id, blocked));
      if id in s.starts && (s.starts[id].Preparing? || s.starts[id].Claiming?) then
        && EntriesGone(s.localRuns, {s.starts[id].runId}, t.localRuns) && t.starts == s.starts - {id}
        && (t.awake <==> s.awake || (blocked && s.starts[id].Preparing?))
      else t == s
    ensures Step(s, Claimed(id)) ==
      if id in s.starts && s.starts[id].Claiming? then State(s.localRuns, s.starts - {id}, s.awake) else s
  {
    hide Delete, EntriesGone;
    if id in s.starts {
      DeleteIs(s.localRuns, s.starts[id].runId);
    }
  }

  /** A run that is cancelled, or whose child is gone, has no slot; the last child to go lets the machine sleep. */
  lemma RunEnds(s: State, runId: string)
    requires Distinct(s.localRuns)
    ensures var t := Step(s, Cancel(runId));
      EntriesGone(s.localRuns, {runId}, t.localRuns) && t.starts == s.starts && t.awake == s.awake
    ensures var t := Step(s, ChildExit(runId));
      && EntriesGone(s.localRuns, {runId}, t.localRuns) && t.starts == s.starts
      && (t.awake <==> s.awake && t.localRuns != [])
    ensures var t := Step(s, ChildError(runId));
      if HasSlot(s.localRuns, runId) then t == Step(s, ChildExit(runId)) else t == s
    ensures Step(s, Event.Quit) == State([], s.starts, s.awake)
  {
    hide Delete, EntriesGone, Has, HasSlot;
    DeleteIs(s.localRuns, runId);
    HasSlotIff(s.localRuns, runId);
  }

  // ---- from a full desk to a slot ----

  /** The event is not the answer to this start, nor its turn to decide again. */
  predicate NotItsTurn(e: Event, id: nat) {
    !(e.Answered? && e.id == id) && !(e.Rechecked? && e.id == id)
  }

  lemma KeepsWaiting(s: State, e: Event, id: nat)
    requires Distinct(s.localRuns) && id in s.starts && (s.starts[id].Reaping? || s.starts[id].Rechecking?)
    requires NotItsTurn(e, id)
    ensures id in Step(s, e).starts && Step(s, e).starts[id] == s.starts[id]
  {
    hide Decide, Put, Delete, DeleteAll, Ended, Candidates;
  }

  lemma {:induction false} WaitsThrough(es: seq<Event>, i: nat, j: nat, id: nat)
    requires i <= j <= |es| && id in Run(es[..i]).starts
    requires Run(es[..i]).starts[id].Reaping? || Run(es[..i]).starts[id].Rechecking?
    requires forall k | i <= k < j :: NotItsTurn(es[k], id)
    ensures id in Run(es[..j]).starts && Run(es[..j]).starts[id] == Run(es[..i]).starts[id]
    decreases j - i
  {
    hide Run, Step, NotItsTurn;
    if i < j {
      WaitsThrough(es, i, j - 1, id);
      NextState(es, j - 1);
      KeepsWaiting(Run(es[..j - 1]), es[j - 1], id);
    }
  }

  /** Event `i` starts a run without a slot on a full desk, event `j` says which runs are over, event `k` is the start's
      turn to decide again. */
  predicate AskedAgain(es: seq<Event>, i: nat, j: nat, k: nat, full: nat, limit: nat) {
    && i < j < k < |es|
    && es[i].Begin? && es[j].Answered? && es[k].Rechecked? && es[j].id == es[i].id == es[k].id
    && (forall m | i < m < k && m != j :: NotItsTurn(es[m], es[i].id))
    && var s := Run(es[..i]);
       && es[i].id !in s.starts && !HasSlot(s.localRuns, es[i].runId)
       && LimitIs(es[i].setting, full) && HeldByOthers(s.localRuns, es[i].runId) >= full
       && LimitIs(es[k].setting, limit)
  }

  /** One of the runs that kept the desk full is over: another run with a child. */
  predicate OneIsOver(es: seq<Event>, i: nat, j: nat)
    requires i < |es| && j < |es| && es[i].Begin? && es[j].Answered?
  {
    exists m :: 0 <= m < |Run(es[..i]).localRuns| &&
      var entry := Run(es[..i]).localRuns[m];
      entry.runId != es[i].runId && entry.child.Some? && entry.runId in es[j].finished
  }

  /** The run of event `i` has a slot and its start prepares, if one is over and fewer than the limit were held by others
      before; else nothing changed but that the start is given up. */
  predicate Settles(es: seq<Event>, i: nat, j: nat, limit: nat, before: seq<Entry>, t: State)
    requires i < |es| && j < |es| && es[i].Begin? && es[j].Answered?
  {
    if OneIsOver(es, i, j) && HeldByOthers(before, es[i].runId) < limit then
      && EntryPut(before, Entry(es[i].runId, es[i].folder, None), t.localRuns)
      && es[i].id in t.starts && t.starts[es[i].id] == Preparing(es[i].runId)
    else t.localRuns == before && es[i].id !in t.starts
  }

  /** So it is with the last event of a run, whichever start it is about. */
  ghost predicate LastSettles(es: seq<Event>, t: State) {
    forall i: nat, j: nat, k: nat, full: nat, limit: nat | AskedAgain(es, i, j, k, full, limit) && k + 1 == |es| ::
      Settles(es, i, j, limit, Run(es[..k]).localRuns, t)
  }

  lemma FullDeskSettles(es: seq<Event>)
    ensures LastSettles(es, Run(es))
  {
    hide AskedAgain, Settles, Run;
    forall i: nat, j: nat, k: nat, full: nat, limit: nat | AskedAgain(es, i, j, k, full, limit) && k + 1 == |es|
      ensures i < |es| && j < |es| && es[i].Begin? && es[j].Answered?
      ensures Settles(es, i, j, limit, Run(es[..k]).localRuns, Run(es))
    {
      AskedInRange(es, i, j, k, full, limit);
      FullDeskGives(es, i, j, k, full, limit);
      assert es[..k + 1] == es;
    }
  }

  lemma AskedInRange(es: seq<Event>, i: nat, j: nat, k: nat, full: nat, limit: nat)
    requires AskedAgain(es, i, j, k, full, limit)
    ensures i < |es| && j < |es| && es[i].Begin? && es[j].Answered?
  {
  }

  /** A start on a full desk of which a run is over gets its slot, exactly if others do not hold the limit by then. */
  lemma FullDeskGives(es: seq<Event>, i: nat, j: nat, k: nat, full: nat, limit: nat)
    requires AskedAgain(es, i, j, k, full, limit)
    ensures Settles(es, i, j, limit, Run(es[..k]).localRuns, Run(es[..k + 1]))
  {
    hide Run, Step, NotItsTurn, HeldByOthers, LimitIs, EntryPut, EntriesGone, HasSlot;
    var id, runId := es[i].id, es[i].runId;
    var s := Run(es[..i]);
    NextState(es, i);
    BeginGives(s, id, runId, es[i].folder, es[i].setting, full);
    WaitsThrough(es, i + 1, j, id);
    NextState(es, j);
    AnswerReaps(Run(es[..j]), id, es[j].finished);
    WaitsThrough(es, j + 1, k, id);
    NextState(es, k);
    RecheckGives(Run(es[..k]), id, es[k].setting, limit);
    var start := Run(es[..i + 1]).starts[id];
    var over := set other | other in start.candidates && other in es[j].finished;
    if OneIsOver(es, i, j) {
      var m :| 0 <= m < |s.localRuns| && s.localRuns[m].runId != runId && s.localRuns[m].child.Some?
        && s.localRuns[m].runId in es[j].finished;
      assert s.localRuns[m].runId in over;
    }
    if over != {} {
      var other :| other in over;
      var m :| 0 <= m < |s.localRuns| && s.localRuns[m].runId == other && s.localRuns[m].child.Some?;
      assert OneIsOver(es, i, j);
    }
  }
}
