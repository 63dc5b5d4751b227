/** The host process itself (packages/desk/app/host.ts): module state that handlers change in place. */
module DeskHost {
  import opened Prelude
  import opened Admission
  import opened Desk
  import opened DeskEffects

  class Host {
    var localRuns: seq<Entry>
    /** The continuations that wait at an await, by start. */
    var starts: map<nat, Start>
    var sleepBlocker: bool

    ghost predicate Valid()
      reads this
    {
      Distinct(localRuns)
    }

    ghost function View(): State
      reads this
    {
      State(localRuns, starts, sleepBlocker)
    }

    constructor ()
      ensures Valid() && View() == IDLE
    {
      localRuns, starts, sleepBlocker := [], map[], false;
    }

    /** The tail of reserveLocalSlot: decide, and take the slot in the same turn. */
    method TrySlot(id: nat, runId: string, folder: string, setting: Setting) returns (decision: Decision)
      requires Valid()
      modifies this
      ensures Valid()
      ensures decision == Decide(old(localRuns), runId, folder, setting)
      ensures View() == if decision.Admitted? then Reserve(old(View()), id, runId, folder) else old(View())
    {
      decision := AdmitLocalRun(runId, folder, Active(localRuns), setting.maxLocalRuns, setting.insensitive);
      if decision.Admitted? {
        localRuns := Put(localRuns, Entry(runId, folder, None));
        starts := starts[id := Preparing(runId)];
      }
    }

    /** startAssignment, up to its first await. */
    method BeginStart(id: nat, runId: string, folder: string, setting: Setting)
      requires Valid()
      modifies this
      ensures Valid() && View() == Step(old(View()), Begin(id, runId, folder, setting))
    {
      if id in starts || exists entry :: entry in localRuns && entry.runId == runId {
        return;
      }
      var decision := TrySlot(id, runId, folder, setting);
      if decision.Refused? {
        starts := starts[id := Reaping(runId, folder, Candidates(localRuns, runId))];
      }
    }

    method StopRun(runId: string)
      requires Valid()
      modifies this
      ensures Valid() && View() == Step(old(View()), Cancel(runId))
    {
      localRuns := Delete(localRuns, runId);
    }

    /** The loop of reapFinishedWorkers, once the control plane has said which runs are over. */
    method ReapFinishedWorkers(candidates: seq<string>, finished: set<string>) returns (reaped: nat)
      requires Valid()
      modifies this
      ensures Valid() && View() == old(View()).(localRuns := DeleteAll(old(localRuns), Ended(candidates, finished)))
      ensures reaped == |Ended(candidates, finished)|
    {
      hide Ended, DeleteAll, Delete, Distinct;
      ghost var was := localRuns;
      reaped := 0;
      NothingEnded(was, finished);
      for k := 0 to |candidates|
        invariant Valid() && View() == old(View()).(localRuns := DeleteAll(was, Ended(candidates[..k], finished)))
        invariant reaped == |Ended(candidates[..k], finished)|
      {
        EndedPush(candidates, k, finished);
        DeleteAllPush(was, Ended(candidates[..k], finished), candidates[k]);
        if candidates[k] in finished {
          StopRun(candidates[k]);
          reaped := reaped + 1;
        }
      }
      assert candidates[..|candidates|] == candidates;
    }

    /** reapFinishedWorkers after its await. */
    method OnAnswered(id: nat, finished: set<string>)
      requires Valid()
      modifies this
      ensures Valid() && View() == Step(old(View()), Answered(id, finished))
    {
      hide DeleteAll, Ended, Distinct;
      if id !in starts || !starts[id].Reaping? {
        return;
      }
      var start := starts[id];
      var reaped := ReapFinishedWorkers(start.candidates, finished);
      starts := starts[id := Rechecking(start.runId, start.folder, reaped > 0)];
    }

    /** reserveLocalSlot after its await: decide once more if a slot was freed. */
    method OnRechecked(id: nat, setting: Setting)
      requires Valid()
      modifies this
      ensures Valid() && View() == Step(old(View()), Rechecked(id, setting))
    {
      hide Decide, Put, Distinct;
      if id !in starts || !starts[id].Rechecking? {
        return;
      }
      var start := starts[id];
      if start.freed {
        var decision := TrySlot(id, start.runId, start.folder, setting);
        if decision.Admitted? {
          return;
        }
      }
      starts := starts - {id};
    }

    /** startAssignment from the workspace being ready to the claim. */
    method OnSpawned(id: nat, workspace: string, child: Pid)
      requires Valid()
      modifies this
      ensures Valid() && View() == Step(old(View()), Spawned(id, workspace, child))
    {
      if id in starts && starts[id].Preparing? {
        var runId := starts[id].runId;
        if !sleepBlocker {
          sleepBlocker := true;
        }
        localRuns := Put(localRuns, Entry(runId, workspace, Some(child)));
        starts := starts[id := Claiming(runId)];
      }
    }

    /** The catch block of startAssignment; `blocked` when the blocker was taken before the spawn failed. */
    method OnStartFailed(id: nat, blocked: bool)
      requires Valid()
      modifies this
      ensures Valid() && View() == Step(old(View()), StartFailed(id, blocked))
    {
      if id in starts && (starts[id].Preparing? || starts[id].Claiming?) {
        if blocked && starts[id].Preparing? {
          sleepBlocker := true;
        }
        localRuns := Delete(localRuns, starts[id].runId);
        starts := starts - {id};
      }
    }

    method OnClaimed(id: nat)
      requires Valid()
      modifies this
      ensures Valid() && View() == Step(old(View()), Claimed(id))
    {
      if id in starts && starts[id].Claiming? {
        starts := starts - {id};
      }
    }

    method ReleaseSleepBlockerIfIdle()
      modifies this`sleepBlocker
      ensures View() == ReleaseIfIdle(old(View()))
    {
      if |localRuns| > 0 || !sleepBlocker {
        return;
      }
      sleepBlocker := false;
    }

    method OnChildError(runId: string)
      requires Valid()
      modifies this
      ensures Valid() && View() == Step(old(View()), ChildError(runId))
    {
      if exists entry :: entry in localRuns && entry.runId == runId {
        localRuns := Delete(localRuns, runId);
        ReleaseSleepBlockerIfIdle();
      }
    }

    method OnChildExit(runId: string)
      requires Valid()
      modifies this
      ensures Valid() && View() == Step(old(View()), ChildExit(runId))
    {
      localRuns := Delete(localRuns, runId);
      ReleaseSleepBlockerIfIdle();
    }

    method BeforeQuit()
      requires Valid()
      modifies this
      ensures Valid() && View() == Step(old(View()), Event.Quit)
    {
      localRuns := [];
    }

    /** Whatever comes next, handled to its next await. */
    method Handle(e: Event)
      requires Valid()
      modifies this
      ensures Valid() && View() == Step(old(View()), e)
    {
      hide Step, Distinct;
      match e
      case Begin(id, runId, folder, setting) => BeginStart(id, runId, folder, setting);
      case Answered(id, finished) => OnAnswered(id, finished);
      case Rechecked(id, setting) => OnRechecked(id, setting);
      case Spawned(id, workspace, child) => OnSpawned(id, workspace, child);
      case StartFailed(id, blocked) => OnStartFailed(id, blocked);
      case Claimed(id) => OnClaimed(id);
      case ChildError(runId) => OnChildError(runId);
      case ChildExit(runId) => OnChildExit(runId);
      case Cancel(runId) => StopRun(runId);
      case Quit => BeforeQuit();
    }

    /** The process over a whole run, in whatever order things happen: the slots stay within any bound the settings
        keep to if no start is disturbed, no slot leaks, no worker is left to a sleeping machine, and a start on a full desk
        gets the slot of a run that is over unless others fill the desk first. */
    method Serve(es: seq<Event>, ghost bound: nat)
      requires Valid() && View() == IDLE
      modifies this
      ensures Valid() && View() == Run(es)
      ensures Undisturbed(es) && AllWithin(es, bound) ==> |localRuns| <= bound
      ensures forall entry | entry in localRuns ::
        if entry.child.None? then exists id :: Waits(View(), id, entry.runId) else sleepBlocker
      ensures LastSettles(es, View())
    {
      hide Step, Distinct, Undisturbed, AllWithin, LastSettles;
      NothingYet();
      for k := 0 to |es|
        invariant Valid() && View() == Run(es[..k])
      {
        NextState(es, k);
        Handle(es[k]);
      }
      assert es[..|es|] == es;
      if Undisturbed(es) && AllWithin(es, bound) {
        DeskStaysWithinLimit(es, bound);
      }
      SlotsAccounted(es);
      FullDeskSettles(es);
      assert forall entry | entry in localRuns && entry.child.None? :: Reserved(View(), entry.runId);
    }
  }

  lemma NothingYet()
    ensures Run([]) == IDLE
  {
  }

  lemma EndedPush(candidates: seq<string>, k: nat, finished: set<string>)
    requires k < |candidates|
    ensures Ended(candidates[..k + 1], finished) ==
      if candidates[k] in finished then Ended(candidates[..k], finished) + [candidates[k]]
      else Ended(candidates[..k], finished)
  {
    assert candidates[..k + 1][..k] == candidates[..k];
  }

  lemma DeleteAllPush(runs: seq<Entry>, runIds: seq<string>, runId: string)
    ensures DeleteAll(runs, runIds + [runId]) == Delete(DeleteAll(runs, runIds), runId)
  {
    assert (runIds + [runId])[..|runIds|] == runIds;
  }

  lemma NothingEnded(runs: seq<Entry>, finished: set<string>)
    ensures Ended([], finished) == [] && DeleteAll(runs, []) == runs
  {
  }
}
